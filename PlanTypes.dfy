/** The records shared by the payment builder, the schedule table and the
    persistence service (`PaymentPlan` and `Payment`), money rounding, and the sums
    the schedule table shows in its footer. Amounts are exact reals; the field name
    `reservationSignatuerPercent` keeps the source's spelling. */
module PlanTypes {
  import opened Dates

  /** One installment of the schedule. */
  datatype Payment = Payment(id: int, date: Date, ordinary: real, extra: real)

  /** A whole payment plan. Percentages are on a 0-100 scale. */
  datatype PaymentPlan = PaymentPlan(
    client: string,
    project: string,
    unit: string,
    currency: string,
    price: real,
    reservation: real,
    signature: real,
    reservationPercent: real,
    signaturePercent: real,
    reservationSignatuerPercent: real,
    duringConstruction: real,
    duringConstructionPercent: real,
    atDelivery: real,
    atDeliveryPercent: real,
    deliveryDate: Date,
    reservationDate: Date,
    signatureDate: Date,
    firstPaymentDate: Date,
    lastPaymentDate: Date,
    frequency: string,
    payments: seq<Payment>)

  /** `x * 100` rounded to the nearest integer, halves away from zero. */
  function Cents(x: real): (c: int)
    ensures -0.5 <= c as real - x * 100.0 <= 0.5
    ensures x >= 0.0 ==> c >= 0
  {
    var y := if x >= 0.0 then x * 100.0 else -x * 100.0;
    var n := (y + 0.5).Floor;
    assert y - 0.5 < n as real <= y + 0.5;
    if x >= 0.0 then n else -n
  }

  /** `Number(x.toFixed(2))`: the nearest whole number of cents. */
  function Round2(x: real): (r: real)
    ensures -0.005 <= r - x <= 0.005
    ensures x >= 0.0 ==> r >= 0.0
  {
    Cents(x) as real / 100.0
  }

  /** `toFixed(2)` leaves a whole number of cents. */
  lemma Round2WholeCents(x: real)
    ensures (Round2(x) * 100.0).Floor as real == Round2(x) * 100.0
  {
    assert Round2(x) * 100.0 == Cents(x) as real;
  }

  /** The footer's "Cuota" total: the sum of the ordinary parts. */
  function TotalOrdinary(ps: seq<Payment>): real {
    if ps == [] then 0.0 else ps[0].ordinary + TotalOrdinary(ps[1..])
  }

  /** The footer's "Extra" total, also the `totalExtra` of every redistribution. */
  function TotalExtra(ps: seq<Payment>): real {
    if ps == [] then 0.0 else ps[0].extra + TotalExtra(ps[1..])
  }

  /** The footer's grand total. */
  function GrandTotal(ps: seq<Payment>): real {
    TotalOrdinary(ps) + TotalExtra(ps)
  }

  /** Non-negative parts give non-negative totals. */
  lemma {:induction false} TotalsNonNegative(ps: seq<Payment>)
    ensures (forall i :: 0 <= i < |ps| ==> ps[i].ordinary >= 0.0) ==> TotalOrdinary(ps) >= 0.0
    ensures (forall i :: 0 <= i < |ps| ==> ps[i].extra >= 0.0) ==> TotalExtra(ps) >= 0.0
  {
    if ps != [] {
      TotalsNonNegative(ps[1..]);
      assert forall i :: 0 <= i < |ps[1..]| ==> ps[1..][i] == ps[i + 1];
    }
  }

  /** The totals agree with the left-to-right `reduce` from 0: one more payment
      adds its parts to the running sums. */
  lemma {:induction false} TotalsSnoc(ps: seq<Payment>, p: Payment)
    ensures TotalOrdinary(ps + [p]) == TotalOrdinary(ps) + p.ordinary
    ensures TotalExtra(ps + [p]) == TotalExtra(ps) + p.extra
    ensures GrandTotal(ps + [p]) == GrandTotal(ps) + p.ordinary + p.extra
  {
    if ps == [] {
      assert [] + [p] == [p];
    } else {
      assert (ps + [p])[1..] == ps[1..] + [p];
      TotalsSnoc(ps[1..], p);
    }
  }

  /** Two lists with the same extras position by position have the same extra total. */
  lemma {:induction false} TotalExtraOfSameExtras(a: seq<Payment>, b: seq<Payment>)
    requires |a| == |b|
    requires forall i :: 0 <= i < |a| ==> a[i].extra == b[i].extra
    ensures TotalExtra(a) == TotalExtra(b)
  {
    if a != [] {
      TotalExtraOfSameExtras(a[1..], b[1..]);
    }
  }

  /** When every ordinary part is `c`, their total is `|ps| * c`. */
  lemma {:induction false} TotalOrdinaryOfEqualParts(ps: seq<Payment>, c: real)
    requires forall i :: 0 <= i < |ps| ==> ps[i].ordinary == c
    ensures TotalOrdinary(ps) == |ps| as real * c
  {
    if ps != [] {
      TotalOrdinaryOfEqualParts(ps[1..], c);
    }
  }
}
