/** The installment table of the payment builder (`PaymentSchedule`): it turns a
    first-payment date, a frequency label, an exclusive ceiling date and the amount
    to pay in installments into a dated list of installments, and patches that list
    when one installment's extra amount or date is edited. The component's only
    state, `localPayments`, is the field of `ScheduleTable`; its props are passed
    to each call. */
module Schedule {
  import opened Dates
  import opened PlanTypes

  /** The props the table reads when it generates a schedule. */
  datatype ScheduleProps = ScheduleProps(
    firstPaymentDate: Date,
    frequencyLabel: string,
    ceilingPayment: Date,
    totalToPay: real)

  /** What a user typed in an extra-amount cell, after `Number.parseFloat`. */
  datatype Parsed = Invalid | Number(v: real)

  /** `frequencyMap[label] || 3`: months between two installments. */
  function FrequencyMonths(name: string): (k: int)
    ensures k in {1, 2, 3, 4, 6}
    ensures k == 1 <==> name == "mensual"
    ensures k == 2 <==> name == "bimestral"
    ensures k == 4 <==> name == "cuatrimestral"
    ensures k == 6 <==> name == "semestral"
    ensures k == 3 <==> name !in {"mensual", "bimestral", "cuatrimestral", "semestral"}
  {
    if name == "mensual" then 1
    else if name == "bimestral" then 2
    else if name == "trimestral" then 3
    else if name == "cuatrimestral" then 4
    else if name == "semestral" then 6
    else 3
  }

  /** `Number.parseFloat(value) || 0`: an unparseable entry (and zero) gives 0;
      a negative number is kept as it is. */
  function ExtraAmount(value: Parsed): (a: real)
    ensures value.Invalid? ==> a == 0.0
    ensures value.Number? ==> a == value.v
  {
    match value
    case Invalid => 0.0
    case Number(v) => v
  }

  /** The dates the generation loop visits: `d`, then `addMonths` by `k` each
      step, for as long as the date is before `ceiling`. */
  function ScheduleDates(d: Date, k: int, ceiling: Date): (ds: seq<Date>)
    requires ValidDate(d) && ValidDate(ceiling) && k >= 1
    ensures |ds| > 0 <==> Before(d, ceiling)
    ensures |ds| > 0 ==> ds[0] == d
    decreases MonthIndex(ceiling) - MonthIndex(d) + 1
  {
    BeforeMonthIndex(d, ceiling);
    if Before(d, ceiling) then [d] + ScheduleDates(AddMonths(d, k), k, ceiling)
    else []
  }

  /** The rows pushed by the loop, before the ordinary parts are computed:
      ids `1..n`, the visited dates, ordinary and extra 0. */
  function Unpriced(dates: seq<Date>): (ps: seq<Payment>)
    ensures |ps| == |dates|
    ensures forall i :: 0 <= i < |ps| ==> ps[i] == Payment(i + 1, dates[i], 0.0, 0.0)
  {
    seq(|dates|, i requires 0 <= i < |dates| => Payment(i + 1, dates[i], 0.0, 0.0))
  }

  lemma UnpricedAppend(dates: seq<Date>, d: Date)
    ensures Unpriced(dates + [d]) == Unpriced(dates) + [Payment(|dates| + 1, d, 0.0, 0.0)]
  {
  }

  /** What is left to pay after the extras, split evenly and rounded to the cent. */
  function OrdinaryShare(ps: seq<Payment>, totalToPay: real): real
    requires |ps| > 0
  {
    Round2((totalToPay - TotalExtra(ps)) / |ps| as real)
  }

  /** The `map` that gives every installment the same ordinary part. */
  function Redistribute(ps: seq<Payment>, totalToPay: real): (r: seq<Payment>)
    ensures |r| == |ps|
    ensures forall i :: 0 <= i < |r| ==>
              r[i] == ps[i].(ordinary := OrdinaryShare(ps, totalToPay))
  {
    if |ps| == 0 then []
    else
      var share := OrdinaryShare(ps, totalToPay);
      seq(|ps|, i requires 0 <= i < |ps| => ps[i].(ordinary := share))
  }

  /** The new `localPayments` after `generatePaymentSchedule`. */
  function Generated(prev: seq<Payment>, props: ScheduleProps): (r: seq<Payment>)
    requires ValidDate(props.firstPaymentDate) && ValidDate(props.ceilingPayment)
    ensures r != prev ==>
              |r| > 0 && r[0].date == props.firstPaymentDate
              && forall i :: 0 <= i < |r| ==> r[i].id == i + 1 && r[i].extra == 0.0
  {
    if |prev| > 0 && props.totalToPay == 0.0 then prev
    else
      var dates := ScheduleDates(props.firstPaymentDate, FrequencyMonths(props.frequencyLabel),
                                 props.ceilingPayment);
      if |dates| == 0 then prev
      else Redistribute(Unpriced(dates), props.totalToPay)
  }

  /** The new `localPayments` after `handleExtraChange(id, value)`. */
  function ExtraEdited(ps: seq<Payment>, id: int, value: Parsed, totalToPay: real): (r: seq<Payment>)
    ensures |r| == |ps|
    ensures forall i :: 0 <= i < |r| ==> r[i].id == ps[i].id && r[i].date == ps[i].date
  {
    var amount := ExtraAmount(value);
    Redistribute(seq(|ps|, i requires 0 <= i < |ps| =>
                       if ps[i].id == id then ps[i].(extra := amount) else ps[i]),
                 totalToPay)
  }

  /** The new `localPayments` after `handleDateChange(id, newDate)`. */
  function DateEdited(ps: seq<Payment>, id: int, newDate: Date): (r: seq<Payment>)
    ensures |r| == |ps|
    ensures forall i :: 0 <= i < |r| ==>
              && r[i].id == ps[i].id && r[i].ordinary == ps[i].ordinary && r[i].extra == ps[i].extra
              && r[i].date == (if ps[i].id == id then newDate else ps[i].date)
  {
    seq(|ps|, i requires 0 <= i < |ps| => if ps[i].id == id then ps[i].(date := newDate) else ps[i])
  }

  /** `displayPayments`: the local list, or the parent's while the local one is empty. */
  function DisplayPayments(local: seq<Payment>, parent: seq<Payment>): (r: seq<Payment>)
    ensures local != [] ==> r == local
    ensures local == [] ==> r == parent
  {
    if |local| > 0 then local else parent
  }

  /** A date before the ceiling is followed by the dates from `addMonths(d, k)`. */
  lemma ScheduleDatesCons(d: Date, k: int, ceiling: Date)
    requires ValidDate(d) && ValidDate(ceiling) && k >= 1
    requires Before(d, ceiling)
    ensures ScheduleDates(d, k, ceiling) == [d] + ScheduleDates(AddMonths(d, k), k, ceiling)
  {
  }

  /** Moving the head of the remaining part onto the visited part keeps the whole. */
  lemma MoveHead<X>(visited: seq<X>, remaining: seq<X>, whole: seq<X>, x: X, rest: seq<X>)
    requires visited + remaining == whole && remaining == [x] + rest
    ensures (visited + [x]) + rest == whole
  {
    assert visited + ([x] + rest) == (visited + [x]) + rest;
  }

  /** One turn of the generation loop: the current date joins the visited ones,
      the next date is `addMonths(current, k)`, and fewer months remain. */
  lemma GenerateStep(first: Date, visited: seq<Date>, current: Date, k: int, ceiling: Date)
    requires ValidDate(first) && ValidDate(current) && ValidDate(ceiling) && k >= 1
    requires Before(current, ceiling)
    requires visited + ScheduleDates(current, k, ceiling) == ScheduleDates(first, k, ceiling)
    ensures (visited + [current]) + ScheduleDates(AddMonths(current, k), k, ceiling)
            == ScheduleDates(first, k, ceiling)
    ensures 0 <= MonthIndex(ceiling) - MonthIndex(current)
    ensures MonthIndex(ceiling) - MonthIndex(AddMonths(current, k)) < MonthIndex(ceiling) - MonthIndex(current)
  {
    BeforeMonthIndex(current, ceiling);
    ScheduleDatesCons(current, k, ceiling);
    MoveHead(visited, ScheduleDates(current, k, ceiling), ScheduleDates(first, k, ceiling),
             current, ScheduleDates(AddMonths(current, k), k, ceiling));
  }

  class ScheduleTable {
    var localPayments: seq<Payment>

    constructor ()
      ensures localPayments == []
    {
      localPayments := [];
    }

    /** `generatePaymentSchedule`. */
    method Generate(props: ScheduleProps)
      requires ValidDate(props.firstPaymentDate) && ValidDate(props.ceilingPayment)
      modifies this
      ensures localPayments == Generated(old(localPayments), props)
    {
      if |localPayments| > 0 && props.totalToPay == 0.0 {
        return;
      }
      var k := FrequencyMonths(props.frequencyLabel);
      var ceiling := props.ceilingPayment;
      var newPayments: seq<Payment> := [];
      var currentDate := props.firstPaymentDate;
      var id := 1;
      ghost var visited: seq<Date> := [];
      while Before(currentDate, ceiling)
        invariant ValidDate(currentDate)
        invariant visited + ScheduleDates(currentDate, k, ceiling)
                  == ScheduleDates(props.firstPaymentDate, k, ceiling)
        invariant newPayments == Unpriced(visited)
        invariant id == |visited| + 1
        invariant localPayments == old(localPayments)
        decreases MonthIndex(ceiling) - MonthIndex(currentDate)
      {
        var next := AddMonths(currentDate, k);
        GenerateStep(props.firstPaymentDate, visited, currentDate, k, ceiling);
        UnpricedAppend(visited, currentDate);
        newPayments := newPayments + [Payment(id, currentDate, 0.0, 0.0)];
        visited := visited + [currentDate];
        currentDate := next;
        id := id + 1;
      }
      assert visited == ScheduleDates(props.firstPaymentDate, k, ceiling);
      if |newPayments| == 0 {
        return;
      }
      var updatedPayments := Redistribute(newPayments, props.totalToPay);
      if updatedPayments != localPayments {
        localPayments := updatedPayments;
      }
    }

    /** `handleExtraChange`. */
    method EditExtra(id: int, value: Parsed, totalToPay: real)
      modifies this
      ensures localPayments == ExtraEdited(old(localPayments), id, value, totalToPay)
    {
      localPayments := ExtraEdited(localPayments, id, value, totalToPay);
    }

    /** `handleDateChange`. */
    method EditDate(id: int, newDate: Date)
      modifies this
      ensures localPayments == DateEdited(old(localPayments), id, newDate)
    {
      localPayments := DateEdited(localPayments, id, newDate);
    }
  }

  // ---------------------------------------------------------------------------
  // Properties of the generated dates

  /** The visited dates start at `d`, step by `addMonths(_, k)`, all lie before the
      ceiling, and one more step would not. */
  lemma {:induction false} ScheduleDatesShape(d: Date, k: int, ceiling: Date)
    requires ValidDate(d) && ValidDate(ceiling) && k >= 1
    ensures var ds := ScheduleDates(d, k, ceiling);
      && (|ds| == 0 <==> !Before(d, ceiling))
      && (|ds| > 0 ==> ds[0] == d)
      && (forall i :: 0 <= i < |ds| ==> ValidDate(ds[i]) && Before(ds[i], ceiling))
      && (forall i :: 0 <= i < |ds| - 1 ==> ds[i + 1] == AddMonths(ds[i], k))
      && (|ds| > 0 ==> !Before(AddMonths(ds[|ds| - 1], k), ceiling))
    decreases MonthIndex(ceiling) - MonthIndex(d) + 1
  {
    BeforeMonthIndex(d, ceiling);
    if Before(d, ceiling) {
      var next := AddMonths(d, k);
      ScheduleDatesShape(next, k, ceiling);
      var rest := ScheduleDates(next, k, ceiling);
      var ds := ScheduleDates(d, k, ceiling);
      assert ds == [d] + rest;
      forall i | 0 <= i < |ds| - 1
        ensures ds[i + 1] == AddMonths(ds[i], k)
      {
        if i > 0 {
          assert ds[i] == rest[i - 1] && ds[i + 1] == rest[i];
        }
      }
    }
  }

  /** In a chain of dates where each is `addMonths(previous, k)`, a later date is
      strictly later. */
  lemma {:induction false} ChainIncreases(ds: seq<Date>, k: int, i: int, j: int)
    requires k >= 1
    requires forall m :: 0 <= m < |ds| ==> ValidDate(ds[m])
    requires forall m :: 0 <= m < |ds| - 1 ==> ds[m + 1] == AddMonths(ds[m], k)
    requires 0 <= i < j < |ds|
    ensures Before(ds[i], ds[j])
    decreases j - i
  {
    AddMonthsIsLater(ds[j - 1], k);
    if j - 1 > i {
      ChainIncreases(ds, k, i, j - 1);
      BeforeTransitive(ds[i], ds[j - 1], ds[j]);
    }
  }

  /** The visited dates strictly increase. */
  lemma ScheduleDatesIncrease(d: Date, k: int, ceiling: Date)
    requires ValidDate(d) && ValidDate(ceiling) && k >= 1
    ensures var ds := ScheduleDates(d, k, ceiling);
      forall i, j :: 0 <= i < j < |ds| ==> Before(ds[i], ds[j])
  {
    var ds := ScheduleDates(d, k, ceiling);
    ScheduleDatesShape(d, k, ceiling);
    forall i, j | 0 <= i < j < |ds|
      ensures Before(ds[i], ds[j])
    {
      ChainIncreases(ds, k, i, j);
    }
  }

  // ---------------------------------------------------------------------------
  // Properties of generation

  /** Generation keeps the previous list when it already holds payments and the
      total is 0, and when the first payment date is not before the ceiling. */
  lemma GeneratedKeepsPrevious(prev: seq<Payment>, props: ScheduleProps)
    requires ValidDate(props.firstPaymentDate) && ValidDate(props.ceilingPayment)
    requires (|prev| > 0 && props.totalToPay == 0.0)
             || !Before(props.firstPaymentDate, props.ceilingPayment)
    ensures Generated(prev, props) == prev
  {
    ScheduleDatesShape(props.firstPaymentDate, FrequencyMonths(props.frequencyLabel),
                       props.ceilingPayment);
  }

  /** A fresh generation: ids `1..n`, the dates of `ScheduleDates` (the first one
      the first payment date), no extras, and the same ordinary part
      `round2(totalToPay / n)` everywhere. */
  lemma GeneratedFresh(prev: seq<Payment>, props: ScheduleProps)
    requires ValidDate(props.firstPaymentDate) && ValidDate(props.ceilingPayment)
    requires !(|prev| > 0 && props.totalToPay == 0.0)
    requires Before(props.firstPaymentDate, props.ceilingPayment)
    ensures var r := Generated(prev, props);
      var ds := ScheduleDates(props.firstPaymentDate, FrequencyMonths(props.frequencyLabel),
                              props.ceilingPayment);
      && |r| == |ds| > 0
      && r[0].date == props.firstPaymentDate
      && TotalExtra(r) == 0.0
      && forall i :: 0 <= i < |r| ==>
           && r[i].id == i + 1
           && r[i].date == ds[i]
           && r[i].extra == 0.0
           && r[i].ordinary == Round2(props.totalToPay / |r| as real)
  {
    var k := FrequencyMonths(props.frequencyLabel);
    var ds := ScheduleDates(props.firstPaymentDate, k, props.ceilingPayment);
    ScheduleDatesShape(props.firstPaymentDate, k, props.ceilingPayment);
    var u := Unpriced(ds);
    TotalExtraOfSameExtras(u, seq(|u|, i => Payment(0, props.firstPaymentDate, 0.0, 0.0)));
    ZeroExtras(|u|, props.firstPaymentDate);
    var r := Generated(prev, props);
    TotalExtraOfSameExtras(r, u);
  }

  lemma {:induction false} ZeroExtras(n: nat, d: Date)
    ensures TotalExtra(seq(n, i => Payment(0, d, 0.0, 0.0))) == 0.0
  {
    if n > 0 {
      var s := seq(n, i => Payment(0, d, 0.0, 0.0));
      ZeroExtras(n - 1, d);
      assert s[1..] == seq(n - 1, i => Payment(0, d, 0.0, 0.0));
    }
  }

  /** Generating again from the same props over the previous result changes
      nothing: the state is not replaced by an equal list over and over. */
  lemma GeneratedIdempotent(prev: seq<Payment>, props: ScheduleProps)
    requires ValidDate(props.firstPaymentDate) && ValidDate(props.ceilingPayment)
    ensures Generated(Generated(prev, props), props) == Generated(prev, props)
  {
  }

  // ---------------------------------------------------------------------------
  // Totals

  /** After any redistribution the footer's grand total is `totalToPay` up to half
      a cent per installment (each share is rounded to the cent). */
  lemma RedistributedTotal(ps: seq<Payment>, totalToPay: real)
    requires |ps| > 0
    ensures var g := GrandTotal(Redistribute(ps, totalToPay));
      -0.005 * |ps| as real <= g - totalToPay <= 0.005 * |ps| as real
  {
    var r := Redistribute(ps, totalToPay);
    var n := |ps| as real;
    var e := TotalExtra(ps);
    var share := OrdinaryShare(ps, totalToPay);
    var ordinary := TotalOrdinary(r);
    assert TotalExtra(r) == e by {
      RedistributeKeepsExtras(ps, totalToPay);
    }
    assert ordinary == n * share by {
      RedistributedOrdinaryTotal(ps, totalToPay);
    }
    assert -0.005 * n <= n * share - (totalToPay - e) <= 0.005 * n by {
      ShareError(n, totalToPay - e, share);
    }
    SumOfParts(GrandTotal(r), ordinary, e, totalToPay, n, n * share);
  }

  lemma SumOfParts(g: real, ordinary: real, extra: real, total: real, n: real, shares: real)
    requires g == ordinary + extra && ordinary == shares
    requires -0.005 * n <= shares - (total - extra) <= 0.005 * n
    ensures -0.005 * n <= g - total <= 0.005 * n
  {
  }

  /** Redistribution leaves the extras, hence their total, as they were. */
  lemma RedistributeKeepsExtras(ps: seq<Payment>, totalToPay: real)
    ensures TotalExtra(Redistribute(ps, totalToPay)) == TotalExtra(ps)
  {
    TotalExtraOfSameExtras(Redistribute(ps, totalToPay), ps);
  }

  lemma RedistributedOrdinaryTotal(ps: seq<Payment>, totalToPay: real)
    requires |ps| > 0
    ensures TotalOrdinary(Redistribute(ps, totalToPay)) == |ps| as real * OrdinaryShare(ps, totalToPay)
  {
    TotalOrdinaryOfEqualParts(Redistribute(ps, totalToPay), OrdinaryShare(ps, totalToPay));
  }

  /** `n` shares, each within half a cent of `rest / n`, add up to `rest` within
      half a cent per share. */
  lemma ShareError(n: real, rest: real, share: real)
    requires n > 0.0
    requires share == Round2(rest / n)
    ensures -0.005 * n <= n * share - rest <= 0.005 * n
  {
    var q := rest / n;
    assert n * q == rest;
    var delta := share - q;
    assert n * share == rest + n * delta;
    assert -0.005 * n <= n * delta <= 0.005 * n;
  }

  /** Exact equality is not promised: 10 over three installments shows 9.99. */
  lemma TenOverThree(d: Date)
    ensures GrandTotal(Redistribute(Unpriced([d, d, d]), 10.0)) == 9.99
  {
    var u := Unpriced([d, d, d]);
    assert u == [Payment(1, d, 0.0, 0.0), Payment(2, d, 0.0, 0.0), Payment(3, d, 0.0, 0.0)];
    assert TotalExtra(u) == 0.0 by {
      assert u[1..] == [Payment(2, d, 0.0, 0.0), Payment(3, d, 0.0, 0.0)];
      assert u[1..][1..] == [Payment(3, d, 0.0, 0.0)];
      assert u[1..][1..][1..] == [];
      assert TotalExtra(u[1..][1..]) == 0.0;
      assert TotalExtra(u[1..]) == 0.0;
    }
    assert Cents(10.0 / 3.0) == 333 by {
      assert (10.0 / 3.0 * 100.0 + 0.5).Floor == 333;
    }
    var r := Redistribute(u, 10.0);
    assert r == [Payment(1, d, 3.33, 0.0), Payment(2, d, 3.33, 0.0), Payment(3, d, 3.33, 0.0)];
    assert r[1..] == [Payment(2, d, 3.33, 0.0), Payment(3, d, 3.33, 0.0)];
    assert r[1..][1..] == [Payment(3, d, 3.33, 0.0)];
    assert r[1..][1..][1..] == [];
    assert TotalExtra(r[1..][1..]) == 0.0 && TotalOrdinary(r[1..][1..]) == 3.33;
    assert TotalExtra(r[1..]) == 0.0 && TotalOrdinary(r[1..]) == 6.66;
  }

  // ---------------------------------------------------------------------------
  // Editing one installment

  /** `handleExtraChange`: only the matching installments' extras change (to the
      parsed amount); ids, dates, order and length are kept; every ordinary part
      becomes `round2((totalToPay - totalExtra) / n)` of the new extras. */
  lemma ExtraEditedShape(ps: seq<Payment>, id: int, value: Parsed, totalToPay: real)
    ensures var r := ExtraEdited(ps, id, value, totalToPay);
      && |r| == |ps|
      && forall i :: 0 <= i < |r| ==>
           && r[i].id == ps[i].id
           && r[i].date == ps[i].date
           && r[i].extra == (if ps[i].id == id then ExtraAmount(value) else ps[i].extra)
           && r[i].ordinary == Round2((totalToPay - TotalExtra(r)) / |r| as real)
  {
    var amount := ExtraAmount(value);
    var edited := seq(|ps|, i requires 0 <= i < |ps| =>
                        if ps[i].id == id then ps[i].(extra := amount) else ps[i]);
    var r := ExtraEdited(ps, id, value, totalToPay);
    assert r == Redistribute(edited, totalToPay);
    TotalExtraOfSameExtras(r, edited);
  }

  /** Typing the same extra into the same installment twice is the same as once. */
  lemma ExtraEditIdempotent(ps: seq<Payment>, id: int, value: Parsed, totalToPay: real)
    ensures var once := ExtraEdited(ps, id, value, totalToPay);
      ExtraEdited(once, id, value, totalToPay) == once
  {
    var once := ExtraEdited(ps, id, value, totalToPay);
    var twice := ExtraEdited(once, id, value, totalToPay);
    ExtraEditedShape(ps, id, value, totalToPay);
    ExtraEditedShape(once, id, value, totalToPay);
    TotalExtraOfSameExtras(once, twice);
    assert forall i :: 0 <= i < |once| ==> twice[i] == once[i];
  }

  /** `handleDateChange`: only the matching installments' dates change; ids,
      amounts, order and length are kept. */
  lemma DateEditedShape(ps: seq<Payment>, id: int, newDate: Date)
    ensures var r := DateEdited(ps, id, newDate);
      && |r| == |ps|
      && TotalOrdinary(r) == TotalOrdinary(ps) && TotalExtra(r) == TotalExtra(ps)
      && forall i :: 0 <= i < |r| ==>
           && r[i].id == ps[i].id
           && r[i].ordinary == ps[i].ordinary
           && r[i].extra == ps[i].extra
           && r[i].date == (if ps[i].id == id then newDate else ps[i].date)
  {
    var r := DateEdited(ps, id, newDate);
    TotalExtraOfSameExtras(r, ps);
    SameOrdinaries(r, ps);
  }

  lemma {:induction false} SameOrdinaries(a: seq<Payment>, b: seq<Payment>)
    requires |a| == |b|
    requires forall i :: 0 <= i < |a| ==> a[i].ordinary == b[i].ordinary
    ensures TotalOrdinary(a) == TotalOrdinary(b)
  {
    if a != [] {
      SameOrdinaries(a[1..], b[1..]);
    }
  }

  /** A date edit is not followed by a re-sort, so the dates can stop increasing. */
  lemma DateEditCanUnorder()
    ensures var ps := [Payment(1, Date(2024, 1, 1), 0.0, 0.0), Payment(2, Date(2024, 4, 1), 0.0, 0.0)];
      var r := DateEdited(ps, 1, Date(2025, 1, 1));
      Before(ps[0].date, ps[1].date) && !Before(r[0].date, r[1].date)
  {
  }

  // ---------------------------------------------------------------------------
  // A worked example

  /** The quarterly dates of 2024 before October. */
  lemma QuarterlyDates()
    ensures ScheduleDates(Date(2024, 1, 1), 3, Date(2024, 10, 1))
            == [Date(2024, 1, 1), Date(2024, 4, 1), Date(2024, 7, 1)]
  {
    var d0, d1, d2 := Date(2024, 1, 1), Date(2024, 4, 1), Date(2024, 7, 1);
    var ceiling := Date(2024, 10, 1);
    assert AddMonths(d0, 3) == d1 && AddMonths(d1, 3) == d2 && AddMonths(d2, 3) == ceiling;
    assert ScheduleDates(ceiling, 3, ceiling) == [];
    assert ScheduleDates(d2, 3, ceiling) == [d2];
    assert ScheduleDates(d1, 3, ceiling) == [d1, d2];
  }

  /** Quarterly from 2024-01-01 with the ceiling 2024-10-01 and 9000 to pay:
      three installments of 3000. */
  lemma QuarterlyExample()
    ensures Generated([], ScheduleProps(Date(2024, 1, 1), "trimestral", Date(2024, 10, 1), 9000.0))
            == [Payment(1, Date(2024, 1, 1), 3000.0, 0.0),
                Payment(2, Date(2024, 4, 1), 3000.0, 0.0),
                Payment(3, Date(2024, 7, 1), 3000.0, 0.0)]
  {
    var d0, d1, d2 := Date(2024, 1, 1), Date(2024, 4, 1), Date(2024, 7, 1);
    QuarterlyDates();
    var u := Unpriced([d0, d1, d2]);
    assert u == [Payment(1, d0, 0.0, 0.0), Payment(2, d1, 0.0, 0.0), Payment(3, d2, 0.0, 0.0)];
    assert TotalExtra(u) == 0.0 by {
      assert u[1..][1..][1..] == [];
      assert TotalExtra(u[1..][1..]) == 0.0;
    }
    assert Cents(9000.0 / 3.0) == 300000 by {
      assert (9000.0 / 3.0 * 100.0 + 0.5).Floor == 300000;
    }
  }

  /** Then an extra of 900 on the first installment lowers every ordinary part
      to (9000 - 900) / 3 = 2700. */
  lemma QuarterlyExtraExample()
    ensures var d0, d1, d2 := Date(2024, 1, 1), Date(2024, 4, 1), Date(2024, 7, 1);
      ExtraEdited([Payment(1, d0, 3000.0, 0.0), Payment(2, d1, 3000.0, 0.0), Payment(3, d2, 3000.0, 0.0)],
                  1, Number(900.0), 9000.0)
      == [Payment(1, d0, 2700.0, 900.0), Payment(2, d1, 2700.0, 0.0), Payment(3, d2, 2700.0, 0.0)]
  {
    var d0, d1, d2 := Date(2024, 1, 1), Date(2024, 4, 1), Date(2024, 7, 1);
    var before := [Payment(1, d0, 3000.0, 0.0), Payment(2, d1, 3000.0, 0.0), Payment(3, d2, 3000.0, 0.0)];
    var edited := [Payment(1, d0, 3000.0, 900.0), Payment(2, d1, 3000.0, 0.0), Payment(3, d2, 3000.0, 0.0)];
    var patched := seq(|before|, i requires 0 <= i < |before| =>
                         if before[i].id == 1 then before[i].(extra := 900.0) else before[i]);
    assert patched == edited;
    assert TotalExtra(edited) == 900.0 by {
      assert edited[1..][1..][1..] == [];
      assert TotalExtra(edited[1..][1..]) == 0.0;
    }
    assert Cents((9000.0 - 900.0) / 3.0) == 270000 by {
      assert ((9000.0 - 900.0) / 3.0 * 100.0 + 0.5).Floor == 270000;
    }
  }

  /** Each date steps from the previous one, not from the first: a schedule that
      starts on a 31st stays on the 29th after February. */
  lemma MonthEndDrift()
    ensures ScheduleDates(Date(2024, 1, 31), 1, Date(2024, 4, 1))
            == [Date(2024, 1, 31), Date(2024, 2, 29), Date(2024, 3, 29)]
  {
    var ceiling := Date(2024, 4, 1);
    assert AddMonths(Date(2024, 1, 31), 1) == Date(2024, 2, 29);
    assert AddMonths(Date(2024, 2, 29), 1) == Date(2024, 3, 29);
    assert AddMonths(Date(2024, 3, 29), 1) == Date(2024, 4, 29);
    assert ScheduleDates(Date(2024, 4, 29), 1, ceiling) == [];
    assert ScheduleDates(Date(2024, 3, 29), 1, ceiling) == [Date(2024, 3, 29)];
    assert ScheduleDates(Date(2024, 2, 29), 1, ceiling) == [Date(2024, 2, 29), Date(2024, 3, 29)];
  }
}
