/** The payment-builder page (`PaymentBuilder`): it owns the plan being edited
    (`paymentPlanValues`), starts it from fixed defaults dated relative to today,
    accepts a new schedule from the table only when it differs, replaces the whole
    plan through `exportValues`, shows four summary figures and drives the schedule
    table from the plan. "Today" is a parameter. */
module Builder {
  import opened Dates
  import opened PlanTypes
  import opened Schedule
  import opened Validation

  /** The initial `paymentPlanValues`: every date is a real calendar date, so the
      schedule table can be driven from it. */
  function DefaultPlan(today: Date): (p: PaymentPlan)
    requires ValidDate(today)
    ensures ValidDate(p.reservationDate) && ValidDate(p.signatureDate)
    ensures ValidDate(p.firstPaymentDate) && ValidDate(p.lastPaymentDate)
    ensures ValidDate(p.deliveryDate)
  {
    PaymentPlan(
      client := "", project := "", unit := "", currency := "USD",
      price := 0.0, reservation := 0.0, signature := 0.0,
      reservationPercent := 5.0, signaturePercent := 5.0, reservationSignatuerPercent := 10.0,
      duringConstruction := 0.0, duringConstructionPercent := 40.0,
      atDelivery := 0.0, atDeliveryPercent := 50.0,
      deliveryDate := SetYearPlus(today, 2),
      reservationDate := today,
      signatureDate := SetMonthPlus(today, 1),
      firstPaymentDate := SetMonthPlus(today, 2),
      lastPaymentDate := SetMonthPlus(today, 1),
      frequency := "trimestral",
      payments := [])
  }

  /** The state updater of `handlePaymentsChange`: an equal list keeps the very
      same state; otherwise only `payments` is replaced. */
  function WithPayments(prev: PaymentPlan, payments: seq<Payment>): (next: PaymentPlan)
    ensures prev.payments == payments ==> next == prev
    ensures next.payments == payments
    ensures next.(payments := prev.payments) == prev
  {
    if prev.payments == payments then prev else prev.(payments := payments)
  }

  /** One figure of the summary banner. */
  datatype Stat = Stat(id: int, name: string, value: real)

  /** `bannerStats`. */
  function BannerStats(plan: PaymentPlan): (stats: seq<Stat>)
    ensures |stats| == 4
    ensures forall i :: 0 <= i < 4 ==> stats[i].id == i + 1
    ensures stats[0].value == plan.price
    ensures stats[1].value == plan.reservation + plan.signature
    ensures stats[2].value == plan.duringConstruction
    ensures stats[3].value == plan.atDelivery
  {
    [ Stat(1, "Precio de cierre", plan.price),
      Stat(2, "Reserva y firma", plan.reservation + plan.signature),
      Stat(3, "En cuotas", plan.duringConstruction),
      Stat(4, "Contra entrega", plan.atDelivery) ]
  }

  /** The props the page passes to the schedule table. */
  function TableProps(plan: PaymentPlan): (props: ScheduleProps)
    ensures props.firstPaymentDate == plan.firstPaymentDate
    ensures props.frequencyLabel == plan.frequency
    ensures props.ceilingPayment == plan.deliveryDate
    ensures props.totalToPay == plan.duringConstruction
  {
    ScheduleProps(plan.firstPaymentDate, plan.frequency, plan.deliveryDate, plan.duringConstruction)
  }

  class PaymentBuilder {
    var paymentPlanValues: PaymentPlan

    constructor (today: Date)
      requires ValidDate(today)
      ensures paymentPlanValues == DefaultPlan(today)
    {
      paymentPlanValues := DefaultPlan(today);
    }

    /** `handlePaymentsChange`. */
    method HandlePaymentsChange(payments: seq<Payment>)
      modifies this
      ensures paymentPlanValues == WithPayments(old(paymentPlanValues), payments)
    {
      paymentPlanValues := WithPayments(paymentPlanValues, payments);
    }

    /** `exportValues`: the state becomes the given values. */
    method ExportValues(values: PaymentPlan)
      modifies this
      ensures paymentPlanValues == values
    {
      paymentPlanValues := values;
    }
  }

  /** The default plan: everything zero or empty, USD, quarterly, its shares
      consistent (10 = 5 + 5 and 10 + 40 + 50 = 100), its dates today, today + 1
      month (signature and last payment), today + 2 months (first payment) and
      today + 2 years (delivery), in that order; the last
      payment date therefore precedes the first. Validation reports the missing
      client. */
  lemma DefaultPlanFacts(today: Date)
    requires ValidDate(today)
    ensures var p := DefaultPlan(today);
      && p.price == 0.0 && p.reservation == 0.0 && p.signature == 0.0
      && p.duringConstruction == 0.0 && p.atDelivery == 0.0
      && p.client == "" && p.project == "" && p.unit == ""
      && p.currency == "USD" && p.frequency == "trimestral" && p.payments == []
      && p.reservationPercent == 5.0 && p.signaturePercent == 5.0
      && p.reservationSignatuerPercent == 10.0
      && p.duringConstructionPercent == 40.0 && p.atDeliveryPercent == 50.0
      && p.reservationSignatuerPercent == p.reservationPercent + p.signaturePercent
      && PercentSum(p) == 100.0
      && p.reservationDate == today
      && p.signatureDate == SetMonthPlus(today, 1) && p.lastPaymentDate == SetMonthPlus(today, 1)
      && p.firstPaymentDate == SetMonthPlus(today, 2) && p.deliveryDate == SetYearPlus(today, 2)
      && p.signatureDate == p.lastPaymentDate
      && Before(p.reservationDate, p.signatureDate)
      && Before(p.lastPaymentDate, p.firstPaymentDate)
      && Before(p.firstPaymentDate, p.deliveryDate)
      && Validate(p) == Fail(MissingClient)
  {
    var p := DefaultPlan(today);
    var one := SetMonthPlus(today, 1);
    var two := SetMonthPlus(today, 2);
    SetMonthPlusBounds(today, 1);
    SetMonthPlusBounds(today, 2);
    BeforeMonthIndex(today, one);
    BeforeMonthIndex(two, p.deliveryDate);
    LaterByTwoMonths(today);
  }

  /** `setMonth(getMonth() + k)` lands `k` months later, or on one of the first
      three days of the month after that. */
  lemma SetMonthPlusBounds(d: Date, k: int)
    requires ValidDate(d)
    ensures var r := SetMonthPlus(d, k);
      || (MonthIndex(r) == MonthIndex(d) + k && r.day == d.day)
      || (MonthIndex(r) == MonthIndex(d) + k + 1 && 1 <= r.day <= 3 && d.day > 28)
  {
  }

  lemma LaterByTwoMonths(today: Date)
    requires ValidDate(today)
    ensures Before(SetMonthPlus(today, 1), SetMonthPlus(today, 2))
  {
    var one := SetMonthPlus(today, 1);
    var two := SetMonthPlus(today, 2);
    SetMonthPlusBounds(today, 1);
    SetMonthPlusBounds(today, 2);
    BeforeMonthIndex(one, two);
  }

  /** Driven by a fresh page, an empty table produces a non-empty schedule from
      the first payment date, every date before delivery, and every amount 0
      (nothing is due in installments yet). */
  lemma DefaultPlanSchedule(today: Date)
    requires ValidDate(today)
    ensures var props := TableProps(DefaultPlan(today));
      var r := Generated([], props);
      && |r| > 0
      && r[0].date == DefaultPlan(today).firstPaymentDate
      && forall i :: 0 <= i < |r| ==>
           r[i].ordinary == 0.0 && r[i].extra == 0.0 && Before(r[i].date, DefaultPlan(today).deliveryDate)
  {
    var p := DefaultPlan(today);
    var props := TableProps(p);
    DefaultPlanFacts(today);
    GeneratedFresh([], props);
    var k := FrequencyMonths(props.frequencyLabel);
    ScheduleDatesShape(props.firstPaymentDate, k, props.ceilingPayment);
    var r := Generated([], props);
    assert Round2(0.0 / |r| as real) == 0.0 by {
      assert 0.0 / |r| as real == 0.0;
      assert Cents(0.0) == 0;
    }
  }
}
