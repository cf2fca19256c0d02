/** `validatePaymentConfiguration`: four checks in a fixed order, the first one
    that fails decides the outcome. The warning toast of the application becomes
    the returned reason; a plan that passes every check gives `Pass`. */
module Validation {
  import opened Dates
  import opened PlanTypes

  datatype Reason =
    | MissingClient               // "El nombre del cliente es obligatorio"
    | NonPositivePrice            // "El precio debe ser mayor que cero"
    | PercentOverflow             // "El monto a pagar supera el precio de cierre"
    | DeliveryBeforeLastPayment   // "La fecha de la última cuota debe ser previa a la fecha de entrega"

  datatype Verdict = Pass | Fail(reason: Reason)

  /** The three shares of the price that the plan asks for. */
  function PercentSum(plan: PaymentPlan): real {
    plan.reservationSignatuerPercent + plan.duringConstructionPercent + plan.atDeliveryPercent
  }

  function Validate(plan: PaymentPlan): (v: Verdict)
    ensures v == Fail(MissingClient) <==> plan.client == ""
    ensures v == Fail(NonPositivePrice) <==> plan.client != "" && plan.price <= 0.0
    ensures v == Fail(PercentOverflow) <==>
              plan.client != "" && plan.price > 0.0 && PercentSum(plan) > 100.0
    ensures v == Fail(DeliveryBeforeLastPayment) <==>
              plan.client != "" && plan.price > 0.0 && PercentSum(plan) <= 100.0
              && Before(plan.deliveryDate, plan.lastPaymentDate)
    ensures v == Pass <==>
              plan.client != "" && plan.price > 0.0 && PercentSum(plan) <= 100.0
              && !Before(plan.deliveryDate, plan.lastPaymentDate)
  {
    if plan.client == "" then Fail(MissingClient)
    else if plan.price <= 0.0 then Fail(NonPositivePrice)
    else if PercentSum(plan) > 100.0 then Fail(PercentOverflow)
    else if Before(plan.deliveryDate, plan.lastPaymentDate) then Fail(DeliveryBeforeLastPayment)
    else Pass
  }

  /** Only the four checked conditions matter: the individual percentages, the
      amounts, their signs and the schedule are never looked at. */
  lemma ValidateReadsOnlyCheckedFields(a: PaymentPlan, b: PaymentPlan)
    requires (a.client == "") == (b.client == "")
    requires a.price == b.price
    requires PercentSum(a) == PercentSum(b)
    requires a.deliveryDate == b.deliveryDate && a.lastPaymentDate == b.lastPaymentDate
    ensures Validate(a) == Validate(b)
  {
  }
}
