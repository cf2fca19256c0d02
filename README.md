# Payment-plan builder: a verified model of its arithmetic and rules

This project models the logic of a real-estate payment-plan builder: a web application in which a sales agent builds a payment plan for an apartment. The plan has a closing price, shares for reservation and signature, an "in installments" share and an "at delivery" share. The application then generates a dated schedule of installments. The model covers:

- **The schedule table** (`Schedule`): the frequency label becomes a number of months. Installments are generated from the first-payment date until an exclusive ceiling date (the delivery date), stepping with date-fns `addMonths`. What is due in installments is split evenly, rounded to the cent. The list is patched when one installment's extra amount or date is edited. The component's state `localPayments` is the field of the class `ScheduleTable`; `Generate`, `EditExtra` and `EditDate` are its methods.
- **The configuration validator** (`Validation`): four ordered checks. The first that fails is returned as a reason code; in the application it is shown as a warning toast.
- **The builder page** (`Builder`): the default plan relative to today, the "replace the payments only if they differ" state update, the whole-plan replacement through `exportValues`, the summary banner and the props given to the schedule table. The page state `paymentPlanValues` is the field of the class `PaymentBuilder`.
- **The persistence service** (`PlanService`): the field defaulting applied when a stored document is read, the `hasMore`/`lastDoc` rule of the listing, and the merge of the client and project searches with de-duplication and truncation. Query results are input sequences.
- **The project card** (`ProjectCard`): the keyword rule that picks an amenity icon, the first three amenities plus a "+N más" badge, the delivery-status label and the shortened description.

Supporting modules: `Dates` (calendar dates, date-fns `addMonths`, JavaScript `setMonth`/`setFullYear`, `isBefore`) and `PlanTypes` (the `PaymentPlan` and `Payment` records, cent rounding, footer totals). Money and percentages are exact reals. `toFixed(2)` becomes `Round2`: the nearest cent, with halves rounded away from zero.

Two facts about the program shape what is proved:

- The validator checks the client, the price, the percent sum and the dates, in that order. It has no negative-amount check, and the date check fails only when delivery is strictly before the last payment.
- Each installment is rounded to the cent on its own. So a schedule adds up to the amount to pay only within half a cent per installment (10 over 3 installments gives 9.99).

## Model

| member | source | states |
|---|---|---|
| `Schedule.FrequencyMonths` | app/payment-builder/payment-schedule-table.tsx:38-45 | mensual→1, bimestral→2, cuatrimestral→4, semestral→6; "trimestral" and every unknown label give 3 (both directions) |
| `Schedule.ExtraAmount` | app/payment-builder/payment-schedule-table.tsx:120 | unparseable input gives 0; a parsed number, negative included, is kept unclamped |
| `Schedule.ScheduleTable.constructor` | app/payment-builder/payment-schedule-table.tsx:35 | the local list starts empty |
| `Schedule.ScheduleTable.Generate` | app/payment-builder/payment-schedule-table.tsx:67-108 | the loop over `addMonths` dates leaves exactly `Generated(old list, props)` in `localPayments` |
| `Schedule.ScheduleDatesShape` | app/payment-builder/payment-schedule-table.tsx:73-88 | the dates start at the first payment date; each is `addMonths(previous, k)`; all lie before the ceiling; one more step would not; there are none exactly when the first date is not before the ceiling |
| `Schedule.ScheduleDatesIncrease` | app/payment-builder/payment-schedule-table.tsx:78-88 | generated dates strictly increase |
| `Schedule.ScheduleDates` | app/payment-builder/payment-schedule-table.tsx:78-88 | the dates the loop visits: none exactly when the first date is not before the ceiling, otherwise starting at the first date |
| `Schedule.Unpriced` | app/payment-builder/payment-schedule-table.tsx:79-84 | the pushed rows: one per visited date, in order, ids 1..n, both amounts 0 |
| `Schedule.Redistribute` | app/payment-builder/payment-schedule-table.tsx:96-102 | the same length; every row keeps its id, date and extra and gets the same ordinary part round2((total − Σextra) / n) |
| `Schedule.Generated` | app/payment-builder/payment-schedule-table.tsx:67-107 | a list that differs from the previous one is non-empty, starts at the first payment date, numbers its rows 1..n and has no extras |
| `Schedule.ExtraEdited` | app/payment-builder/payment-schedule-table.tsx:119-136 | an extra edit keeps the length and every row's id and date |
| `Schedule.DateEdited` | app/payment-builder/payment-schedule-table.tsx:111-116 | a date edit keeps the length and every row's id and amounts, and moves only the rows with the edited id to the new date |
| `Schedule.MonthEndDrift` | app/payment-builder/payment-schedule-table.tsx:86 | each step starts from the previous date, so a schedule from Jan 31 continues on Feb 29, Mar 29 |
| `Schedule.GeneratedKeepsPrevious` | app/payment-builder/payment-schedule-table.tsx:67-93 | the list is kept when it is non-empty and the total is 0, or when no date falls before the ceiling |
| `Schedule.GeneratedFresh` | app/payment-builder/payment-schedule-table.tsx:73-102 | otherwise: ids 1..n, the generated dates, the first one the first payment date, every extra 0, every ordinary round2(total / n) |
| `Schedule.GeneratedIdempotent` | app/payment-builder/payment-schedule-table.tsx:104-107 | generating again from the same props over the previous result gives the same list |
| `Schedule.RedistributedTotal` | app/payment-builder/payment-schedule-table.tsx:125-133 | after a fresh generation or an extra edit the grand total is within 0.005·n of the amount to pay |
| `Schedule.TenOverThree` | app/payment-builder/payment-schedule-table.tsx:95-102 | exact equality is not promised: 10 over 3 installments totals 9.99 |
| `Schedule.QuarterlyExample` | app/payment-builder/payment-schedule-table.tsx:73-102 | quarterly from 2024-01-01 to the ceiling 2024-10-01 with 9000: three installments of 3000 |
| `Schedule.ScheduleTable.EditExtra` | app/payment-builder/payment-schedule-table.tsx:119-136 | `localPayments` becomes `ExtraEdited(old list, id, value, total)` |
| `Schedule.ExtraEditedShape` | app/payment-builder/payment-schedule-table.tsx:119-136 | only the matching id's extra changes (to the parsed amount); ids, dates, order and length are kept; every ordinary becomes round2((total − Σextra) / n) |
| `Schedule.ExtraEditIdempotent` | app/payment-builder/payment-schedule-table.tsx:119-136 | the same extra edit applied twice equals applying it once |
| `Schedule.QuarterlyExtraExample` | app/payment-builder/payment-schedule-table.tsx:119-136 | an extra of 900 on installment 1 of 3×3000 sets every ordinary to 2700 |
| `Schedule.ScheduleTable.EditDate` | app/payment-builder/payment-schedule-table.tsx:111-116 | `localPayments` becomes `DateEdited(old list, id, date)` |
| `Schedule.DateEditedShape` | app/payment-builder/payment-schedule-table.tsx:111-116 | only the matching installment's date changes; ids, amounts, totals, order and length are kept |
| `Schedule.DateEditCanUnorder` | app/payment-builder/payment-schedule-table.tsx:111-116 | no re-sort follows an edit, so dates may stop increasing |
| `Schedule.DisplayPayments` | app/payment-builder/payment-schedule-table.tsx:139 | the table shows the local list, or the parent's list while the local one is empty |
| `PlanTypes.Round2` | app/payment-builder/payment-schedule-table.tsx:101 | nearest-cent rounding: within 0.005 of its argument, never negative for a non-negative argument |
| `PlanTypes.Round2WholeCents` | app/payment-builder/payment-schedule-table.tsx:101 | the rounded amount is a whole number of cents |
| `PlanTypes.TotalsSnoc` | app/payment-builder/payment-schedule-table.tsx:142-144 | the footer totals `TotalOrdinary`, `TotalExtra` and `GrandTotal` agree with the left-to-right `reduce` from 0: one more payment adds its parts |
| `PlanTypes.TotalsNonNegative` | app/payment-builder/payment-schedule-table.tsx:142-143 | the footer totals of non-negative parts are non-negative |
| `Dates.AddMonths` | app/payment-builder/payment-schedule-table.tsx:86 | `addMonths`: exactly k months later, the day kept or clamped to the last day of the target month, always a valid date |
| `Dates.SetMonthPlus` | app/payment-builder/page.tsx:33-35 | `setMonth(getMonth() + k)`: a valid date; when the day exists in the target month, exactly k months later on the same day; otherwise the surplus days overflow into the month after (Jan 31 + 1 → Mar 2 or Mar 3) |
| `Dates.SetYearPlus` | app/payment-builder/page.tsx:31 | `setFullYear(getFullYear() + k)`: the same month and day k years later whenever that date exists; only Feb 29 into a common year rolls over to Mar 1 |
| `Dates.AddMonthsIsLater` | app/payment-builder/payment-schedule-table.tsx:86 | adding k ≥ 1 months gives a strictly later date, which is why generation terminates |
| `Validation.Validate` | app/payment-builder/validate-payment-configuration.ts:4-38 | each failure exactly when the earlier checks pass and its own fails: empty client, then price ≤ 0, then percent sum > 100, then delivery strictly before the last payment; a pass exactly when all four hold (sum 100 and equal dates pass) |
| `Validation.ValidateReadsOnlyCheckedFields` | app/payment-builder/validate-payment-configuration.ts:4-38 | the outcome depends only on whether the client is empty, the price, the percent sum and the two dates; individual percents and amounts are never checked |
| `Builder.DefaultPlan` | app/payment-builder/page.tsx:16-38 | every default date is a valid calendar date, so the table can be driven from a fresh page |
| `Builder.PaymentBuilder.constructor` | app/payment-builder/page.tsx:16-38 | the page starts with the default plan for today |
| `Builder.DefaultPlanFacts` | app/payment-builder/page.tsx:16-38 | the defaults: zero price and amounts, empty names, USD, trimestral, no payments; reservation 5 %, signature 5 %, reservation and signature 10 % = 5 + 5, in installments 40 %, at delivery 50 %, summing to 100; reservation = today; signature and last payment = today + 1 month, first payment = today + 2 months, delivery = today + 2 years (with `setMonth`/`setFullYear` overflow); in that order: reservation before signature = last payment, before first payment, before delivery; validation reports the missing client |
| `Builder.LaterByTwoMonths` | app/payment-builder/page.tsx:33-35 | with `setMonth` overflow, today + 1 month is still before today + 2 months, so the default last payment date precedes the first |
| `Builder.WithPayments` | app/payment-builder/page.tsx:48-59 | an equal payment list returns the previous state itself; otherwise only `payments` changes |
| `Builder.PaymentBuilder.HandlePaymentsChange` | app/payment-builder/page.tsx:48-59 | the page state becomes `WithPayments(old state, payments)` |
| `Builder.PaymentBuilder.ExportValues` | app/payment-builder/page.tsx:62-64 | the page state is replaced by the given values |
| `Builder.BannerStats` | app/payment-builder/page.tsx:40-45 | four figures, ids 1..4: price, reservation + signature, in installments, at delivery |
| `Builder.TableProps` | app/payment-builder/page.tsx:95-102 | the table is driven by the first payment date, the frequency label, the delivery date as ceiling and the in-installments amount as total |
| `Builder.DefaultPlanSchedule` | app/payment-builder/page.tsx:95-102 | a fresh page drives an empty table to a non-empty schedule from the first payment date, all before delivery, every amount 0 |
| `PlanService.TextOr` | services/payment-plan-service.ts:93-96 | a missing or empty text field takes its default, any other value is kept |
| `PlanService.ConvertPayments` | services/payment-plan-service.ts:113-120 | same length and order; per element: a non-zero stored id is kept and a missing or 0 id becomes index + 1; a stored date is kept and a missing one becomes now; a stored amount is kept and a missing one becomes 0 |
| `PlanService.NumberOr0` | services/payment-plan-service.ts:97-106 | a stored number is kept, a missing one gives 0 |
| `PlanService.DateOrNow` | services/payment-plan-service.ts:88-89 | a stored timestamp is kept, a missing one gives now |
| `PlanService.Convert` | services/payment-plan-service.ts:84-92 | the converted plan carries the document's id (its fields are stated by `ConvertDefaults`) |
| `PlanService.ConvertDefaults` | services/payment-plan-service.ts:91-123 | field by field, both ways: a stored value is kept and a missing one (an empty one for text) takes its default; client, project and unit → "", currency → "USD", frequency → "trimestral", the four amounts, price and five percents → 0, the five plan dates and createdAt/updatedAt → now; a non-array payments field → [], an array is read by `ConvertPayments` |
| `PlanService.ConvertNormalizes` | services/payment-plan-service.ts:84-124 | every converted plan has a currency, a frequency and no zero installment id |
| `PlanService.ConvertRoundTrip` | services/payment-plan-service.ts:84-124 | a plan with a currency, a frequency and no zero id reads back unchanged from an idealised document holding its fields as they are |
| `PlanService.ConvertIdempotent` | services/payment-plan-service.ts:84-124 | reading a document that holds an already converted plan changes nothing |
| `PlanService.ConvertAll` | services/payment-plan-service.ts:222-225 | one converted plan per query document, in query order |
| `PlanService.GetPaymentPlans` | services/payment-plan-service.ts:219-231 | the plans are the converted documents in order; `lastDoc` is the last document or none; `hasMore` exactly when the page has `pageSize` plans |
| `PlanService.HasIdMeans` | services/payment-plan-service.ts:289 | `.some(plan => plan.id === id)` holds exactly when some client result has that id |
| `PlanService.Surviving` | services/payment-plan-service.ts:287-292 | no surviving project document has the id of a client result, and there are at most as many as project documents |
| `PlanService.SurvivingKeeps` | services/payment-plan-service.ts:287-292 | the filter keeps every project document whose id is no client result's, and keeps nothing that was not a project document |
| `PlanService.SearchResult` | services/payment-plan-service.ts:283-295 | at most maxResults plans: as many as the client results plus the surviving project results, capped at maxResults |
| `PlanService.SearchResultElements` | services/payment-plan-service.ts:283-295 | the client results first, then the converted surviving project documents, both in query order |
| `PlanService.SearchPaymentPlans` | services/payment-plan-service.ts:279-295 | the two loops and the slice return exactly `SearchResult` of the two query results |
| `PlanService.SearchResultShape` | services/payment-plan-service.ts:283-295 | at most maxResults plans; client results first in query order; then only project results whose id is no client document's id, in query order |
| `ProjectCard.AmenityIcon` | components/projects-ui/project-card.tsx:21-37 | on the lower-cased name: "gimnasio" → dumbbell; otherwise "piscina" → pool; otherwise social/comunidad/eventos/lounge → people; otherwise building (each case both directions) |
| `ProjectCard.IncludesMeans` | components/projects-ui/project-card.tsx:23-31 | `includes` holds exactly when the keyword starts at some position of the text |
| `ProjectCard.Lower` | components/projects-ui/project-card.tsx:22 | `toLowerCase` on ASCII: the same length, each upper-case letter mapped to its lower-case letter, every other character kept |
| `ProjectCard.AmenityIconIgnoresCase` | components/projects-ui/project-card.tsx:22 | the icon does not depend on letter case |
| `ProjectCard.GymComesFirst` | components/projects-ui/project-card.tsx:22-24 | "Gimnasio y Piscina" gets the dumbbell although it also names the pool |
| `ProjectCard.AmenityChips` | components/projects-ui/project-card.tsx:86-99 | no amenities list shows nothing; otherwise the first min(n, 3) amenities in order, each with its icon |
| `ProjectCard.OverflowBadge` | components/projects-ui/project-card.tsx:100-106 | the badge appears exactly when there are more than 3 amenities, and counts n − 3 of them |
| `ProjectCard.ChipsAndBadgeCoverAll` | components/projects-ui/project-card.tsx:88-105 | chips shown plus the badge count equal the number of amenities |
| `ProjectCard.DeliveryStatus` | components/projects-ui/project-card.tsx:72-82 | "Listo" exactly when condicion is "Listo"; anything else, absent included, reads "En Construcción" |
| `ProjectCard.Footer` | components/projects-ui/project-card.tsx:112 | the first min(n, 100) characters of the description followed by "..." |

## Left out

- Reactive synchronisation between the table's local list and the page's list (the `useEffect` hooks of the table) is left out, and so is what triggers generation. Generation and edits are explicit calls here.
- Time of day is not modelled: dates are whole days. JavaScript compares instants, so a first payment date and a ceiling on the same day but at different times are not modelled.
- "Today" and "now" are parameters. The page reads the clock twice for each shifted date (app/payment-builder/page.tsx:31, 33-35) and the service once per missing date field; the model reads it once, so a month or year boundary passing between two reads is not modelled.
- `toFixed(2)` and `parseFloat` are abstracted. Amounts are exact reals, with no binary floating point, no `NaN` and no infinity. Parsing becomes "a number or invalid", and a parsed 0 is the same as the fallback 0.
- `Schedule.FrequencyMonths`: a label naming a built-in object property (such as "constructor") would yield a function in the source rather than 3. This is not modelled.
- `PlanService`: documents are typed records. A field holding a value of the wrong type (a number where text is expected) or a null payment entry is not modelled. A falsy number other than 0 (`NaN`) is not modelled either.
- The desired-installment dialog (app/payment-builder/dialog-cuota-deseada.tsx:8-25) only renders a trigger and its children; there is no computation in it to model.
- Default arguments become plain parameters: `pageSize = 10` (services/payment-plan-service.ts:187), `maxResults = 10` (services/payment-plan-service.ts:253) and the table's default props (app/payment-builder/payment-schedule-table.tsx:27-32). The page passes every prop, so no behaviour is lost.
- Store I/O is not modelled: saving, updating, reading by id, deleting, query construction with prefix ranges and ordering, the realtime subscription hook, and preparing a plan for the store (it stamps the clock into every date).
- The report download and trigger routes are not modelled (network and timers), and neither are the maps and distance calculation (floating-point trigonometry and a foreign library).
- Number and date formatting is not modelled, nor the percent ×100 displays, nor components without rules (layouts, dialogs, inputs, the plans table with its paging).
- `ProjectCard.Lower`: only ASCII letters are lower-cased. `toLowerCase` also lower-cases other letters, which does not change any keyword match unless a non-ASCII letter lower-cases to an ASCII one. Characters are counted as code points, not UTF-16 units.
