# restiq ledger: a verified model

This project models the money path of the restiq restaurant backend and proves what it promises about
money, bill numbers, kitchen tickets and menus. It covers the services that price an order, tax it, split
it between guests, take payments, settle it and refund it, together with the guest cart in front of them
and the reports behind them.

The whole store is a state machine. A `Tab` is one order with its lines, kitchen tickets, bill and the
bill's tenders, payment intents, guest shares and credit notes. A `Db` holds every tab of a tenant, the
outlets' bill-number counters and the clock. Each database transaction of the services is one function
from a tab to a new tab or a refusal (`Tabs.Apply`, `Tabs.Place`), and `Ledger.Run` runs any sequence of
them. `Ledger.DbOk` is kept by every step, so the statements in `Theorems`, `GuestBilling`, `GuestSplits`,
`Captures` and `Recalls` hold in every state any interleaving of staff, guests and card captures can reach.

| Part | Modules |
|---|---|
| Arithmetic | `Rounding`, `Tax`, `Allocation` |
| Order lines, invoice, kitchen | `Orders`, `Invoice`, `Kitchen`, `TicketRouting`, `OrderStatus`, `Recalls` |
| Bill rows and their rules | `Bills`, `Payments`, `Shares`, `ShareAmounts`, `Settlement`, `Refunds` |
| What each transaction does, and when | `OrderEffects`, `Finalising`, `GuestPayments`, `RefundRequests`, `CartEffects` |
| Transactions, invariant, runs | `Tabs`, `TabInvariant`, `Ledger`, `Theorems`, `GuestBilling`, `GuestSplits`, `Captures` |
| The services' loops and the tables | `RefundService`, `Transactions`, `Store`, `Reports` |
| Menu, cart, placement | `Pricing`, `Combos`, `Cart`, `Checkout` |
| Stand-alone refinements | `Csv`, `Paging`, `AttemptLimiter` |

Functions say what a transaction does. Lemmas named `Exact` or `Iff` pin them down without naming the steps: exactly
which requests are accepted, and exactly what the rows are afterwards. Where the service works step by step, a method with the same loops
is proved to compute exactly that function (`Transactions`, `RefundService`, `Settlement`, `Shares`,
`Kitchen`, `Cart`, `Combos`), and the classes `Store.Tables`, `Cart.TableCart` and
`AttemptLimiter.Limiter` update their fields in place. `Store.Tables` carries a ghost history whose replay
is its contents, so every theorem about reachable states is a theorem about the object.

Modelling decisions:

- A transaction is one atomic step that commits or changes nothing. The bill-writing services take the
  bill's row lock; `addLine` and the other order-line services do not, so for them atomicity is an
  assumption about the isolation the database gives.
- Prices, modifiers, upcharges and percentages are non-negative; a rate is an integer number of basis
  points from 0 to 10000; quantities are at least one. These are the request validators' rules.
- Times are natural numbers and each event says how much time passed, so the clock never goes back.
- The tenant's country is fixed for a store. The registration, the payments simulator and the stations are
  read afresh by every transaction and may change between any two.
- An intent or ticket is named by its position in its list, a line by a number that is never reused; rows
  read in creation order are read in list order.
- Manager approval, an open shift, an active session and a provider's answer are parameters of the
  transaction that depends on them.
- An item without a current price shows as free in the cart and cannot be placed, as in the code.

Where the code and its own words differ, the model follows the code:

- The attempt limiter is described as a maximum per window. A refund that arrives after its window ended
  lets one attempt more through: `AttemptLimiter.WrongAttemptsBounded` is the bound that does hold and
  `AttemptLimiter.BoundIsReached` reaches it under every rule, for any number of late refunds.
- The comment at src/kitchen/tickets.service.ts:139-142 takes a queued ticket with a recall count above zero to
  be in the queue because of a recall. A refire puts a bumped ticket back too, so it can be wrong
  (`Recalls.MarkerIsWrong`); `Recalls.MarkerTrueIff` says for every reachable ticket exactly when it is right.

## Model

| member | source | states |
|---|---|---|
| `Theorems.FinalisedBillsBalance` | src/pos/bills/bill-core.ts:394-493 | In every reachable state a finalised bill's tenders are its total plus its stored round-off; the round-off is non-zero, lies in (-unit/2, unit/2] and exists only when the cash is a positive multiple of the cash unit |
| `Theorems.SettlementIsFinal` | src/pos/bills/bill-core.ts:464-493 | Over every later run a finalised bill keeps its lines, tenders, amounts, number and round-off; only credit notes are appended and intents flagged |
| `Theorems.BillNumbersGapless` | src/pos/bills/bill-core.ts:456-466 | In every reachable state an outlet's finalised bills carry exactly the numbers 1 to its counter, each on one bill |
| `Theorems.RefusedReservesNothing` | src/pos/bills/bill-core.ts:456-491 | A transaction that leaves the orders alone leaves the counters alone; one that moves a counter finalised exactly one bill under the new number |
| `Theorems.RefundsNeverExceedPayment` | src/pos/bills/bills.service.ts:449-465 | In every reachable state a bill's credit notes sum to the rounded-down proration of the refunded gross, for subtotal and tax; they never exceed the billed total and equal it once every unit is back |
| `Theorems.CapturesAccountedFor` | src/pos/payments/intent-core.ts:58-101 | In every reachable state a succeeded intent has exactly one tender of its own amount and rail, or none and the late-capture flag on a finalised bill; captured money is electronic tenders plus captures due back |
| `Theorems.RefundedUnitsCapped` | src/pos/bills/bills.service.ts:397-474 | In every reachable state no billed line is refunded past its quantity, a pick's refunded units are in its combo's ratio, and each note's line amounts are non-negative and sum to its subtotal |
| `Captures.CaptureIsFinal` | src/pos/payments/intent-core.ts:58-125 | After every later run a succeeded intent and its number of tenders are as they were, and confirming it again changes nothing |
| `Theorems.KitchenHasEveryLineOnce` | src/kitchen/tickets.service.ts:157-191 | In every reachable state each line is on at most one ticket line, which agrees with it in quantity and voiding; combos are on none; once the bill is final every billed item is on exactly one |
| `Theorems.TicketsReplay` | src/kitchen/tickets.service.ts:209-261 | In every reachable state a ticket's status and recall count are its event log replayed from queued, a bumped ticket has a bump time, and its batches are exactly 0 to the largest |
| `Theorems.StepperAlwaysDefined` | src/guest/orders/orders.service.ts:97-113 | Every reachable order has a stepper; it says ready exactly when all tickets are bumped and its reached times are in order |
| `Theorems.InvoicesAddUp` | src/pos/bills/bill-core.ts:584-606 | Every reachable order's invoice lines add up to its subtotal, and each printed unit price times its quantity is its line total |
| `Ledger.StepOk` | src/pos/bills/bill-core.ts:394-525 | Every transaction, committed or refused, keeps the store's invariant |
| `Ledger.RunOk` | src/pos/bills/bill-core.ts:394-525 | Every run of transactions keeps the store's invariant |
| `Ledger.ApplyKeeps` | src/pos/bills/bill-core.ts:464-493 | No transaction changes an order's outlet, country or creation time, nor a finalised bill's settlement; the one that finalises stores the number it was given |
| `TabInvariant.ApplyOk` | src/pos/orders/order-lines.service.ts:174-337 | Every transaction on an order keeps its lines, tickets, bill, tenders, intents, shares and credit notes consistent |
| `TabInvariant.PlaceOk` | src/guest/orders/orders.service.ts:183-295 | An order placed by guests is consistent, has no bill, and its items are all in the kitchen |
| `TabInvariant.VoidLineOk` | src/pos/orders/order-lines.service.ts:315-337 | After a void the order's lines and the kitchen's tickets still agree |
| `TabInvariant.PayShareOk` | src/guest/bills/bills.service.ts:174-220 | Paying a share, also the last one, keeps the order consistent |
| `TabInvariant.PayAllOk` | src/guest/bills/bills.service.ts:229-305 | Paying the whole bill by UPI or the kiosk's card keeps the order consistent |
| `TabInvariant.KioskCardOk` | src/guest/bills/bills.service.ts:283-305 | A kiosk card payment adds one succeeded intent and one tender of exactly the total that names it, and touches no cash |
| `TabInvariant.FinalizeOk` | src/pos/bills/bills.service.ts:276-352 | A staff finalise leaves the bill finalised under the given number, the order closed with its lines as they were, and every billed item in the kitchen |
| `TabInvariant.RefundBillOk` | src/pos/bills/bills.service.ts:360-514 | A refund keeps the order consistent |
| `GuestBilling.PaymentsProtectSubtotal` | src/pos/orders/order-lines.service.ts:142-161 | While a bill has a tender, an active intent or a paid share, no transaction lowers its order's subtotal |
| `GuestBilling.ProtectedRun` | src/pos/orders/order-lines.service.ts:247-337 | While payments stay on a bill, no run lowers its subtotal or, under any registration, its payable total |
| `GuestBilling.TenderProtectsForever` | src/pos/orders/order-lines.service.ts:142-161 | Once a tender is on a bill no run ever removes it or lowers the order's subtotal |
| `GuestBilling.RunPaidWithin` | src/guest/bills/bills.service.ts:316-354 | In every run under one registration guests have paid no more than their bill's current total |
| `GuestBilling.GuestReadRefusedIff` | src/guest/bills/bills.service.ts:336-341 | In every run under one registration a guest's read of an open bill is refused exactly when something is owed and there is neither a share nor a guest's line to carry it, so never for a negative due |
| `GuestBilling.LastShareFinalizesIff` | src/guest/bills/bills.service.ts:174-220 | Paying the last open share finalises the bill, with no round-off, exactly when no intent is waiting and no card capture is on the bill |
| `GuestBilling.CompletesIff` | src/guest/bills/bills.service.ts:373-379 | A fully paid guest bill commits exactly when no intent is waiting and nothing was captured besides |
| `GuestSplits.EveryShareSettles` | src/guest/bills/bills.service.ts:174-220 | However many guests owe and in whatever order they pay, once each has paid the bill is settled under the next number exactly when no intent waits at the end and no capture is on the bill |
| `GuestSplits.EarlierPayment` | src/guest/bills/bills.service.ts:174-220 | While another guest owes too, a guest who owes can always pay, then no longer owes, and the others still do |
| `RefundRequests.RefundBillExact` | src/pos/bills/bills.service.ts:360-514 | A refund of named lines goes through exactly when the bill is finalised, something is named, only top lines of the bill are, no more than the units left of each, and a manager approves; it then appends one note and changes nothing else |
| `RefundRequests.RequestTakesExactly` | src/pos/bills/bills.service.ts:397-447 | The note takes exactly the units named of each top line, each named combo's picks in the combo's ratio, at full unit price, and no other line |
| `RefundRequests.RequestAcceptedIff` | src/pos/bills/bills.service.ts:397-437 | The lines part of that condition, for every request including repeated lines and combos |
| `Refunds.ProrateFloor` | src/pos/bills/bills.service.ts:458-460 | Proration is the whole number at or just below the exact share |
| `GuestPayments.PayShareExact` | src/guest/bills/bills.service.ts:174-220 | A guest without an open share is refused, a failed payment writes nothing, and a successful one that leaves another share open writes exactly one tender of that share |
| `GuestPayments.PayAllExact` | src/guest/bills/bills.service.ts:229-305 | Paying the whole bill is refused once a share is paid, writes nothing when it fails, and succeeds exactly when no intent waits, nothing was captured and, on the kiosk, no intent is active; it then settles with one tender of exactly the total that pays every share |
| `GuestPayments.GuestPayableExact` | src/guest/bills/bills.service.ts:174-195 | A payment can start exactly while the simulator and the session are on, the bill is open and its total can be cut |
| `Refunds.RefundOk` | src/pos/bills/bills.service.ts:381-474 | Every accepted refund, with repeated lines and combos, keeps per-line caps, combo ratios, cumulative proration and exact line amounts |
| `Refunds.RefundsWithinBill` | src/pos/bills/bills.service.ts:449-465 | The notes' subtotals and taxes never exceed the billed net and tax, and equal them once every unit is refunded, in any order and split |
| `Refunds.RefundAllReturnsRest` | src/pos/bills/bills.service.ts:397-404 | A whole-bill refund is accepted exactly while a unit remains, and leaves none |
| `Refunds.NoteForTelescopes` | src/pos/bills/bills.service.ts:460-465 | Each note is the difference of two cumulative prorations; the zero guard never acts |
| `Refunds.NoteForExact` | src/pos/bills/bills.service.ts:467-474 | A note's line amounts are non-negative and sum exactly to its subtotal |
| `Refunds.GrossWithinSubtotal` | src/pos/bills/bills.service.ts:389-396 | The refunded gross never exceeds the subtotal and equals it once every unit is back |
| `Refunds.TakeUnits` | src/pos/bills/bills.service.ts:423-447 | No line is refunded past its quantity, however often a request names it |
| `Refunds.RatioKept` | src/pos/bills/bills.service.ts:406-421 | A combo pick's refunded units stay in the combo's ratio to the parent's |
| `RefundService.PriorUnits` | src/pos/bills/bills.service.ts:384-395 | The loop over earlier notes gives each line's refunded units and the refunded gross |
| `RefundService.ExpandCombos` | src/pos/bills/bills.service.ts:406-421 | The expansion loop brings a named combo's picks along and refuses a pick named alone |
| `RefundService.TakeTargets` | src/pos/bills/bills.service.ts:423-447 | The checking loop takes exactly the targets the specification takes, with their gross |
| `RefundService.PriceNote` | src/pos/bills/bills.service.ts:458-474 | The pricing steps produce the specified note |
| `RefundService.MakeNote` | src/pos/bills/bills.service.ts:381-474 | The refund transaction's loops compute the specified note or refusal |
| `Allocation.AllocateSumsExactly` | src/guest/bills/bills.service.ts:342-353 | Cutting an amount across weights drops and invents nothing |
| `Allocation.AllocateFair` | src/pos/bills/bills.service.ts:467-474 | Every part is non-negative and the rounded-down share of its weight; the last takes at most one unit per other part more |
| `Allocation.AllocateInOrder` | src/guest/bills/bills.service.ts:342-353 | The allocation loop computes that cut |
| `Finalising.FinalizeExact` | src/pos/bills/bills.service.ts:276-352 | A staff finalise of an open bill goes through exactly when a discount over a fifth is approved, cash has a shift, every entry is manual, no intent waits, no simulated payment counts with the simulator off, the discount is within the subtotal and the tenders settle the discounted total; it then stores that discount, the tax and total computed on the discounted value, and the old tenders followed by one row per entry |
| `Finalising.CommitExact` | src/pos/bills/bill-core.ts:394-493 | The commit part of that: exactly when, and exactly which tax, total, round-off, number and time are stored |
| `Finalising.TenderCheckSettles` | src/pos/bills/bill-core.ts:437-459 | Tenders settle a total exactly when they equal it, or the cash is a positive multiple of 100 paise or 5 cents and off by at most half of that |
| `Finalising.WriteTendersIff` | src/pos/bills/bills.service.ts:315-331 | The entries are written, one row each in order, exactly when all are manual and only cash records at least its amount as handed over |
| `Finalising.GateIff` | src/pos/bills/bills.service.ts:292-313 | The gates pass exactly when a discount over a fifth of the subtotal is approved and cash has an open shift |
| `Settlement.CashRoundOffExact` | src/pos/bills/bill-core.ts:541-545 | The round-off brings the due to the nearest multiple of the cash unit, halves up |
| `Settlement.TenderCheckIff` | src/pos/bills/bill-core.ts:437-454 | Tenders settle a total exactly when they equal it, or there is cash, the rounding moves it and they equal the rounded total |
| `Settlement.TenderCheckCovers` | src/pos/bills/bill-core.ts:437-454 | Accepted tenders are the total plus the stored round-off, which is a rounding of the cash part |
| `Settlement.CommitSettles` | src/pos/bills/bill-core.ts:394-493 | A committed bill is settled: numbered, discounted within its subtotal and covered by its tenders |
| `Settlement.DiscountedTotal` | src/pos/bills/bill-core.ts:426-436 | The total settled under a discount is the one computed from scratch, also on a row whose inclusion flag is stale |
| `Settlement.CommitFinalize` | src/pos/bills/bill-core.ts:394-493 | The commit's steps compute the specified bill or refusal |
| `Settlement.InsertTenders` | src/pos/bills/bills.service.ts:315-331 | The loop writes the requested tenders in order or refuses |
| `ShareAmounts.SyncCutsByOrder` | src/guest/bills/bills.service.ts:342-353 | Every open share but the last is exactly what is due times the guest's own unvoided lines over those of all guests with an open share, rounded down, or nothing when those come to nothing; together the open shares are exactly what is due |
| `ShareAmounts.LastTakesRest` | src/guest/bills/bills.service.ts:347-348 | So the last open share is what the others leave |
| `Shares.SyncExact` | src/guest/bills/bills.service.ts:316-354 | After a sync every share is non-negative, paid ones are untouched, exactly the guests who had a share or have a line have one, and together they are exactly the total |
| `Shares.SyncRefusedIff` | src/guest/bills/bills.service.ts:336-341 | A sync is refused exactly when more was paid than is owed, or something is owed and no share can take it |
| `Shares.SyncShares` | src/guest/bills/bills.service.ts:316-354 | The weight map, the new rows and the allocation loop compute the specified shares |
| `Shares.WeighGuests` | src/guest/bills/bills.service.ts:317-335 | The loop over the lines gives every guest's weight |
| `Payments.ConfirmOk` | src/pos/payments/intent-core.ts:58-101 | A capture of an active or expired intent lands once: on an open bill as exactly one tender of its amount and rail, on a settled one as the refund-due flag and no tender; any other intent, and the other intents, stay as they are |
| `Payments.ConfirmIdempotent` | src/pos/payments/intent-core.ts:65-70 | Confirming again changes nothing |
| `Payments.FailOk` | src/pos/payments/intent-core.ts:104-110 | A decline changes no tender and no succeeded or other intent, and leaves the intent inactive |
| `Payments.ExpireOk` | src/pos/payments/intent-core.ts:118-125 | Lazy expiry changes no tender and no succeeded or other intent, and leaves no overdue intent active |
| `Payments.CancelOk` | src/pos/payments/intents.service.ts:151-166 | A cancellation changes no tender and no succeeded or other intent and leaves the intent inactive; a succeeded one refuses it |
| `Payments.CreateIntentOk` | src/pos/payments/intents.service.ts:52-139 | A new intent is the only active one, writes no tender and never asks for more than is still due |
| `Bills.RefreshTotalIff` | src/pos/bills/bill-core.ts:281-296 | A refreshed open bill's total is the one computed from scratch exactly when the subtotal, the tax or the split rule moved, the tax is nil or the inclusion flag is current |
| `Bills.RefreshTotal` | src/pos/bills/bill-core.ts:281-296 | Within one country the refreshed total is always the one computed from scratch, whatever lines or registration changed |
| `Tax.BreakdownSumsToTax` | src/pos/bills/tax.ts:76-131 | The printed tax lines add up to the tax, for every profile and rate |
| `Tax.ExactSplitEqualsIgst` | src/pos/bills/tax.ts:92-106 | The exact-total split charges what IGST would, its halves at most one apart |
| `Tax.EqualHalvesNearIgst` | src/pos/bills/tax.ts:92-111 | The equal-half splits differ from IGST by at most one minor unit |
| `Tax.IndianTax` | src/pos/bills/tax.ts:72-119 | A composition tenant charges nothing; a profile naming IGST in any case charges the configured rate, five per cent by default, to the nearest unit on one line; any other charges it as CGST and SGST, each by its rounding rule |
| `Tax.TotalIs` | src/pos/bills/bill-core.ts:134-136 | Indian tax comes on top of the taxable value; an Australian price already is the total |
| `Tax.AuGstShare` | src/pos/bills/tax.ts:121-130 | An unregistered Australian tenant charges nothing; a registered one charges the configured rate, ten per cent by default, inside the price: the ex-tax part is the nearest, ties away from zero, and the tax its share to within half a unit of the divisor |
| `Tax.TaxMonotone` | src/pos/bills/tax.ts:76-131 | A larger taxable value never lowers the tax |
| `Tax.TotalMonotone` | src/pos/bills/bill-core.ts:134-136 | A larger subtotal never lowers the payable total |
| `Tax.DiscountNeverRaises` | src/pos/bills/bill-core.ts:426-436 | A larger discount raises neither the tax nor the payable total |
| `Rounding.RoundHalfUpNearest` | src/pos/bills/tax.ts:50-54 | Half-up rounding gives a nearest integer with ties away from zero |
| `Rounding.RoundHalfUpUnique` | src/pos/bills/tax.ts:50-54 | It is the only such integer |
| `Rounding.RoundHalfEvenNearest` | src/pos/bills/tax.ts:56-62 | Half-even rounding gives a nearest integer, even on ties |
| `Rounding.RoundHalfEvenUnique` | src/pos/bills/tax.ts:56-62 | It is the only such integer |
| `OrderEffects.VoidLineExact` | src/pos/orders/order-lines.service.ts:315-337 | A void is accepted exactly for a sent, unpaid top line with approval; it voids the line and its picks in place, strikes exactly their ticket lines, and takes exactly their price off the subtotal |
| `OrderEffects.UpdateExact` | src/pos/orders/order-lines.service.ts:247-288 | An edit is accepted exactly for an unsent plain line, and under payment only if nothing gets cheaper; the line gets exactly the quantity and modifiers asked for and nothing else changes |
| `OrderEffects.RemoveLineExact` | src/pos/orders/order-lines.service.ts:290-313 | A removal is accepted exactly for an unsent, unpaid top line; the line and its picks go, with exactly their price |
| `OrderEffects.AddExact` | src/pos/orders/order-lines.service.ts:174-245 | Adding is refused exactly on a closed order; it appends exactly the item's lines, a combo's picks per combo times the combos, and raises the subtotal by exactly its price |
| `OrderEffects.MoneyOnIff` | src/pos/orders/order-lines.service.ts:142-161 | Payments protect a bill exactly while a tender, a created or pending intent or a paid share is on it |
| `OrderEffects.UnitAddsModifiers` | src/pos/bills/bill-core.ts:204-213 | A unit costs its price, and each modifier adds its own price to it; a voided line is billed nothing |
| `OrderEffects.SendExact` | src/pos/orders/orders.service.ts:322-364 | A send is accepted exactly on an open order or a sent one with something the kitchen lacks; every billed item is then in the kitchen and nothing but the tickets and the state changed |
| `OrderEffects.DiscardExact` | src/pos/orders/orders.service.ts:370-399 | An order is thrown away exactly when nothing on it is billed and its bill is open without tenders, intents or shares |
| `OrderEffects.CreateBillExact` | src/pos/bills/bill-core.ts:298-340 | A bill is created with exactly the subtotal, tax and total of the order's lines and nothing paid; a second call returns the first one, brought up to date while open and untouched once settled |
| `OrderEffects.GuestReadExact` | src/guest/bills/bills.service.ts:125-151 | A guest's read brings an open bill up to date and cuts its total across the guests by what they ordered, with no money moved |
| `OrderEffects.CreateIntentExact` | src/pos/payments/intents.service.ts:52-139 | An intent is raised exactly within what is still due, on a terminal, with none still waiting; it is pending on the card terminal for five minutes |
| `OrderEffects.RaiseIntentExact` | src/pos/payments/intents.service.ts:52-139 | The same for staff, within what is due of the total as the lines stand now |
| `OrderEffects.ReadBillExact` | src/pos/bills/bills.service.ts:128-143 | A read brings an open bill up to date and changes nothing else |
| `OrderEffects.ActExact` | src/kitchen/tickets.service.ts:209-261 | A bump needs a queued ticket and a recall one bumped at most twelve hours ago; each action logs its own event and changes exactly its own fields |
| `Orders.AddItemTotal` | src/pos/orders/order-lines.service.ts:174-245 | Adding an item or a combo raises the subtotal by exactly its price |
| `Orders.AddItemOk` | src/pos/orders/order-lines.service.ts:224-245 | New lines keep ids distinct, every pick beside its combo and its quantity a whole multiple |
| `Orders.EditOk` | src/pos/orders/order-lines.service.ts:247-288 | Editing a plain line keeps the order's lines well formed |
| `Orders.RemoveOk` | src/pos/orders/order-lines.service.ts:290-313 | Removing a line removes exactly it and its picks |
| `Orders.VoidOk` | src/pos/orders/order-lines.service.ts:315-337 | Voiding a top line voids its picks with it and keeps the lines well formed |
| `Invoice.PrintedExact` | src/pos/bills/bill-core.ts:584-606 | Every printed unit price times its quantity is its line total, with no remainder |
| `Invoice.InvoiceSumsToSubtotal` | src/pos/bills/bill-core.ts:584-606 | The printed line totals add up to the subtotal |
| `Kitchen.RouteStaysAtOutlet` | src/kitchen/tickets.service.ts:46-62 | A line goes to a live station of its own outlet, and is unrouted exactly when there is none |
| `TicketRouting.OwnStationFirst` | src/kitchen/tickets.service.ts:46-62 | An item's own station wins while it is live at the outlet |
| `TicketRouting.TwinStationSecond` | src/kitchen/tickets.service.ts:46-62 | Otherwise the outlet's first live station of the same name takes it |
| `TicketRouting.DefaultStationLast` | src/kitchen/tickets.service.ts:46-62 | An item without a station, or whose station has no namesake there, goes to the outlet's first live station |
| `TicketRouting.SendPutsEveryLine` | src/kitchen/tickets.service.ts:157-191 | A send puts every line the kitchen lacked on a ticket of its routed station, behind the lines of the station's latest ticket when that is queued and on a new one exactly when it is not; old tickets only grow and no station gets two new ones |
| `Kitchen.FireOnSendOk` | src/kitchen/tickets.service.ts:157-191 | After a send every billed item is on exactly one ticket line and nothing else changed |
| `Kitchen.FireOnSendCount` | src/kitchen/tickets.service.ts:157-191 | One send adds each unfired line once and leaves the others' counts alone |
| `Kitchen.BatchesExact` | src/kitchen/tickets.service.ts:170-188 | A ticket's batch numbers are exactly 0 to its largest |
| `Kitchen.GroupByStation` | src/kitchen/tickets.service.ts:160-169 | The grouping loop fills the map with each station's lines, stations in order of first appearance |
| `Kitchen.Fire` | src/kitchen/tickets.service.ts:157-191 | The firing loops write the specified tickets and count the lines fired |
| `Kitchen.ActOk` | src/kitchen/tickets.service.ts:209-261 | Bump, recall and refire keep the ticket's lines, append to its log and leave status and recall count as the log replays |
| `Recalls.MarkerTrueIff` | src/kitchen/tickets.service.ts:139-142 | In every reachable state a ticket marked recalled was put back by a recall exactly when the first recall or refire after its last bump is a recall |
| `Recalls.RecalledIsMarked` | src/kitchen/tickets.service.ts:139-142 | In every reachable state a queued ticket that a recall put back is marked |
| `Recalls.RefiredIsMarkedToo` | src/kitchen/tickets.service.ts:224-261 | From every state, bumping, recalling, bumping and refiring a queued ticket leaves it marked recalled although a refire put it back |
| `Recalls.MarkerIsWrong` | src/kitchen/tickets.service.ts:139-142 | Such a ticket is reachable |
| `OrderStatus.StepperTruthful` | src/guest/orders/orders.service.ts:97-113 | The stepper's stage and times say exactly what the tickets show |
| `Transactions.ComputeSubtotal` | src/pos/bills/bill-core.ts:204-213 | The loop gives the sum of the billed lines |
| `Transactions.RefreshOpenBill` | src/pos/bills/bill-core.ts:281-296 | The refresh steps compute the specified row |
| `Transactions.InsertLines` | src/pos/orders/order-lines.service.ts:174-245 | The line and its picks are written in order under fresh ids |
| `Transactions.PlaceCart` | src/guest/orders/orders.service.ts:183-295 | The placement loop writes every line and fires them all |
| `Transactions.ReadGuestBill` | src/guest/bills/bills.service.ts:125-151 | A guest's read refreshes an open bill and syncs its shares |
| `Transactions.FinalizeBill` | src/pos/bills/bills.service.ts:276-352 | Refresh, gates, tenders and commit compute the specified order or refusal |
| `Transactions.PayGuestShare` | src/guest/bills/bills.service.ts:174-220 | The share payment's steps compute the specified order or refusal |
| `Transactions.PayWholeBill` | src/guest/bills/bills.service.ts:229-281 | The whole-bill payment's steps compute the specified order or refusal |
| `Store.Tables.Execute` | src/pos/bills/bill-core.ts:461-525 | Running a transaction on the tables commits its rows and counter together or changes only the time, and stays a run of the ledger |
| `Store.Tables.PlaceGuestOrder` | src/guest/orders/orders.service.ts:126-305 | Placing an order inserts it under a fresh id, or refuses an empty cart |
| `Store.Tables.Commit` | src/pos/bills/bill-core.ts:461-493 | The counter moves only together with the bill it numbers |
| `Store.TablesAreReachable` | src/pos/bills/bill-core.ts:394-525 | Whatever was run on the tables, their rows are a reachable, consistent state |
| `Reports.TotalsFor` | src/admin/reports/reports.service.ts:281-322 | Every report total is the sum over the selected bills |
| `Reports.TotalsAddBill` | src/admin/reports/reports.service.ts:281-322 | One more bill adds exactly its own stored figures to the totals |
| `Reports.ReportBalances` | src/admin/reports/reports.service.ts:281-322 | Over any selection of finalised bills tendered is total plus round-off, and refunded lies between nothing and the total |
| `Paging.PageIsSlice` | src/admin/reports/reports.service.ts:331-357 | A page is the next rows of the ordered list, with a cursor exactly when more follow |
| `Paging.FollowCursors` | src/admin/reports/reports.service.ts:331-357 | Following the cursors ends and lists every row exactly once, newest first, for every limit |
| `Pricing.PickIsMaximal` | src/admin/menu/pricing.ts:40-66 | The picked row is eligible and maximal by outlet match, channel match, effective and creation time; none exactly when none is eligible |
| `Pricing.CurrentPriceExact` | src/admin/menu/pricing.ts:40-66 | The same with the scope and time rules written out |
| `Pricing.PickCurrentPrice` | src/admin/menu/pricing.ts:40-66 | The scoring loop picks that row |
| `Pricing.AllChannelInsertWins` | src/admin/menu/prices.service.ts:36-70 | An all-channel insert newer than its scope wins for every channel no more specific outlet row applies to |
| `Pricing.NamedChannelInsertWins` | src/admin/menu/prices.service.ts:36-70 | A price for a named channel adds exactly one row, which is then the current price there unless an outlet row is more specific |
| `Pricing.WritePrice` | src/admin/menu/prices.service.ts:36-70 | The insert loop writes the default row and one per channel with its own price |
| `Pricing.CopyKeepsResolution` | src/admin/menu/prices.service.ts:73-83 | A variant resolves to the copy of what the base resolves to, for every channel, outlet and time, whatever order the rows come back in |
| `Pricing.WriteCopies` | src/admin/menu/prices.service.ts:73-83 | The copy loop carries every base row over |
| `Combos.ResolveComboSelection` | src/admin/menu/combo-menu.ts:133-187 | The filling, counting and checking loops compute the specified children or refusal |
| `Combos.ResolveAcceptsIff` | src/admin/menu/combo-menu.ts:149-186 | A combo on sale accepts a selection exactly when its picks are offered, every slot has its count or is a left-out fixed part, and everything is servable; the children are the selection plus those fixed parts |
| `CartEffects.SelectionAcceptedIff` | src/admin/menu/combo-menu.ts:48-187 | A selection is accepted exactly when the combo is on sale with something to pick in every slot, only offered options are picked, every slot has its units or is a left-out fixed part, and every item is served, the outlet's switch before the tenant's, with fitting modifiers |
| `CartEffects.CheckModifiersIff` | src/admin/menu/combo-menu.ts:112-126 | Modifiers fit exactly when each belongs to one of the item's groups and each group's number of chosen ones is within its limits |
| `Combos.ResolveAgain` | src/admin/menu/combo-menu.ts:155-163 | Resolving what was resolved before, on the same menu, gives the same children |
| `Combos.FillSlotsIs` | src/admin/menu/combo-menu.ts:155-163 | Slots are judged independently, and filling adds exactly the left-out fixed parts |
| `Cart.Scaled` | src/guest/cart/cart.service.ts:315-323 | A combo's picks stay whole multiples of it and what is picked per combo does not change |
| `Cart.NewCombo` | src/guest/cart/cart.service.ts:284-295 | A written combo reads back as the selection that was resolved |
| `Cart.TableCart.Execute` | src/guest/cart/cart.service.ts:247-351 | Each cart request changes the rows as specified or is refused and changes nothing |
| `Cart.TableCart.Rescale` | src/guest/cart/cart.service.ts:315-323 | The loop over a combo's picks rescales each of them |
| `Cart.BuildCartView` | src/guest/cart/cart.service.ts:200-222 | The loop groups the lines by guest and the total is what all lines cost |
| `Cart.CartViewGrouped` | src/guest/cart/cart.service.ts:200-222 | The view lists every guest with a line once, with exactly their lines in order and what those come to |
| `Cart.CartViewTotal` | src/guest/cart/cart.service.ts:219-221 | The guests' subtotals add up to what every line costs |
| `CartEffects.ItemLineCost` | src/guest/cart/cart.service.ts:172-198 | An item line costs its quantity times the guest-channel price row's price, or nothing without one, plus its modifiers |
| `CartEffects.ModifiersCost` | src/guest/cart/cart.service.ts:176-177 | Modifiers cost the sum of their own menu prices |
| `CartEffects.BareComboCost` | src/guest/cart/cart.service.ts:137-170 | A combo without picks costs its menu price per combo |
| `CartEffects.PickAddsCost` | src/guest/cart/cart.service.ts:143-146 | Each pick adds, per unit, its option's extra charge and its own modifiers |
| `CartEffects.AddLineExact` | src/guest/cart/cart.service.ts:247-277 | An item is added exactly when it is on sale with fitting modifiers; the cart gains exactly that line and its cost |
| `CartEffects.AddComboExact` | src/guest/cart/cart.service.ts:280-297 | A combo is added exactly when its selection resolves; its line holds the picks asked for and the fixed parts left out |
| `CartEffects.UpdateLineExact` | src/guest/cart/cart.service.ts:299-336 | A guest's own line changes exactly as asked, within the modifier and combo rules, and no other line does |
| `CartEffects.RemoveLineExact` | src/guest/cart/cart.service.ts:338-351 | A guest's own line is removed with its picks and its cost |
| `CartEffects.OthersRefused` | src/guest/cart/cart.service.ts:111-124 | Nobody else's line, no pick and no missing line can be changed, and an ended session changes nothing |
| `Cart.FilledCartFits` | src/guest/cart/cart.service.ts:247-351 | Whatever requests fill a cart, placement on the same menu reads every combo back as it is |
| `Checkout.PlaceOrder` | src/guest/orders/orders.service.ts:126-291 | The placement loop turns the cart into the specified order lines and empties it, or refuses and leaves it |
| `Checkout.CartTotalIsBilled` | src/guest/orders/orders.service.ts:183-281 | With the menu unchanged a cart is refused only when empty or an item has no price; otherwise the order's subtotal and its invoice lines are exactly the cart's total |
| `Checkout.ChangedMenuDifference` | src/guest/orders/orders.service.ts:184-221 | With a changed menu an accepted order costs what the cart shows now plus the fixed parts its combos gained |
| `Checkout.PlacedCost` | src/guest/cart/cart.service.ts:137-198 | The same, line by line |
| `CartEffects.ComboPlacedAs` | src/guest/orders/orders.service.ts:187-208 | A combo line is placed at the menu's price with exactly its picks and the fixed parts, each with its own item's station, quantity and extra charge |
| `Checkout.ItemPlacedAs` | src/guest/orders/orders.service.ts:229-264 | An item line is placed exactly when it has a price, at that price, with its own quantity, modifiers and its item's station |
| `Checkout.PlacedForGuests` | src/guest/orders/orders.service.ts:183-281 | Every cart line is placed, in cart order, for the guest who added it |
| `OrderEffects.PlaceAppends` | src/guest/orders/orders.service.ts:183-281 | A placed order's lines are its items' lines in order, each for its guest |
| `Csv.RoundTrip` | src/admin/reports/csv.ts:4-10 | Parsing what the writer prints gives back the header and every row that is not wholly blank, cell for cell, for all contents (section 2 of RFC 4180) |
| `Csv.AnyBreakEndsARow` | src/admin/menu-import/extraction.ts:114-155 | LF, CR and CRLF each end a row, mixed as they come, and a last row without a break is kept |
| `Csv.BlankRowsOnly` | src/admin/menu-import/extraction.ts:150-155 | A row with a printable character is kept, one of empty cells and blanks is dropped |
| `Csv.Parse` | src/admin/menu-import/extraction.ts:114-155 | The character loop computes the specified rows |
| `AttemptLimiter.Limiter.Consume` | src/platform/attempt-limiter.ts:36-57 | Rules are counted in order up to the first one over its limit |
| `AttemptLimiter.Limiter.Refund` | src/platform/attempt-limiter.ts:61-66 | A refund gives one attempt back per key and sweeps day-old rows |
| `AttemptLimiter.WrongAttemptsBounded` | src/platform/attempt-limiter.ts:36-66 | In every interleaving on one key a window admits at most the limit plus the refunds that reached it from earlier windows |
| `AttemptLimiter.BoundIsReached` | src/platform/attempt-limiter.ts:61-66 | The bound is exact: under every rule and for every k a run in time order has k late refunds and the limit plus k wrong secrets in one window |
| `AttemptLimiter.AttemptCounts` | src/platform/attempt-limiter.ts:36-47 | Before its window is over an attempt counts on the same row, otherwise it opens a new window at one |
| `AttemptLimiter.WindowsApart` | src/platform/attempt-limiter.ts:36-66 | For windows of at most a day, in every interleaving two windows of a key open at least a window's length apart |
| `AttemptLimiter.ConsumeIsAttempt` | src/platform/attempt-limiter.ts:36-57 | On each key a request names, consuming is one attempt if the rules before it let it through, and otherwise nothing |
| `AttemptLimiter.RefundIsRight` | src/platform/attempt-limiter.ts:61-66 | A refund gives one attempt back on each key it names and sweeps the row of every other key |
| `AttemptLimiter.RefundExact` | src/platform/attempt-limiter.ts:61-66 | A refund takes one attempt off each key it names, not below zero, and drops exactly the rows more than a day old |
| `AttemptLimiter.PurgingIsInvisible` | src/platform/attempt-limiter.ts:61-66 | Sweeping day-old rows changes no later decision, for windows of at most a day |

## Left out

- A tenant that changes country: no service does that, and a kept bill row would then carry the old inclusion flag (`Bills.RefreshTotalIff`).
- The retry-after time a refused attempt is told.
- JWTs, password hashing, guards, permissions, row-level security, regions and tenant checks.
- Controllers, mail, webhooks, print jobs, PDF and XLSX files, seed data: input and output only.
- Time zones and formatting; times are numbers here.
- Currency, seats, notes, names, payer phones, audit rows, discount and void reasons: they decide no amount.
- A request's client key, which replays an earlier answer instead of running the request again.
- Which tender a refund is paid back by (its default is the largest tender).
- Table occupancy, token numbers and order transfer around placing and opening orders.
- Legacy negative prices, which the code mentions and its validators now refuse.
- Deleting a discarded order's row: the model keeps it as a closed order without a bill.
- Races inside one transaction that read committed isolation would allow; each transaction is one step.
- The text form of page cursors; a cursor is the row it names.
- Shift totals, floor plans, checklists, subscriptions, device pairing and agreement numbers: they would only add easy members.
- Checkout.CartTotalIsBilled: prices are read at one moment, so a scheduled price that takes effect between looking at the cart and placing it counts as a menu change.
- Cart.TableCart.Execute: a combo's picks are kept inside its line in creation order, as every read of the cart joins them.
