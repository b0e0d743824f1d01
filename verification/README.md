# Orders, table sessions and their side machines

A Dafny model of the order engine of a multi-tenant restaurant backend, of the table sessions in
which guests build a shared cart and send it to the kitchen round by round, and of the coupon
ledger that the order transactions keep; with it five smaller machines: the PIN lockout, the
single-flight cache, the WhatsApp webhook, the WhatsApp ordering bot and the default address of a
customer.

`dafny verify dfyconfig.toml` checks everything.

## How it is built

- `Data.dfy` holds the rows. Orders, coupons, tables and sessions are never removed by these
  modules, so an id is an index; cart items and rounds have ids of their own, because a rejected
  round is deleted. Money is whole cents, percentages are hundredths of a percent.
- `OrderTx.dfy` and `SessionTx.dfy` say what each transaction does, as functions from database to
  database. `Repository.dfy`, `OrderService.dfy` and `TableSessionService.dfy` are the same calls as
  classes over rows that are updated in place, statement by statement with rollback and retry; each
  method is proved to reach exactly the state and the answer of its function.
- `OrderInvariants.dfy`, `SessionShape.dfy` and `Conservation.dfy` hold the invariants of orders,
  of one session, and of sessions and orders together. `System.dfy` turns the calls into one state
  machine and proves them over every run; `RunProperties.dfy` adds what needs further conditions.
- `Acceptance.dfy` says of each order and session call exactly when it is accepted and what it does, in
  terms of the rows alone.
- `Interleaving.dfy` splits the calls: an order request reads and checks outside its transaction and
  writes later; so does every call on a session; a confirmation reads its session, takes the row
  lock, loads the round and then commits. It proves what no interleaving can disturb: orders,
  coupons, receipts, and that a round is emitted once.
- `SessionSaves.dfy` says for each session call exactly when its late writes still fit the session,
  `InterleavedSessions.dfy` exactly when a step keeps sessions and orders in agreement, and which
  interleavings are runs of undivided calls. `InterleavedRules.dfy` carries the rules of tables,
  coupon limits, closed sessions and payments over interleavings.
- `StaleWrites.dfy` says for each order request exactly when a version newer than the one read is
  harmless to orders and payments, `StaleLedger.dfy` when it is to the coupon ledger.
  `Anomalies.dfy` runs the failing cases from a new restaurant.
- `CreateRace.dfy` splits the creation of orders: number read, coupon lock, increment, insert,
  commit, retry, for any number of requests, days and coupons.
- `Pricing.dfy` and `Coupons.dfy` are the arithmetic, `Bill.dfy` what guests see.
- `Lockout.dfy`, `SingleFlight.dfy`, `Webhook.dfy`, `Conversation.dfy` and `Addresses.dfy` are the
  smaller machines, each with its class, its transition function and its properties over all runs.

## What is assumed

- Unique keys: one order number per branch and day (prisma/schema.prisma:460), one round number per
  session (418), one message per provider id and one event per event id (795, 816), one open session
  per table (prisma/migrations/20260826150000_single_active_session_per_table/migration.sql:18-20).
- Each database transaction is atomic except where it is split as described above. One restaurant
  with one branch; the tenant and branch filters of the queries are not modelled.
- Clocks, the answers of the menu queries, the result of a PIN comparison and the place where a
  webhook delivery fails are parameters and may be anything.
- `toFixed(2)` rounds to the nearest cent with ties upward, as in section 21.1.3.3 of ECMA-262, on
  exact amounts.

## Where the code does less than one might expect

Each of these is stated as an exact condition, proved both ways.

- The write checks only `version == expectedVersion`. A client that names a later version than the
  one the service read can have its check made on an old row. `StaleWrites.OrdersKeptIff` says
  exactly when orders stay right, for all four kinds of request, `StaleWrites.PaySettlesIff` when a
  payment settles the amount checked, and `StaleLedger.LedgerKeptIff` when the coupon ledger stays
  right: a late status update can revive a cancelled order without a use of its coupon, a late second
  cancellation can give a use back twice.
- Items are edited, and rounds rejected, without the lock of a confirmation and without a second look
  at the row: `InterleavedSessions.StepKeepsSysIff`, `InterleavedSessions.EditUnderCommitIff`,
  `SessionSaves.SaveKeepsIff`; failing runs in `Anomalies.EditedDuringConfirmation` and
  `Anomalies.RejectedAfterConfirmation`.
- A confirmation reads the session's current order before it takes the lock. Two overlapping
  confirmations can leave a session with two orders that still take lines:
  `RunProperties.ConfirmOneAppendable`, failing run in `Anomalies.OverlappingConfirmations`.
- Closing a session looks only at its last order, and looks at it before it writes:
  `RunProperties.CloseSettlesIff`, `InterleavedRules.StepKeepsSettledIff`, failing runs in
  `Anomalies.ClosedWithDebt` and `Anomalies.ClosedAfterConfirmation`.
- Closing frees the table whatever sits on it: `RunProperties.CloseKeepsOccupied`,
  `InterleavedRules.StepKeepsTablesIff`, failing run in `Anomalies.ClosedOverBusyTable`.
- A PATCH that leaves out the type can store a percentage above 100:
  `Coupons.PercentageWithinEligible`, `Anomalies.OversizedCoupon`.
- A payload that reuses the id of a failed event can mark that event processed without its message:
  `Webhook.SuccessStoresIff`, `Anomalies.MarkedWithoutMessage`.
- `DELIVERED` to `DELIVERED` is an accepted status update, like any status to itself
  (order.service.js:13-15); it adds a version and a history row, and `StaleWrites.CancelledAtVersion`
  makes use of that.

## Model

| member | source | states |
|---|---|---|
| Interleaving.RunKeepsOrders | src/modules/orders/order.repository.js:417-458 | in every interleaving of reads, writes, checks, locks, loads, commits, whole calls and abandoned requests, with every expected version observed no later than the service's read, and with session edits, rejections and closings wherever they fall: each order's version is the length of its history, each history row starts at the status the last one ended in and makes an allowed change, order money and the coupon ledger are right, and every settled order's total is the amount checked when it was paid |
| Interleaving.MoneyIsRight | src/modules/orders/order.repository.js:196-206 | in plain numbers, for every order of every state an interleaving reaches: the subtotal is the sum of the lines, and the total is the subtotal less the discount, or nothing when the discount is larger |
| Interleaving.RoundEmittedOnce | src/modules/table-sessions/table-session.repository.js:96-108 | after one commit of a round, over any continuation at all, no other confirmation that has loaded the same round ever commits - not even one the row lock did not keep out |
| Interleaving.WriteIsCall | src/modules/orders/order.repository.js:430-447 | a write that passes the compare-and-set on `version` found the row exactly as the service had read and checked it, so it does what the undivided call would do at that moment |
| Interleaving.StepKeepsReceipts | src/modules/orders/order.service.js:485-512 | after any step the total of every paid or refunded order is the amount that its payment was checked for: an append between the check and the write makes the payment fail |
| InterleavedSessions.RunKeepsSys | src/modules/table-sessions/table-session.service.js:169-254 | in every interleaving whose session writes come in time (InterleavedSessions.Timely), sessions and orders agree: every confirmed round is on its order line by line, rounds and carts keep their shape, no order comes from two sessions, and nothing recorded is lost |
| InterleavedSessions.StepKeepsSysIff | src/modules/table-sessions/table-session.service.js:206-254 | from any such state, a step leads to such a state and loses nothing if and only if it is not a session write that comes too late: an edit whose item was confirmed or is loaded by a confirmation, a rejection whose round was confirmed, a new item or round for a session no longer open |
| InterleavedSessions.EditUnderCommitIff | src/modules/table-sessions/table-session.service.js:406-442 | a confirmation that had loaded its items before an item was edited leaves session and order in agreement if and only if the edit changed nothing |
| InterleavedSessions.RunIsSerial | src/modules/table-sessions/table-session.service.js:384-502 | every interleaving whose session writes would pass their checks again ends in the same database as some sequence of undivided calls, which the lemma constructs |
| InterleavedSessions.FreshRun | src/modules/orders/order.repository.js:174-336 | from a new restaurant every interleaving keeps orders, coupons and receipts right, and every one whose session writes come in time keeps sessions right too |
| InterleavedSessions.NoEmptyOrders | src/modules/table-sessions/table-session.service.js:406-412 | from a new restaurant, in any interleaving whose session writes come in time, an order that a session has produced is never without lines |
| InterleavedSessions.CommitIsConfirm | src/modules/table-sessions/table-session.service.js:444-502 | the commit of a confirmation that locked, loaded and then wrote does what the undivided confirmation would do at the moment of the commit |
| InterleavedSessions.HeldSessionStays | src/modules/table-sessions/table-session.service.js:397-402 | while one request holds a pending round, no timely step of another changes the session's rounds, nor the items of the round once they are loaded; a rejection's writes count as one step, which waits |
| SessionSaves.SaveKeepsIff | src/modules/table-sessions/table-session.repository.js:55-122 | the writes of a session call, which look at nothing again, keep the session's shape and everything confirmed if and only if the session is still open (new item, new round), the item still editable or nothing to change (edit), the round still pending or gone from an open session (rejection); closing always does |
| SessionSaves.SaveIsCallIff | src/modules/table-sessions/table-session.service.js:359-382 | the writes do what the undivided call would do at their moment, or nothing, if and only if its check would pass again on the same cart or round |
| SessionSaves.EditConservesIff | src/modules/table-sessions/table-session.repository.js:152-163 | an edit written at any time leaves the kitchen's orders in agreement with the session if and only if it hits no item of a confirmed round |
| SessionSaves.EditAllowedIff | src/modules/table-sessions/table-session.service.js:206-254 | the check of an edit passes if and only if the session is not closed and the item is in the open cart or in the round that waits |
| Anomalies.OverlappingConfirmations | src/modules/table-sessions/table-session.service.js:444-453 | a run from a new restaurant in which two confirmations overlap and one session ends with two orders that still take lines |
| Anomalies.EditedDuringConfirmation | src/modules/table-sessions/table-session.service.js:211-215 | two runs from a new restaurant, an edit between load and commit and one checked before the commit and written after it: the order says one dish, the confirmed round five |
| Anomalies.RejectedAfterConfirmation | src/modules/table-sessions/table-session.service.js:569-578 | a run in which a rejection is written after its round was confirmed: the order belongs to no round any more and its items are back in the cart |
| Anomalies.ClosedWithDebt | src/modules/table-sessions/table-session.service.js:523-530 | a run in which a session is closed while an order it produced was delivered and never paid |
| Anomalies.ClosedAfterConfirmation | src/modules/table-sessions/table-session.service.js:518-534 | a run in which a closing is checked before a confirmation commits and written after it: the session is closed, its current order is unpaid and its table is available |
| Anomalies.ClosedOverBusyTable | src/modules/table-sessions/table-session.service.js:523-534 | a run in which an order is paid at once and its session closed: the table is available while the order is still being prepared |
| Anomalies.OversizedCoupon | src/modules/coupons/coupon.validation.js:49-53 | a coupon patched to 150 percent discounts an order by more than its subtotal |
| Anomalies.MarkedWithoutMessage | src/modules/whatsapp/whatsapp.service.js:149-163 | two deliveries under one event id after which the event is processed and its message is not stored |
| System.RunKeepsInv | src/modules/orders/order.repository.js:174-633 | over any run of undivided calls: order histories, order money, the coupon ledger, session shapes and session-to-order conservation hold at the end, no order comes from two sessions, no table has two open sessions, and all that was recorded survives - settled totals, terminal statuses, confirmed rounds with their items, closed sessions |
| System.StepKeepsInv | src/modules/table-sessions/table-session.service.js:384-543 | each undivided call keeps all of that, whichever call it is and whether it is accepted or refused |
| System.StepKeepsBooks | src/modules/orders/order.repository.js:417-633 | orders and coupons stay right under every call whatever state the sessions are in |
| System.ConfirmStep | src/modules/table-sessions/table-session.service.js:395-502 | a confirmation keeps every invariant of orders, coupons and sessions at once, including those of the sessions it does not touch |
| System.ConfirmParts | src/modules/table-sessions/table-session.service.js:444-502 | an accepted confirmation puts the priced lines of the session's last round on the session's appendable order, or else on a new one, and changes the lines of no other order |
| Acceptance.ConfirmAcceptedIff | src/modules/table-sessions/table-session.service.js:397-442 | a confirmation is accepted if and only if the session exists, a round waits, some item is linked to it, and the product of every linked item is on the menu; it is refused as not found exactly for a product that is not |
| Acceptance.ConfirmEffect | src/modules/table-sessions/table-session.service.js:444-501 | after a confirmation the session is open, its last round is confirmed at the value of its items on the session's new current order, and that order was extended if it could take lines and is otherwise a new confirmed QR order without discount |
| StaleWrites.OrdersKeptIff | src/modules/orders/order.repository.js:430-458 | a request of any kind that passed its check keeps all orders' histories, versions and money right, whatever undivided calls run before its write, if and only if it is a payment or a refund, or its expected version is at most the version the service read, or the order had already ended |
| StaleWrites.LegalIff | src/modules/orders/order.service.js:293-311 | a status request that passed its check can never make an illegal change, whatever undivided calls run before its write, if and only if its expected version is at most the version the service read, or the order had already ended |
| StaleWrites.PaySettlesIff | src/modules/orders/order.service.js:485-512 | a payment that passed its check settles the amount checked, whatever undivided calls run before its write, if and only if its expected version is at most the version the service read, or the order could not take lines any more, or no open session has produced it |
| InterleavedRules.InterleavedPayment | src/modules/orders/order.service.js:485-512 | over any interleaving, late session writes included, a payment that passed its check settles the amount checked if its expected version is at most the version the service read, or the order could not take lines any more, or no session refers to it and no confirmation under way has read it |
| StaleLedger.LedgerKeptIff | src/modules/orders/order.repository.js:466-471 | a request of any kind that passed its check leaves every coupon's use count right, whatever undivided calls run before its write, if and only if it is a payment or a refund, or its expected version is at most the version the service read, or the order had ended or has no coupon, or it cancels the only live order of a coupon that has been deleted; otherwise a late status update revives a cancelled order without a use, or a late second cancellation gives a use back twice |
| StaleWrites.CancelledAtVersion | src/modules/orders/order.service.js:12-15 | constructs, for any later version, a run of accepted calls that ends with the order cancelled at exactly that version (a status may be set to itself any number of times) |
| OrderInvariants.NoStageSkipped | src/modules/orders/order.service.js:12-35 | in any history that follows the rules, every stage was reached through the one before it, only deliveries go out for delivery, and a cancelled order stays cancelled |
| Acceptance.RequestAcceptedIff | src/modules/orders/order.service.js:12-35 | a request is accepted if and only if its order exists and has the version it names and: a status is repeated or is the next on the path pending, confirmed, preparing, ready, (out for a delivery,) delivered; a cancelled order was neither delivered nor cancelled; a payment is for the total of an unpaid order that is not cancelled; a refund is for a paid one |
| Acceptance.RequestTables | src/modules/orders/order.repository.js:460-499 | a cancellation, an update to delivered and the payment of a delivered order make the order's live table available exactly when every other order there has gone out, been delivered or been cancelled; no other table changes, and no other request changes any table |
| Acceptance.TableIsFreedIff | src/modules/orders/order.repository.js:553-578 | so an occupied live table becomes available at such a request if and only if no other order on it is pending, confirmed, preparing or ready |
| Acceptance.RequestCoupons | src/modules/orders/order.repository.js:466-471 | a cancellation gives its coupon exactly one use back, and no request changes anything else of a coupon |
| Acceptance.CreateAcceptedIff | src/modules/orders/order.repository.js:177-205 | an order can be created if and only if, at a table and not from a QR code, no order there is pending, confirmed, preparing or ready, and its coupon exists and accepts it |
| Acceptance.CreateTouches | src/modules/orders/order.repository.js:248-261 | a creation occupies its live table and no other, and uses its coupon once and no other |
| Acceptance.CreateCallEffect | src/modules/orders/order.service.js:134-272 | the order service refuses a table that is not a live one; the order begins pending and unpaid, after all others, with the lines it was given and their sum as its subtotal |
| Acceptance.AppendAcceptedIff | src/modules/orders/order.repository.js:341-406 | a round can be added if and only if the order is unpaid and pending, confirmed, preparing or ready; the order then has its old lines followed by the new, and only its money, version and history change besides |
| OrderInvariants.CallKeepsOrders | src/modules/orders/order.repository.js:430-458 | a request keeps every order's history chain, version and money, and no order loses lines, history or payment |
| OrderInvariants.AppendKeepsOrders | src/modules/orders/order.repository.js:348-406 | adding a round keeps subtotal = sum of the lines and total = max(0, subtotal - discount), and happens only to an unpaid order that has not ended |
| OrderInvariants.CreateKeepsOrders | src/modules/orders/order.repository.js:196-272 | a new order satisfies the money and history invariants and disturbs no other order |
| OrderInvariants.CreateKeepsLedger | src/modules/orders/order.repository.js:198-205 | after a creation each coupon's use count is again the number of orders carrying it that were not cancelled, and still within a limit that held before |
| OrderInvariants.CallKeepsLedger | src/modules/orders/order.repository.js:466-471 | after any request each coupon's use count is again the number of orders carrying it that were not cancelled |
| OrderInvariants.CancelReturnsUse | src/modules/orders/order.repository.js:466-471 | a cancellation always gives exactly one use back: the guard against counting below zero never stops it |
| OrderInvariants.CallKeepsOccupied | src/modules/orders/order.repository.js:460-499 | a request never leaves a live table that an active order sits on anything but occupied |
| OrderInvariants.CallKeepsOneOrder | src/modules/orders/order.service.js:12-35 | no request makes a second active non-QR order appear on a table, because no status ever returns to an active one |
| OrderInvariants.CreateKeepsTables | src/modules/orders/order.repository.js:177-192 | a creation occupies its live table and never puts a second active non-QR order beside another |
| CreateRace.NumberedFromStart | src/modules/orders/order.repository.js:36-48 | from no orders at all, with read, coupon lock, increment, insert, commit and retry of any number of requests as separate steps: the numbers in use on a day are exactly the interval that begins at the start number and has one number per committed order, and every coupon's use count is the number of live orders carrying it, within its limit |
| CreateRace.RunKeepsInv | src/modules/orders/order.repository.js:313-336 | any run from any state in order stays in order: numbers without gaps in commit order, one uncommitted order per day, use counts and limits right, one holder per coupon row |
| CreateRace.InsertSucceedsIff | src/modules/orders/order.repository.js:194-229 | an insert collides if and only if an order of its day was committed since the request read its number; otherwise it goes in, unless another request has the same number inserted and uncommitted, and then it waits |
| CreateRace.ThreeAttempts | src/modules/orders/order.repository.js:325-335 | a collision starts the request over on its first two attempts and ends it on the third |
| CreateRace.CouponStepsIff | src/modules/coupons/coupon.service.js:168-184 | a request gets the coupon's lock exactly when nobody has it, and is then refused exactly when the coupon is used up |
| CreateRace.CommitFits | src/modules/orders/order.repository.js:208-229 | an inserted order has, until its commit, exactly the number its day waits for, and the commit adds one order and one use of its coupon |
| CreateRace.CollisionChangesNothing | src/modules/orders/order.repository.js:325-335 | an attempt that collides or fails leaves orders, use counts and limits as they were and gives its coupon lock back |
| CreateRace.GivingUpMeansThreeOthers | src/modules/orders/order.repository.js:325-335 | a request that lost all three attempts saw at least three orders of its day committed since it began, none of them its own |
| Repository.OrderRepository.ApplyCoupon | src/modules/coupons/coupon.service.js:165-187 | charges the coupon once and returns its discount, or refuses and changes nothing |
| Repository.OrderRepository.CreateOrderInClient | src/modules/orders/order.repository.js:174-311 | statement by statement reaches the state and answer of the specification of a creation; with `raced` given it reports the unique violation |
| Repository.OrderRepository.CreateOrderTransaction | src/modules/orders/order.repository.js:313-336 | given the orders with which others take the number during its attempts, those orders stand and the request leaves what one undisturbed creation after them leaves; if it lost all three attempts, or is refused, it leaves nothing of its own and no coupon use |
| OrderTx.LostAttemptsAre | src/modules/orders/order.repository.js:325-335 | the attempts that are lost are the first ones, each beaten by a rival that took the number from a creation that would have gone through; the next attempt, if there is one, has no such rival or is refused for another reason |
| Repository.OrderRepository.AppendItemsToOrder | src/modules/orders/order.repository.js:338-415 | the lines are added, the totals recomputed, the version and history advanced, or the order is refused and unchanged |
| Repository.OrderRepository.ReleaseTable | src/modules/orders/order.repository.js:473-498 | the order's table becomes available unless another active order sits on it |
| Repository.OrderRepository.UpdateOrderStatus | src/modules/orders/order.repository.js:417-503 | moves the order only at the expected version, and with it returns the coupon use and frees the table as the specification says; otherwise a conflict and no change |
| Repository.OrderRepository.UpdateOrderPayment | src/modules/orders/order.repository.js:505-582 | settles only an unpaid order at the expected version; otherwise a conflict and no change |
| Repository.OrderRepository.UpdateOrderRefund | src/modules/orders/order.repository.js:584-633 | refunds only at the expected version; otherwise a conflict and no change |
| OrderService.Service.CreateOrder | src/modules/orders/order.service.js:79-291 | refuses, in the program's order and without a change, a caller who may not use the source, an unknown customer, a missing table, an unavailable product and a discount by hand without permission; otherwise the lines are the payload's items priced one by one and the outcome is that of the transaction |
| OrderService.GoesAheadIff | src/modules/orders/order.service.js:82-249 | a payload gets as far as the transaction if and only if the caller may use the source, the named customer exists, the table is live, every product can be had, and a discount beside no coupon may be given by hand |
| OrderService.OutrunKeepsBooks | src/modules/orders/order.repository.js:325-335 | the orders of the rivals keep orders and coupons right, so a creation that lost its number left no coupon use behind |
| OrderService.Service.UpdateOrderStatus | src/modules/orders/order.service.js:293-325 | read, check and write together are the status step of the system, with its errors |
| OrderService.Service.CancelOrder | src/modules/orders/order.service.js:327-361 | read, check and write together are the cancellation step of the system, with its errors |
| OrderService.Service.ProcessPayment | src/modules/orders/order.service.js:485-525 | read, check and write together are the payment step of the system, with its errors |
| OrderService.Service.ProcessRefund | src/modules/orders/order.service.js:527-543 | read, check and write together are the refund step of the system, with its errors |
| Pricing.PriceItems | src/modules/orders/order.service.js:141-233 | in whatever order the two queries return rows, each line has the price of its item taken alone and the subtotal is their sum; the payload is refused exactly when some product is not available |
| Pricing.PriceItem | src/modules/orders/order.service.js:183-233 | the unit price is the product's price plus, for each of its own modifiers chosen, the surcharge of its first selection; repeats and other products' modifiers add nothing |
| Pricing.OneModifierPrice | src/modules/orders/order.service.js:202-220 | for one modifier of the item's own product: one that is not counted adds its price once whatever quantity was sent; one that is counted adds it for each piece, at least once and at most its maximum |
| Pricing.OneMoreModifier | src/modules/orders/order.service.js:199-209 | one more selection adds nothing if its modifier was selected before, belongs to another product or does not exist, and otherwise adds what it would add alone |
| Pricing.PlainIds | src/modules/orders/order.service.js:193-196 | a plain list of modifier ids stands for one piece of each and is ignored when modifiers with quantities are sent |
| Pricing.LineOfItem | src/modules/orders/order.service.js:219-232 | a line is for its item's product and quantity, costs the menu price when no modifier is chosen, and its subtotal is the unit price for each piece |
| Pricing.ModifiersTotal | src/modules/orders/order.service.js:198-217 | the loop adds the surcharge of each chosen modifier row exactly once |
| Pricing.GroupByProduct | src/modules/orders/order.service.js:177-181 | the map holds for each product exactly its modifier rows, in the order they came |
| Pricing.IndexById | src/modules/orders/order.service.js:154 | the map finds exactly the products returned, each under its id |
| Pricing.SurchargesAreParts | src/modules/orders/order.service.js:202-209 | adding surcharges choice by choice, counting first selections only, gives the same as adding over the set of chosen modifiers in any order |
| Pricing.AllRowsCount | src/modules/orders/order.service.js:156-181 | the rows grouped under a product account for every surcharge of an item, although they were fetched for all items at once |
| Coupons.NearestCent | src/modules/coupons/coupon.service.js:51-54 | the nearest cent, ties upward |
| Coupons.AcceptedIff | src/modules/coupons/coupon.service.js:6-39 | an order is accepted with a coupon if and only if the coupon is live, active, in its period and below its limit, some line whose product it lists (any line, without a list) costs something, and those lines together reach its minimum; only a deleted coupon is reported as not found |
| Coupons.EligibleIsApplied | src/modules/coupons/coupon.service.js:25-32 | the eligible amount is the sum of the lines the coupon applies to |
| Coupons.SingleLine | src/modules/coupons/coupon.service.js:29-31 | a single line counts in full if the coupon applies to its product, and not at all otherwise |
| Coupons.UnlistedLine | src/modules/coupons/coupon.service.js:29-31 | a line of a product the coupon does not list never changes the eligible amount |
| Coupons.OnlyListedLines | src/modules/coupons/coupon.service.js:26-32 | an order with only listed products counts in full, as for a coupon without a list |
| Coupons.NoListedLine | src/modules/coupons/coupon.service.js:34-36 | an order with no listed product is refused |
| Coupons.DiscountIs | src/modules/coupons/coupon.service.js:41-54 | a fixed coupon gives its value or the eligible amount, whichever is less; a percentage gives its cap, or the nearest cent of its share when that is within the cap |
| Coupons.DiscountWithinOrder | src/modules/coupons/coupon.service.js:25-54 | for at most 100 percent: discount <= what the coupon applies to <= order subtotal, and a percentage discount stays within its cap |
| Coupons.PercentageWithinEligible | src/modules/coupons/coupon.validation.js:49-53 | for any stored percentage, also one above 100 left by a PATCH: the discount stays within the eligible amount if and only if the value is at most 100 percent, the excess rounds away, or the cap is no larger than the amount |
| Coupons.DiscountGrowth | src/modules/coupons/coupon.service.js:41-54 | a larger eligible amount never lowers the discount and never raises it by more than the increase, rounding and cap included |
| Coupons.MoreLinesNeverHurt | src/modules/coupons/coupon.service.js:25-54 | among accepted orders, adding items lowers neither the discount nor what is left to pay |
| SessionShape.StepKeepsShape | src/modules/table-sessions/table-session.service.js:169-254 | adding, changing and removing items, submitting and rejecting keep the session's shape: rounds numbered 1..n, only the last unconfirmed, awaiting exactly while a round is pending and then with an empty cart, confirmed rounds and their items frozen with the right total |
| SessionShape.ConfirmKeepsShape | src/modules/table-sessions/table-session.service.js:483-501 | so does confirming the pending round, whose total becomes the value of its items |
| SessionShape.CloseKeepsShape | src/modules/table-sessions/table-session.service.js:532-534 | so does closing, after which the session never changes and no confirmed round was lost |
| SessionShape.StepConfirmsNothing | src/modules/table-sessions/table-session.service.js:359-382 | no call but a confirmation confirms a round or changes the order a session refers to |
| SessionShape.EditEffect | src/modules/table-sessions/table-session.service.js:206-246 | an edit changes the quantity of the named item, or removes it, and leaves every other item as it was |
| SessionShape.SubmitTakesCart | src/modules/table-sessions/table-session.service.js:364-371 | submitting moves the whole cart, item by item, into one pending round with the next number and the cart's value, and empties the cart |
| Acceptance.AddAcceptedIff | src/modules/table-sessions/table-session.service.js:169-204 | an item is added if and only if the session is open and the product on the menu; the cart then ends with it, at the price of the menu, in the quantity and under the name given, and no round has changed |
| Acceptance.SubmitAcceptedIff | src/modules/table-sessions/table-session.service.js:359-365 | a cart can be submitted if and only if the session is open and some item is in no round |
| Acceptance.RejectAcceptedIff | src/modules/table-sessions/table-session.service.js:564-578 | a round can be rejected if and only if the session is not closed and one waits; its items are then the cart, in order, the other rounds stay, and the session is open |
| SessionShape.RejectUndoesSubmit | src/modules/table-sessions/table-session.service.js:569-578 | rejecting right after submitting gives back exactly the cart, the rounds, the status and the next round number |
| Conservation.ConfirmConserves | src/modules/table-sessions/table-session.service.js:444-501 | after a confirmation every confirmed round's items - products and quantities, in order - are the lines with its number on its order, and every line of an order the session produced belongs to one of its confirmed rounds |
| Conservation.RoundLinesMatch | src/modules/table-sessions/table-session.service.js:427-442 | the lines a round becomes are its items one for one, at the prices of the menu, marked with the round's number |
| RunProperties.ConfirmOneAppendable | src/modules/table-sessions/table-session.service.js:444-453 | a confirmation leaves at most one order of its session appendable, the one it refers to, if and only if it brought the session's current order from its read or that order could not take lines any more |
| RunProperties.RunKeepsOneAppendable | src/modules/table-sessions/table-session.service.js:444-501 | while calls do not overlap, of all orders a session produced at most its current one can still take lines, because an order that cannot never can again |
| RunProperties.CloseSettlesIff | src/modules/table-sessions/table-session.service.js:523-530 | closing leaves every order of the session paid, refunded or cancelled if and only if the earlier ones, which it does not look at, already were |
| Acceptance.StartAcceptedIff | src/modules/table-sessions/table-session.service.js:60-106 | a session can be started if and only if the table is live and all its sessions are closed; it begins open and empty, and its table, no other, is occupied |
| Acceptance.CloseAcceptedIff | src/modules/table-sessions/table-session.service.js:518-534 | a session can be closed if and only if it is not closed and its current order is paid, refunded or cancelled; the round that waits is then cancelled, no item changes, and its table becomes available if it was occupied |
| RunProperties.RunKeepsTables | src/modules/orders/order.repository.js:473-497 | over any run without a session close: a live table with an active order is occupied, so it becomes available only when the last active order is gone, and it has at most one active non-QR order |
| InterleavedRules.RunKeepsRules | src/modules/orders/order.repository.js:460-499 | in any interleaving in which no closing is written over a busy table or an order still owed and no PATCH undercuts a limit: live tables with active orders are occupied, with at most one active non-QR order each, no coupon is used beyond its limit, and no closed session owes its current order |
| InterleavedRules.FreshKeepsRules | src/modules/orders/order.repository.js:174-336 | the same from a new restaurant |
| InterleavedRules.StepKeepsTablesIff | src/modules/table-sessions/table-session.service.js:532-534 | from any such state a step of any request keeps the table rules if and only if it does not write the closing of a session over a live table that an active order sits on |
| InterleavedRules.StepKeepsSettledIff | src/modules/table-sessions/table-session.service.js:523-533 | from a state in which no closed session owes its current order, a step leads to such a state if and only if it does not write the closing of a session whose current order is owed at that moment, whatever the check of the closing had seen |
| RunProperties.CloseKeepsOccupied | src/modules/table-sessions/table-session.repository.js:131-137 | closing a session keeps that rule if and only if no active order sits on its table |
| RunProperties.RunKeepsLimits | src/modules/coupons/coupon.service.js:21-23 | over any run in which no PATCH puts a limit below the current use, no coupon is used more often than its limit |
| TableSessionService.Service.StartSession | src/modules/table-sessions/table-session.service.js:60-114 | reaches the state and answer of the specification: one open session per table, the table occupied |
| TableSessionService.Service.PriceRound | src/modules/table-sessions/table-session.service.js:427-442 | the loop prices the whole round or refuses it for the first unavailable product |
| TableSessionService.Service.ConfirmInTransaction | src/modules/table-sessions/table-session.service.js:395-502 | reaches the state of the confirmation with the order id read before, or refuses and leaves nothing behind |
| TableSessionService.Service.ConfirmSession | src/modules/table-sessions/table-session.service.js:384-516 | without interference is the confirmation with the session's current order |
| Bill.GrandTotalIsEverythingElse | src/modules/table-sessions/table-session.service.js:686-694 | the grand total counts every item exactly once, except those of a round that is not confirmed |
| Lockout.GuessingTakesTime | src/modules/table-sessions/table-session.service.js:123-145 | n consecutive wrong PINs take at least the sum of the lockouts after failures 3 to n-1, and failedAttempts is the number of compared failures since the last success |
| Lockout.LockedIff | src/modules/table-sessions/table-session.service.js:123-138 | an attempt is turned away uncompared if and only if there were three failures or more since the last success and the last of n is less than 60 * 2^(n / 3) seconds ago |
| Lockout.LeastSecondsClosed | src/modules/table-sessions/table-session.service.js:133-138 | for n = 3m that sum is 180 * (2^m - 2) seconds |
| Lockout.JoinGuard.Join | src/modules/table-sessions/table-session.service.js:116-145 | while locked out nothing is compared or counted and the waiting time is rounded up to whole seconds; a wrong PIN counts; a right one clears |
| SingleFlight.RunIsSingleFlight | src/shared/utils/cache.js:30-65 | in every interleaving of callers, settlements and finally blocks at most one fetch per key is unsettled, callers back from one flight have one result, and the map is empty once nobody waits |
| SingleFlight.CallersGetTheOutcome | src/shared/utils/cache.js:59-60 | whoever comes back from a flight, however late, has what it settled with |
| SingleFlight.ReturnsIff | src/shared/utils/cache.js:59-65 | a waiter comes back if and only if its flight has settled |
| SingleFlight.RemovedOnlyWhenSettled | src/shared/utils/cache.js:61-65 | an entry leaves the map only in the finally block of one of its own waiters after its own promise settled: a late waiter never removes a newer flight |
| SingleFlight.FetchesOnlyWhenAlone | src/shared/utils/cache.js:30-57 | a call that misses the cache starts a fetch if and only if the map has no flight of its key, and then no earlier one is unsettled |
| SingleFlight.Cache.Enter | src/shared/utils/cache.js:30-57 | from cache miss to await: joins the flight in the map or starts one |
| SingleFlight.Cache.SettleFlight | src/shared/utils/cache.js:32-54 | a promise settles once, for all its waiters |
| SingleFlight.Cache.Leave | src/shared/utils/cache.js:59-65 | returns the flight's outcome and removes the entry only if it is this flight's |
| Addresses.RunKeepsOneDefault | src/modules/customers/customer.repository.js:236-350 | after any sequence of creates, updates and deletes a customer with live addresses has exactly one default, and no deleted address is a default |
| Addresses.CreateKeepsOneDefault | src/modules/customers/customer.repository.js:240-263 | the first address and every one created as default becomes the one default |
| Addresses.CreateLeaves | src/modules/customers/customer.repository.js:241-263 | an address created without the flag beside others leaves every other as it was; one created with it, or as the first, takes the flag from all others |
| Addresses.UpdateLeaves | src/modules/customers/customer.repository.js:275-316 | making an address the default takes the flag from all others; clearing one that is not the default changes nothing |
| Addresses.DeleteLeaves | src/modules/customers/customer.repository.js:328-346 | deleting an address that is not the default changes no other; deleting the default gives the flag to the newest other and changes nothing else |
| Addresses.UpdateKeepsOneDefault | src/modules/customers/customer.repository.js:274-316 | an address made default replaces the old one; without the flag nothing changes |
| Addresses.DeleteKeepsOneDefault | src/modules/customers/customer.repository.js:328-346 | a deleted default is replaced by the newest other live address, if there is one |
| Addresses.ClearingPromotesNewest | src/modules/customers/customer.repository.js:282-301 | clearing the only default promotes the newest other address; with no other address nothing changes |
| Addresses.AddressBook.CreateAddress | src/modules/customers/customer.repository.js:236-265 | the two statements together keep exactly one default |
| Addresses.AddressBook.UpdateAddress | src/modules/customers/customer.repository.js:267-320 | the statements together keep exactly one default; a missing or deleted address is refused without a change |
| Addresses.AddressBook.SoftDeleteAddress | src/modules/customers/customer.repository.js:322-350 | the statements together keep exactly one default; a missing or deleted address is refused without a change |
| Webhook.RunIsAtMostOnce | src/modules/whatsapp/whatsapp.service.js:146-226 | over any sequence of deliveries and retries with a failure possible at each step, each message is stored at most once and starts the bot at most once; and if every event id always comes with the same message, a processed event's message is stored |
| Webhook.DeliverOnce | src/modules/whatsapp/whatsapp.service.js:173-200 | one delivery keeps that and never loses a stored message |
| Webhook.BotStartsIff | src/modules/whatsapp/whatsapp.service.js:173-200 | a delivery starts the bot if and only if its message is new, its event not processed, and no failure comes before |
| Webhook.FlawlessDelivers | src/modules/whatsapp/whatsapp.service.js:156-221 | without a failure an event that was not processed is, its message is stored, and a new one starts the bot |
| Webhook.AnswerMeans | src/modules/whatsapp/whatsapp.service.js:152-225 | after a success the event is processed, after a failure failed, and a duplicate is an event processed before, with nothing changed |
| Webhook.DeliverKeepsProcessed | src/modules/whatsapp/whatsapp.service.js:220-225 | an event becomes processed only after its message was stored |
| Webhook.SuccessStoresIff | src/modules/whatsapp/whatsapp.service.js:149-163 | a successful delivery leaves its event's message stored if and only if the event has none, carries the one delivered, or had it stored before: a second payload under the id of a failed event can mark it processed without its message |
| Webhook.Inbox.HandleInbound | src/modules/whatsapp/whatsapp.service.js:146-226 | row by row reaches the state and answer of a delivery that fails at the given step |
| Webhook.Inbox.RetryFailed | src/modules/whatsapp/whatsapp.service.js:252-273 | a retry stores and starts nothing twice, loses no message, counts at most the failed events, and without a fault leaves no event failed and counts them all |
| Conversation.AddToCartEffect | src/modules/whatsapp-automation/automation.service.js:158-170 | choosing a product raises its quantity by one, keeps the lines distinct and changes no other quantity |
| Conversation.BumpLine | src/modules/whatsapp-automation/automation.service.js:158-170 | finding the line in place gives the same cart as the recursive definition |
| Conversation.Bot.HandleInboundMessage | src/modules/whatsapp-automation/automation.service.js:33-108 | a message, keyword by keyword in the program's order, is one step of the conversation and keeps its invariant |
| Conversation.Bot.HandleByState | src/modules/whatsapp-automation/automation.service.js:110-294 | the state-dependent part does what the specification of that part says |
| SessionShape.EditSparesConfirmed | src/modules/table-sessions/table-session.service.js:248-254 | at the moment its check passes, an edit names no item of a confirmed round |
| RunProperties.CloseLeavesNothingOpen | src/modules/table-sessions/table-session.service.js:523-533 | when closing succeeds, no order the session ever produced can take lines any more if and only if none but its current one could |
| RunProperties.NewRestaurant | src/modules/orders/order.repository.js:473-497 | from a new restaurant: every run keeps the system invariant, every run without a close the table rules, every run that undercuts no limit the limits, and every run of calls that do not overlap at most one appendable order per session |
| TableSessionService.Service.AddCartItem | src/modules/table-sessions/table-session.service.js:169-204 | check and write together reach the state and answer of the add step |
| TableSessionService.Service.UpdateCartItem | src/modules/table-sessions/table-session.service.js:206-225 | check and write, with nothing between them, reach the state and answer of the update step |
| TableSessionService.Service.RemoveCartItem | src/modules/table-sessions/table-session.service.js:227-246 | check and write, with nothing between them, reach the state and answer of the remove step |
| TableSessionService.Service.SubmitCart | src/modules/table-sessions/table-session.service.js:359-382 | check and writes, with nothing between them, reach the state and answer of the submit step |
| TableSessionService.Service.RejectPendingRound | src/modules/table-sessions/table-session.service.js:564-589 | check and writes, with nothing between them, reach the state and answer of the reject step |
| TableSessionService.Service.CloseSession | src/modules/table-sessions/table-session.service.js:518-543 | check and writes, with nothing between them, reach the state and answer of the close step; an unpaid order stops it |
| TableSessionService.Service.WriteRound | src/modules/table-sessions/table-session.repository.js:67-87 | the three writes of a submission, on whatever the session has become since its check, are one write step of the interleaved system |
| TableSessionService.Service.WriteRejection | src/modules/table-sessions/table-session.service.js:569-578 | the three writes of a rejection, on whatever the session has become, are one write step of the interleaved system; the round is deleted whatever its status |
| TableSessionService.Service.WriteClosing | src/modules/table-sessions/table-session.service.js:532-534 | the three writes of a closing, on whatever the session has become, are one write step of the interleaved system |
| Bill.GroupByMember | src/modules/table-sessions/table-session.service.js:667-684 | one share per member, an item without a name going to the guest, holding exactly that member's items in order and their value; the shares add up to the bill and nobody with an item is left out |
| Bill.OfMemberAre | src/modules/table-sessions/table-session.service.js:669-672 | a member's items are exactly those under that name |
| Conversation.AnyConversation | src/modules/whatsapp-automation/automation.service.js:33-294 | every conversation, from its first message on: the cart, address and confirm states have a non-empty cart, the confirm state an address, the product state a category, and the cart lists each product once with exactly the number of times it was chosen since the last reset, reopening or successful order |
| Conversation.PicksChangeOnlyBy | src/modules/whatsapp-automation/automation.service.js:149-269 | the recorded choices only grow by the product whose number the customer sent, and start over only on a reset, a reopening or a placed order |
| Conversation.AgentPausesBot | src/modules/whatsapp-automation/automation.service.js:73-82 | while an agent is awaited, over any messages without a reset word and until staff close it, nothing in the conversation changes |
| Conversation.StartsOver | src/modules/whatsapp-automation/automation.service.js:48-71 | a reset word always starts the conversation over, and any message does after staff closed it |
| Conversation.WordsDo | src/modules/whatsapp-automation/automation.service.js:86-108 | the words understood in every state, first come first: the menu needs a category, the cart and the question for the address a filled cart; nothing else changes |
| Conversation.NumbersChoose | src/modules/whatsapp-automation/automation.service.js:110-184 | a number chooses the category or product in that place, counted from one, and a product raises its own quantity by one and no other |
| Conversation.DigitsDo | src/modules/whatsapp-automation/automation.service.js:271-294 | where no choice, address or confirmation is waited for, the digits of the welcome text do what it says and any other plain text nothing |
| Conversation.StaffDo | src/modules/whatsapp-automation/automation.service.js:438-451 | staff may take a conversation over or close it in any state and change nothing else of it |
| Conversation.AddressTaken | src/modules/whatsapp-automation/automation.service.js:186-191 | any plain text is taken as the address when it was asked for |
| Conversation.ConfirmPlaces | src/modules/whatsapp-automation/automation.service.js:208-269 | confirming empties the cart and starts over exactly when there is something in it, a branch, and the order service takes the order; otherwise nothing changes |

## Left out

- InterleavedSessions.RunKeepsSys: the check of a session call is one step and its writes are another;
  what happens between two writes of one call (a submission has three, a rejection and a closing
  too) is not modelled. A rejection or a closing that meets the lock of a confirmation waits as a
  whole, although its first statement may already have run.
- InterleavedSessions.HeldSessionStays: in the program the unlinking statement of a rejection does not
  wait for the lock, only its delete does.
- StaleWrites.PaySettlesIff: its runs are made of undivided calls. After a late rejection a session may
  still bill an order it no longer has a round for; InterleavedRules.InterleavedPayment covers that,
  in one direction.
- Interleaving.RunKeepsOrders: a creation is one step there; its own races are those of CreateRace, and
  the two are not composed. Two non-QR creations that both find a table free before either commits
  are therefore not modelled.
- CreateRace.RunKeepsInv: the start number and the date key are fixed for the run.
- Repository.OrderRepository.CreateOrderInClient: order rows carry no number there; that another
  request has taken it is given by `raced`. When that happens is proved in CreateRace.
- Repository.OrderRepository.CreateOrderTransaction: the orders of the rivals are given, and each is
  committed as a whole between the number read and the insert of the attempt it beats.
- OrderService.Service.CreateOrder: the status and payment status of a payload are the defaults,
  since the validation schemas drop those fields; permissions and the lookup of a named customer are
  answers given from outside, and the customer that is created for an unknown phone number is left
  out.
- TableSessionService.Service.StartSession: the in-process map of starts under way is not modelled;
  the unique index does the work.
- Webhook.Inbox.HandleInbound: deliveries run one after the other; delivery-status updates of
  outgoing messages are only a place where a delivery can fail.
- Lockout.GuessingTakesTime: join attempts run one after the other; two at once may both count as one.
- SingleFlight.Cache.Leave: an outcome stands for a value or an error; freshness of the cached value
  against the database and Redis itself are not modelled.
- Addresses.AddressBook.UpdateAddress: the calls on one customer run one after the other, although each
  reads its address before its transaction; the columns other than the default flag, and a customer
  that does not exist, are left out.
- Conversation.Bot.HandleInboundMessage: a message is given by what the bot finds in it; the keyword
  lists, the texts sent back, the inbox records and the limits of 20 on menu queries are left out.
- Idempotency keys, order notes and addresses, modifier snapshots on lines, product names, member
  tokens, waiter calls and PIN regeneration: no effect on the properties above.
- A `FAILED` payment status exists in the schema; no modelled call sets it.
- Administrative edits of tables, menus, branches, roles and employees, dashboards, pagination,
  notifications, audit log and socket events: single steps without properties of their own.
- Floating point: amounts are whole cents and percentages exact.
- Read anomalies of the database below the steps named here.
