/** What each order transaction does to the database: the service checks of
    src/modules/orders/order.service.js and the transactions of
    src/modules/orders/order.repository.js, as functions from state to state. */
module OrderTx {
  import opened Data
  import Coupons

  predicate Terminal(s: Status) { s.Delivered? || s.Cancelled? }

  predicate Active(s: Status) { s.Pending? || s.Confirmed? || s.Preparing? || s.Ready? }

  predicate Appendable(o: Order) { Active(o.status) && o.payment.Unpaid? }

  /** validateStateTransition */
  predicate ValidTransition(current: Status, next: Status, kind: Kind) {
    || current == next
    || (current.Pending? && next.Confirmed?)
    || (current.Confirmed? && next.Preparing?)
    || (current.Preparing? && next.Ready?)
    || (current.Ready? && next == if kind.Delivery? then OutForDelivery else Delivered)
    || (current.OutForDelivery? && next.Delivered?)
  }

  function PayTotal(subtotal: nat, discount: nat): nat {
    if subtotal < discount then 0 else subtotal - discount
  }

  // ---- Creating an order ----

  datatype NewOrder = NewOrder(source: Source, kind: Kind, status: Status, table: Option<nat>,
                               coupon: Option<nat>, subtotal: nat, discount: nat)

  predicate TableBusy(orders: seq<Order>, t: nat) {
    exists i :: 0 <= i < |orders| && orders[i].table == Some(t) && Active(orders[i].status)
  }

  /** applyCouponForOrderInTransaction: the discount, and the coupon with one more use. */
  function UseCoupon(coupons: seq<Coupon>, c: nat, subtotal: nat, lines: seq<Line>,
      now: int): Result<(seq<Coupon>, nat)> {
    if c >= |coupons| then Err(NotFound)
    else
      match Coupons.ValidateCoupon(coupons[c], subtotal, lines, now)
      case Err(e) => Err(e)
      case Ok(d) => Ok((coupons[c := coupons[c].(timesUsed := coupons[c].timesUsed + 1)], d))
  }

  function Charge(coupons: seq<Coupon>, p: NewOrder, lines: seq<Line>, now: int): Result<(seq<Coupon>, nat)> {
    if p.coupon.Some? then UseCoupon(coupons, p.coupon.value, p.subtotal, lines, now)
    else Ok((coupons, p.discount))
  }

  function SetTable(tables: seq<Table>, t: Option<nat>, status: TableStatus): seq<Table> {
    if t.Some? && t.value < |tables| && !tables[t.value].deleted
    then tables[t.value := tables[t.value].(status := status)]
    else tables
  }

  function NewRow(p: NewOrder, lines: seq<Line>, discount: nat): Order {
    Order(p.source, p.kind, p.status, Unpaid, p.table, p.coupon, lines, p.subtotal, discount,
          PayTotal(p.subtotal, discount), 1, [Change(None, p.status)])
  }

  /** createOrderInClient; the new order gets the id |db.orders|. */
  function CreateTx(db: Db, p: NewOrder, lines: seq<Line>, now: int): Result<Db> {
    if p.table.Some? && !p.source.Qr? && TableBusy(db.orders, p.table.value) then Err(BusinessRule)
    else
      match Charge(db.coupons, p, lines, now)
      case Err(e) => Err(e)
      case Ok(charge) =>
        Ok(db.(orders := db.orders + [NewRow(p, lines, charge.1)],
               coupons := charge.0,
               tables := SetTable(db.tables, p.table, Occupied)))
  }

  // ---- Losing the order number to others ----

  const MAX_RETRIES := 3

  /** An order that another request commits while this one has its number read and not inserted. */
  datatype Rival = Rival(order: NewOrder, lines: seq<Line>, now: int)

  /** The database after the rivals of the first `n` attempts; a rival that is refused commits
      nothing. */
  function Outrun(db: Db, rivals: nat -> Option<Rival>, n: nat): Db {
    if n == 0 then db
    else
      var before := Outrun(db, rivals, n - 1);
      match rivals(n - 1)
      case None => before
      case Some(x) => (match CreateTx(before, x.order, x.lines, x.now) case Ok(d) => d case Err(_) => before)
  }

  predicate Loses(db: Db, rivals: nat -> Option<Rival>, i: nat) {
    var rival := rivals(i);
    rival.Some? && CreateTx(Outrun(db, rivals, i), rival.value.order, rival.value.lines, rival.value.now).Ok?
  }

  /** How many attempts are lost, counting from attempt `i`: an attempt that is refused for
      another reason is the last one. */
  function LostAttempts(db: Db, p: NewOrder, lines: seq<Line>, now: int, rivals: nat -> Option<Rival>, i: nat): nat
    decreases MAX_RETRIES - i
  {
    if i >= MAX_RETRIES || !Loses(db, rivals, i) || CreateTx(Outrun(db, rivals, i), p, lines, now).Err? then i
    else LostAttempts(db, p, lines, now, rivals, i + 1)
  }

  /** The lost attempts are the first ones: each had a rival that took the number from a creation
      that would have gone through; and unless there are three, the next attempt has no such rival
      or is refused. */
  lemma {:induction false} LostAttemptsAre(db: Db, p: NewOrder, lines: seq<Line>, now: int,
      rivals: nat -> Option<Rival>, i: nat)
    requires i <= 3
    ensures var k := LostAttempts(db, p, lines, now, rivals, i);
            && i <= k <= 3
            && (forall j :: i <= j < k ==> Loses(db, rivals, j) && CreateTx(Outrun(db, rivals, j), p, lines, now).Ok?)
            && (k < 3 ==> !Loses(db, rivals, k) || CreateTx(Outrun(db, rivals, k), p, lines, now).Err?)
    decreases 3 - i
  {
    hide CreateTx, Loses, Outrun;
    if i < 3 && Loses(db, rivals, i) && CreateTx(Outrun(db, rivals, i), p, lines, now).Ok? {
      LostAttemptsAre(db, p, lines, now, rivals, i + 1);
    }
  }

  // ---- Adding a round ----

  function WithLines(o: Order, lines: seq<Line>): Order {
    var subtotal := o.subtotal + Sum(lines);
    o.(lines := o.lines + lines, subtotal := subtotal, total := PayTotal(subtotal, o.discount),
       version := o.version + 1, history := o.history + [Change(Some(o.status), o.status)])
  }

  /** appendItemsToOrder */
  function AppendTx(db: Db, id: nat, lines: seq<Line>): Result<Db> {
    if id >= |db.orders| then Err(NotFound)
    else if !Appendable(db.orders[id]) then Err(BusinessRule)
    else Ok(db.(orders := db.orders[id := WithLines(db.orders[id], lines)]))
  }

  // ---- Changing an order ----

  function ReturnCoupon(coupons: seq<Coupon>, c: Option<nat>): seq<Coupon> {
    if c.Some? && c.value < |coupons| && coupons[c.value].timesUsed > 0
    then coupons[c.value := coupons[c.value].(timesUsed := coupons[c.value].timesUsed - 1)]
    else coupons
  }

  predicate OtherActive(orders: seq<Order>, t: nat, id: nat) {
    exists i :: 0 <= i < |orders| && i != id && orders[i].table == Some(t) && Active(orders[i].status)
  }

  /** Frees the order's table unless another active order sits on it. */
  function FreeTable(db: Db, id: nat): seq<Table>
    requires id < |db.orders|
  {
    var t := db.orders[id].table;
    if t.Some? && !OtherActive(db.orders, t.value, id) then SetTable(db.tables, t, Available) else db.tables
  }

  function Moved(o: Order, from: Status, to: Status): Order {
    o.(status := to, version := o.version + 1, history := o.history + [Change(Some(from), to)])
  }

  /** updateOrderStatusWithHistoryTransaction; `current` is the status the service had read. */
  function StatusTx(db: Db, id: nat, expected: nat, current: Status, next: Status): Result<Db> {
    if id >= |db.orders| || db.orders[id].version != expected then Err(Conflict)
    else
      var o := db.orders[id];
      var moved := db.(orders := db.orders[id := Moved(o, current, next)]);
      Ok(moved.(coupons := if next.Cancelled? then ReturnCoupon(db.coupons, o.coupon) else db.coupons,
                tables := if Terminal(next) then FreeTable(moved, id) else db.tables))
  }

  function WithPayment(o: Order, payment: Payment): Order {
    o.(payment := payment, version := o.version + 1, history := o.history + [Change(Some(o.status), o.status)])
  }

  /** updateOrderPaymentWithHistoryTransaction */
  function PayTx(db: Db, id: nat, expected: nat): Result<Db> {
    if id >= |db.orders| || db.orders[id].version != expected || !db.orders[id].payment.Unpaid? then Err(Conflict)
    else
      var o := db.orders[id];
      var paid := db.(orders := db.orders[id := WithPayment(o, Paid)]);
      Ok(paid.(tables := if o.status.Delivered? then FreeTable(paid, id) else db.tables))
  }

  /** updateOrderRefundWithHistoryTransaction */
  function RefundTx(db: Db, id: nat, expected: nat): Result<Db> {
    if id >= |db.orders| || db.orders[id].version != expected then Err(Conflict)
    else Ok(db.(orders := db.orders[id := WithPayment(db.orders[id], Refunded)]))
  }

  // ---- Requests: a read and a check by the service, then a write ----

  datatype Request =
    | SetStatus(id: nat, expected: nat, next: Status)
    | Cancel(id: nat, expected: nat)
    | Pay(id: nat, expected: nat, amount: nat)
    | Refund(id: nat, expected: nat)

  /** What updateOrderStatus, cancelOrder, processOrderPayment and processOrderRefund check
      on the order they have read. */
  predicate Accepts(seen: Order, r: Request) {
    match r
    case SetStatus(_, _, next) => !next.Cancelled? && ValidTransition(seen.status, next, seen.kind)
    case Cancel(_, _) => !Terminal(seen.status)
    case Pay(_, _, amount) => !seen.status.Cancelled? && seen.payment.Unpaid? && amount == seen.total
    case Refund(_, _) => seen.payment.Paid?
  }

  /** The write of a request whose service call had read the order as `seen`. */
  function WriteTx(db: Db, r: Request, seen: Order): Result<Db> {
    match r
    case SetStatus(id, expected, next) => StatusTx(db, id, expected, seen.status, next)
    case Cancel(id, expected) => StatusTx(db, id, expected, seen.status, Cancelled)
    case Pay(id, expected, _) => PayTx(db, id, expected)
    case Refund(id, expected) => RefundTx(db, id, expected)
  }

  /** A request whose read and write nothing separates. */
  function CallTx(db: Db, r: Request): Result<Db> {
    if r.id >= |db.orders| then Err(NotFound)
    else if !Accepts(db.orders[r.id], r) then Err(BusinessRule)
    else WriteTx(db, r, db.orders[r.id])
  }
}
