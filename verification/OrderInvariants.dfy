/** What every order transaction keeps: the history chain, the money of each order, the
    coupon ledger and the use of tables; and how an order may change over time. */
module OrderInvariants {
  import opened Data
  import opened OrderTx
  import Coupons

  // ---- One order ----

  /** A change the service allows: a valid transition, or a cancellation of a live order. */
  predicate LegalChange(from: Status, to: Status, kind: Kind) {
    ValidTransition(from, to, kind) || (to.Cancelled? && !Terminal(from))
  }

  /** An order begins pending or, when a session creates it, confirmed. */
  predicate Starts(s: Status) { s.Pending? || s.Confirmed? }

  /** The history starts with the creation and every row starts where the last one ended. */
  ghost predicate HistoryOk(h: seq<Change>, kind: Kind) {
    && |h| > 0 && h[0].from.None? && Starts(h[0].to)
    && forall i :: 1 <= i < |h| ==> h[i].from == Some(h[i - 1].to) && LegalChange(h[i - 1].to, h[i].to, kind)
  }

  /** What there is to pay: the subtotal less the discount, and never less than nothing. */
  ghost predicate MoneyOk(o: Order) {
    && o.subtotal == Sum(o.lines)
    && (o.discount <= o.subtotal ==> o.total + o.discount == o.subtotal)
    && (o.subtotal < o.discount ==> o.total == 0)
  }

  ghost predicate OrderOk(o: Order) {
    && HistoryOk(o.history, o.kind)
    && o.version == |o.history|
    && o.history[|o.history| - 1].to == o.status
    && MoneyOk(o)
  }

  function PaymentRank(p: Payment): nat {
    match p case Unpaid => 0 case Paid => 1 case Refunded => 2
  }

  /** How an order may differ from an earlier self. */
  ghost predicate Evolves(o: Order, o': Order) {
    && o.version <= o'.version
    && (o.version == o'.version ==> o == o')
    && o'.source == o.source && o'.kind == o.kind && o'.table == o.table
    && o'.coupon == o.coupon && o'.discount == o.discount
    && o.history <= o'.history
    && o.lines <= o'.lines
    && PaymentRank(o.payment) <= PaymentRank(o'.payment)
    && (Terminal(o.status) ==> o'.status == o.status)
    && (!Active(o.status) ==> !Active(o'.status))
    && (!Appendable(o) ==> !Appendable(o') && o'.lines == o.lines && o'.subtotal == o.subtotal && o'.total == o.total)
  }

  lemma EvolvesTransitive(a: Order, b: Order, c: Order)
    requires Evolves(a, b) && Evolves(b, c)
    ensures Evolves(a, c)
  {
  }

  /** An order's row after one transaction, with what the transaction may have changed. */
  lemma AppendedRow(o: Order, lines: seq<Line>)
    requires OrderOk(o) && Appendable(o)
    ensures OrderOk(WithLines(o, lines)) && Evolves(o, WithLines(o, lines))
  {
    SumConcat(o.lines, lines);
  }

  lemma MovedRow(o: Order, to: Status)
    requires OrderOk(o) && LegalChange(o.status, to, o.kind)
    ensures OrderOk(Moved(o, o.status, to)) && Evolves(o, Moved(o, o.status, to))
  {
  }

  lemma PaidRow(o: Order, p: Payment)
    requires OrderOk(o) && PaymentRank(o.payment) < PaymentRank(p)
    ensures OrderOk(WithPayment(o, p)) && Evolves(o, WithPayment(o, p))
  {
  }

  // ---- The way of an order ----

  /** The status an order must have had before this one. */
  function Before(s: Status, kind: Kind): Option<Status> {
    match s
    case Preparing => Some(Confirmed)
    case Ready => Some(Preparing)
    case OutForDelivery => Some(Ready)
    case Delivered => Some(if kind.Delivery? then OutForDelivery else Ready)
    case _ => None
  }

  /** Every stage of an order was reached through the one before it: none was skipped, only a
      delivery ever goes out, and a cancelled order stays cancelled. */
  lemma {:induction false} NoStageSkipped(h: seq<Change>, kind: Kind, i: nat)
    requires HistoryOk(h, kind) && i < |h|
    ensures Before(h[i].to, kind).Some? ==> exists j :: 0 <= j < i && h[j].to == Before(h[i].to, kind).value
    ensures h[i].to.OutForDelivery? ==> kind.Delivery?
    ensures i > 0 && h[i - 1].to.Cancelled? ==> h[i].to.Cancelled?
  {
    if i > 0 {
      NoStageSkipped(h, kind, i - 1);
      assert LegalChange(h[i - 1].to, h[i].to, kind);
      if h[i].to != h[i - 1].to && Before(h[i].to, kind).Some? {
        assert h[i - 1].to == Before(h[i].to, kind).value;
      }
    }
  }

  // ---- What each transaction is for ----

  /** An accepted request changes one order, by one version, to what was asked for. */
  lemma RequestEffect(db: Db, r: Request)
    requires CallTx(db, r).Ok?
    ensures r.id < |db.orders| && r.expected == db.orders[r.id].version
    ensures var o, o', db' := db.orders[r.id], CallTx(db, r).value.orders[r.id], CallTx(db, r).value;
            && |db'.orders| == |db.orders|
            && (forall i :: 0 <= i < |db.orders| && i != r.id ==> db'.orders[i] == db.orders[i])
            && o'.version == o.version + 1 && o'.lines == o.lines && o'.total == o.total
            && (r.SetStatus? ==> o'.status == r.next && !r.next.Cancelled? && o'.payment == o.payment)
            && (r.Cancel? ==> o'.status.Cancelled? && !Terminal(o.status) && o'.payment == o.payment)
            && (r.Pay? ==> o.payment.Unpaid? && o'.payment.Paid? && o'.status == o.status && r.amount == o.total)
            && (r.Refund? ==> o.payment.Paid? && o'.payment.Refunded? && o'.status == o.status)
  {
  }

  /** A created order is as asked for, unpaid, at version 1 and after all others; its table, if
      it is a live one, is occupied. */
  lemma CreateEffect(db: Db, p: NewOrder, lines: seq<Line>, now: int)
    requires CreateTx(db, p, lines, now).Ok?
    ensures var db' := CreateTx(db, p, lines, now).value;
            && |db'.orders| == |db.orders| + 1 && db'.orders[..|db.orders|] == db.orders
            && (var o := db'.orders[|db.orders|];
                && o.status == p.status && o.payment.Unpaid? && o.version == 1
                && o.source == p.source && o.kind == p.kind && o.table == p.table && o.coupon == p.coupon
                && o.lines == lines && o.subtotal == p.subtotal
                && (p.coupon.None? ==> o.discount == p.discount && db'.coupons == db.coupons)
                && (p.coupon.Some? ==> p.coupon.value < |db.coupons|)
                && (p.coupon.Some? ==>
                      Coupons.ValidateCoupon(db.coupons[p.coupon.value], p.subtotal, lines, now) == Ok(o.discount)))
            && (p.table.Some? && p.table.value < |db.tables| && !db.tables[p.table.value].deleted ==>
                  db'.tables[p.table.value].status.Occupied?)
  {
  }

  // ---- All orders ----

  ghost predicate OrdersOk(orders: seq<Order>) {
    forall i :: 0 <= i < |orders| ==> OrderOk(orders[i])
  }

  ghost predicate OrdersEvolve(orders: seq<Order>, orders': seq<Order>) {
    && |orders| <= |orders'|
    && forall i :: 0 <= i < |orders| ==> Evolves(orders[i], orders'[i])
  }

  lemma OrdersEvolveSelf(orders: seq<Order>)
    ensures OrdersEvolve(orders, orders)
  {
  }

  lemma OrdersEvolveTransitive(a: seq<Order>, b: seq<Order>, c: seq<Order>)
    requires OrdersEvolve(a, b) && OrdersEvolve(b, c)
    ensures OrdersEvolve(a, c)
  {
    forall i | 0 <= i < |a| ensures Evolves(a[i], c[i]) {
      EvolvesTransitive(a[i], b[i], c[i]);
    }
  }

  /** The row that a request leaves behind. */
  lemma CalledRow(db: Db, r: Request)
    requires OrdersOk(db.orders) && CallTx(db, r).Ok?
    ensures r.id < |db.orders|
    ensures var db' := CallTx(db, r).value;
            && |db'.orders| == |db.orders|
            && db'.sessions == db.sessions
            && db'.orders == db.orders[r.id := db'.orders[r.id]]
            && OrderOk(db'.orders[r.id]) && Evolves(db.orders[r.id], db'.orders[r.id])
            && db'.orders[r.id].lines == db.orders[r.id].lines
            && db'.orders[r.id].version == db.orders[r.id].version + 1
  {
    var o := db.orders[r.id];
    match r
    case SetStatus(_, _, next) => MovedRow(o, next);
    case Cancel(_, _) => MovedRow(o, Cancelled);
    case Pay(_, _, _) => PaidRow(o, Paid);
    case Refund(_, _) => PaidRow(o, Refunded);
  }

  lemma CallKeepsOrders(db: Db, r: Request)
    requires OrdersOk(db.orders) && CallTx(db, r).Ok?
    ensures OrdersOk(CallTx(db, r).value.orders) && OrdersEvolve(db.orders, CallTx(db, r).value.orders)
  {
    CalledRow(db, r);
  }

  lemma AppendKeepsOrders(db: Db, id: nat, lines: seq<Line>)
    requires OrdersOk(db.orders) && AppendTx(db, id, lines).Ok?
    ensures OrdersOk(AppendTx(db, id, lines).value.orders) &&
        OrdersEvolve(db.orders, AppendTx(db, id, lines).value.orders)
  {
    AppendedRow(db.orders[id], lines);
  }

  lemma CreateKeepsOrders(db: Db, p: NewOrder, lines: seq<Line>, now: int)
    requires OrdersOk(db.orders) && CreateTx(db, p, lines, now).Ok? && p.subtotal == Sum(lines) && Starts(p.status)
    ensures OrdersOk(CreateTx(db, p, lines, now).value.orders) &&
        OrdersEvolve(db.orders, CreateTx(db, p, lines, now).value.orders)
  {
  }

  // ---- The coupon ledger ----

  predicate Carries(o: Order, c: nat) {
    o.coupon == Some(c) && !o.status.Cancelled?
  }

  /** How many orders that were not cancelled carry the coupon. */
  function Uses(orders: seq<Order>, c: nat): nat {
    if orders == [] then 0
    else Uses(orders[..|orders| - 1], c) + if Carries(orders[|orders| - 1], c) then 1 else 0
  }

  lemma {:induction false} UsesAfterUpdate(orders: seq<Order>, i: nat, o: Order, c: nat)
    requires i < |orders|
    ensures Uses(orders[i := o], c) + (if Carries(orders[i], c) then 1 else 0)
         == Uses(orders, c) + (if Carries(o, c) then 1 else 0)
  {
    var last := |orders| - 1;
    if i == last {
      assert orders[i := o][..last] == orders[..last];
    } else {
      assert orders[i := o][..last] == orders[..last][i := o];
      UsesAfterUpdate(orders[..last], i, o, c);
    }
  }

  lemma {:induction false} CarrierCounts(orders: seq<Order>, i: nat, c: nat)
    requires i < |orders| && Carries(orders[i], c)
    ensures Uses(orders, c) >= 1
  {
    if i < |orders| - 1 {
      CarrierCounts(orders[..|orders| - 1], i, c);
    }
  }

  ghost predicate LedgerOk(db: Db) {
    forall c :: 0 <= c < |db.coupons| ==> db.coupons[c].timesUsed == Uses(db.orders, c)
  }

  /** No coupon is used more often than its limit allows. */
  ghost predicate WithinLimits(coupons: seq<Coupon>) {
    forall c :: 0 <= c < |coupons| && coupons[c].usageLimit.Some? ==>
        coupons[c].timesUsed <= coupons[c].usageLimit.value
  }

  lemma CreateKeepsLedger(db: Db, p: NewOrder, lines: seq<Line>, now: int)
    requires LedgerOk(db) && CreateTx(db, p, lines, now).Ok? && !p.status.Cancelled?
    ensures LedgerOk(CreateTx(db, p, lines, now).value)
    ensures WithinLimits(db.coupons) ==> WithinLimits(CreateTx(db, p, lines, now).value.coupons)
  {
    var db' := CreateTx(db, p, lines, now).value;
    assert db'.orders[..|db.orders|] == db.orders;
  }

  /** Cancelling gives back the one use the order had, so the guard against going below zero
      never stops it; no other request touches the ledger. */
  lemma CallKeepsLedger(db: Db, r: Request)
    requires LedgerOk(db) && OrdersOk(db.orders) && CallTx(db, r).Ok?
    ensures LedgerOk(CallTx(db, r).value)
    ensures WithinLimits(db.coupons) ==> WithinLimits(CallTx(db, r).value.coupons)
  {
    hide OrderOk, HistoryOk;
    var db' := CallTx(db, r).value;
    CalledRow(db, r);
    forall c | 0 <= c < |db.coupons| ensures db'.coupons[c].timesUsed == Uses(db'.orders, c) {
      UsesAfterUpdate(db.orders, r.id, db'.orders[r.id], c);
    }
  }

  /** A cancelled order always gives its use back. */
  lemma CancelReturnsUse(db: Db, id: nat, expected: nat)
    requires LedgerOk(db) && CallTx(db, Cancel(id, expected)).Ok?
    ensures id < |db.orders|
    ensures var c := db.orders[id].coupon;
            c.Some? && c.value < |db.coupons| ==>
              db.coupons[c.value].timesUsed == CallTx(db, Cancel(id, expected)).value.coupons[c.value].timesUsed + 1
  {
    var c := db.orders[id].coupon;
    if c.Some? {
      CarrierCounts(db.orders, id, c.value);
    }
  }

  lemma AppendKeepsLedger(db: Db, id: nat, lines: seq<Line>)
    requires LedgerOk(db) && AppendTx(db, id, lines).Ok?
    ensures LedgerOk(AppendTx(db, id, lines).value)
  {
    forall c | 0 <= c < |db.coupons| ensures db.coupons[c].timesUsed == Uses(AppendTx(db, id, lines).value.orders, c) {
      UsesAfterUpdate(db.orders, id, WithLines(db.orders[id], lines), c);
    }
  }

  // ---- Tables ----

  predicate Sits(o: Order, t: nat) {
    o.table == Some(t) && Active(o.status)
  }

  /** A live table that an active order sits on is occupied. */
  ghost predicate OccupiedOk(db: Db) {
    forall i, t :: 0 <= i < |db.orders| && 0 <= t < |db.tables| && !db.tables[t].deleted && Sits(db.orders[i], t)
      ==> db.tables[t].status.Occupied?
  }

  /** No table has two active orders that did not come from a QR code. */
  ghost predicate OneOrderPerTable(orders: seq<Order>) {
    forall i, j, t :: 0 <= i < j < |orders| && Sits(orders[i], t) && Sits(orders[j], t)
      ==> orders[i].source.Qr? || orders[j].source.Qr?
  }

  lemma CreateKeepsTables(db: Db, p: NewOrder, lines: seq<Line>, now: int)
    requires CreateTx(db, p, lines, now).Ok?
    ensures OccupiedOk(db) ==> OccupiedOk(CreateTx(db, p, lines, now).value)
    ensures OneOrderPerTable(db.orders) ==> OneOrderPerTable(CreateTx(db, p, lines, now).value.orders)
  {
  }

  lemma CallKeepsOccupied(db: Db, r: Request)
    requires OrdersOk(db.orders) && CallTx(db, r).Ok? && OccupiedOk(db)
    ensures OccupiedOk(CallTx(db, r).value)
  {
    hide OrderOk, HistoryOk;
    CalledRow(db, r);
  }

  lemma CallKeepsOneOrder(db: Db, r: Request)
    requires OrdersOk(db.orders) && CallTx(db, r).Ok? && OneOrderPerTable(db.orders)
    ensures OneOrderPerTable(CallTx(db, r).value.orders)
  {
    hide OrderOk, HistoryOk, CallTx;
    CalledRow(db, r);
  }

  lemma AppendKeepsTables(db: Db, id: nat, lines: seq<Line>)
    requires AppendTx(db, id, lines).Ok?
    ensures OccupiedOk(db) ==> OccupiedOk(AppendTx(db, id, lines).value)
    ensures OneOrderPerTable(db.orders) ==> OneOrderPerTable(AppendTx(db, id, lines).value.orders)
  {
  }
}
