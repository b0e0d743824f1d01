/** The tables of the database and the order transactions as they run: statement by statement
    over rows updated in place, with a rollback where a transaction throws
    (src/modules/orders/order.repository.js, src/modules/coupons/coupon.service.js:165-187). */
module Repository {
  import opened Data
  import opened OrderTx
  import Coupons

  class Database {
    var orders: seq<Order>
    var coupons: seq<Coupon>
    var tables: seq<Table>
    var sessions: seq<Session>

    function State(): Db
      reads this
    {
      Db(orders, coupons, tables, sessions)
    }

    constructor (tables: seq<Table>)
      ensures State() == Db([], [], tables, [])
    {
      orders, coupons, sessions := [], [], [];
      this.tables := tables;
    }

    /** What a throw inside a transaction does. */
    method Rollback(saved: Db)
      modifies this
      ensures State() == saved
    {
      orders, coupons, tables, sessions := saved.orders, saved.coupons, saved.tables, saved.sessions;
    }

    method SetTableStatus(t: nat, status: TableStatus)
      modifies this`tables
      ensures tables == SetTable(old(tables), Some(t), status)
    {
      if t < |tables| && !tables[t].deleted {
        tables := tables[t := tables[t].(status := status)];
      }
    }

    method AddHistory(id: nat, change: Change)
      requires id < |orders|
      modifies this`orders
      ensures orders == old(orders)[id := old(orders)[id].(history := old(orders)[id].history + [change])]
    {
      orders := orders[id := orders[id].(history := orders[id].history + [change])];
    }
  }

  /** The state a transaction leaves: its result, or the state before when it throws. */
  function Settled(before: Db, tx: Result<Db>): Db {
    match tx case Ok(d) => d case Err(_) => before
  }

  predicate Matches<T>(r: Result<T>, tx: Result<Db>) {
    match tx case Ok(_) => r.Ok? case Err(e) => r == Err(e)
  }

  /** A creation is never refused for its number: only an insert can be. */
  lemma NumberIsFree(db: Db, p: NewOrder, lines: seq<Line>, now: int)
    ensures CreateTx(db, p, lines, now) != Err(UniqueViolation)
  {
  }

  class OrderRepository {
    const db: Database

    constructor (db: Database)
      ensures this.db == db
    {
      this.db := db;
    }

    /** applyCouponForOrderInTransaction */
    method ApplyCoupon(c: nat, subtotal: nat, lines: seq<Line>, now: int) returns (r: Result<nat>)
      modifies db`coupons
      ensures match UseCoupon(old(db.coupons), c, subtotal, lines, now)
              case Ok(used) => r == Ok(used.1) && db.coupons == used.0
              case Err(e) => r == Err(e) && db.coupons == old(db.coupons)
    {
      if c >= |db.coupons| {
        return Err(NotFound);
      }
      r := Coupons.ValidateCoupon(db.coupons[c], subtotal, lines, now);
      if r.Ok? {
        db.coupons := db.coupons[c := db.coupons[c].(timesUsed := db.coupons[c].timesUsed + 1)];
      }
    }

    /** createOrderInClient. `raced` says that another request has taken the order number, so
        that the insert violates the unique key after the coupon was already charged. */
    method CreateOrderInClient(p: NewOrder, lines: seq<Line>, now: int, raced: bool) returns (r: Result<nat>)
      modifies db
      ensures !raced ==> db.State() == Settled(old(db.State()), CreateTx(old(db.State()), p, lines, now))
      ensures !raced ==> Matches(r, CreateTx(old(db.State()), p, lines, now))
      ensures raced ==>
                r == match CreateTx(old(db.State()), p, lines, now)
                     case Ok(_) => Err(UniqueViolation)
                     case Err(e) => Err(e)
      ensures r.Ok? ==> r.value == |old(db.orders)|
    {
      if p.table.Some? && !p.source.Qr? {
        if TableBusy(db.orders, p.table.value) {
          return Err(BusinessRule);
        }
      }
      var discount := p.discount;
      if p.coupon.Some? {
        var applied := ApplyCoupon(p.coupon.value, p.subtotal, lines, now);
        if applied.Err? {
          return Err(applied.error);
        }
        discount := applied.value;
      }
      var total := if p.subtotal < discount then 0 else p.subtotal - discount;
      if raced {
        return Err(UniqueViolation);
      }
      var id := |db.orders|;
      db.orders := db.orders + [Order(p.source, p.kind, p.status, Unpaid, p.table, p.coupon, [], p.subtotal, discount,
          total, 1, [])];
      db.orders := db.orders[id := db.orders[id].(lines := lines)];
      if p.table.Some? {
        db.SetTableStatus(p.table.value, Occupied);
      }
      db.AddHistory(id, Change(None, p.status));
      assert [] + [Change(None, p.status)] == [Change(None, p.status)];
      assert db.orders == old(db.orders) + [NewRow(p, lines, discount)];
      r := Ok(id);
    }

    /** createOrderTransaction: three attempts, each rolled back when a rival's commit has taken its
        number. The orders of the rivals stand, and what this request leaves is that of one
        undisturbed creation after them; if it lost every attempt, or is refused, it leaves
        nothing of its own. */
    method CreateOrderTransaction(p: NewOrder, lines: seq<Line>, now: int, rivals: nat -> Option<Rival>)
        returns (r: Result<nat>)
      modifies db
      ensures var k := LostAttempts(old(db.State()), p, lines, now, rivals, 0);
              var at := Outrun(old(db.State()), rivals, k);
              && (k >= MAX_RETRIES ==> db.State() == at && r == Err(UniqueViolation))
              && (k < MAX_RETRIES ==>
                    db.State() == Settled(at, CreateTx(at, p, lines, now)) && Matches(r, CreateTx(at, p, lines, now)))
              && (r.Ok? ==> r.value == |at.orders|)
    {
      hide CreateTx;
      ghost var start := db.State();
      var saved := db.State();
      var attempt := 0;
      while true
        invariant 0 <= attempt < MAX_RETRIES && db.State() == saved == Outrun(start, rivals, attempt)
        invariant LostAttempts(start, p, lines, now, rivals, 0) == LostAttempts(start, p, lines, now, rivals, attempt)
        decreases MAX_RETRIES - attempt
      {
        var rival := rivals(attempt);
        var raced := rival.Some? && CreateTx(saved, rival.value.order, rival.value.lines, rival.value.now).Ok?;
        NumberIsFree(saved, p, lines, now);
        r := CreateOrderInClient(p, lines, now, raced);
        if r.Ok? {
          return;
        }
        db.Rollback(saved);
        if !r.error.UniqueViolation? {
          return;
        }
        var _ := CreateOrderInClient(rival.value.order, rival.value.lines, rival.value.now, false);
        saved := db.State();
        if attempt < MAX_RETRIES - 1 {
          attempt := attempt + 1;
        } else {
          return;
        }
      }
    }

    /** appendItemsToOrder */
    method AppendItemsToOrder(id: nat, lines: seq<Line>) returns (r: Result<nat>)
      modifies db
      ensures db.State() == Settled(old(db.State()), AppendTx(old(db.State()), id, lines))
      ensures Matches(r, AppendTx(old(db.State()), id, lines)) && (r.Ok? ==> r.value == id)
    {
      if id >= |db.orders| {
        return Err(NotFound);
      }
      var order := db.orders[id];
      if !order.payment.Unpaid? {
        return Err(BusinessRule);
      }
      if !Active(order.status) {
        return Err(BusinessRule);
      }
      db.orders := db.orders[id := db.orders[id].(lines := db.orders[id].lines + lines)];
      var newSubtotal := order.subtotal + Sum(lines);
      var newTotal := if newSubtotal < order.discount then 0 else newSubtotal - order.discount;
      // Inside one transaction the row is still the one read above, so the compare-and-set on
      // its version, payment and status takes effect.
      db.orders := db.orders[id := db.orders[id].(subtotal := newSubtotal, total := newTotal,
          version := order.version + 1)];
      db.AddHistory(id, Change(Some(order.status), order.status));
      r := Ok(id);
    }

    /** The table of an order is freed unless another active order sits on it. */
    method ReleaseTable(id: nat)
      requires id < |db.orders|
      modifies db`tables
      ensures db.tables == FreeTable(old(db.State()), id)
    {
      var t := db.orders[id].table;
      if t.Some? {
        if !OtherActive(db.orders, t.value, id) {
          db.SetTableStatus(t.value, Available);
        }
      }
    }

    /** updateOrderStatusWithHistoryTransaction */
    method UpdateOrderStatus(id: nat, expected: nat, current: Status, next: Status) returns (r: Result<nat>)
      modifies db
      ensures db.State() == Settled(old(db.State()), StatusTx(old(db.State()), id, expected, current, next))
      ensures Matches(r, StatusTx(old(db.State()), id, expected, current, next))
    {
      if id >= |db.orders| || db.orders[id].version != expected {
        return Err(Conflict);
      }
      db.orders := db.orders[id := db.orders[id].(status := next, version := expected + 1)];
      db.AddHistory(id, Change(Some(current), next));
      assert db.orders == old(db.orders)[id := Moved(old(db.orders)[id], current, next)];
      if next.Delivered? || next.Cancelled? {
        var c := db.orders[id].coupon;
        if next.Cancelled? && c.Some? {
          if c.value < |db.coupons| && db.coupons[c.value].timesUsed > 0 {
            db.coupons := db.coupons[c.value := db.coupons[c.value].(timesUsed := db.coupons[c.value].timesUsed - 1)];
          }
        }
        ReleaseTable(id);
      }
      r := Ok(id);
    }

    /** updateOrderPaymentWithHistoryTransaction */
    method UpdateOrderPayment(id: nat, expected: nat) returns (r: Result<nat>)
      modifies db
      ensures db.State() == Settled(old(db.State()), PayTx(old(db.State()), id, expected))
      ensures Matches(r, PayTx(old(db.State()), id, expected))
    {
      if id >= |db.orders| || db.orders[id].version != expected || !db.orders[id].payment.Unpaid? {
        return Err(Conflict);
      }
      var before := db.orders[id];
      db.orders := db.orders[id := before.(payment := Paid, version := expected + 1)];
      db.AddHistory(id, Change(Some(before.status), before.status));
      assert db.orders == old(db.orders)[id := WithPayment(before, Paid)];
      if before.table.Some? && before.status.Delivered? {
        ReleaseTable(id);
      }
      r := Ok(id);
    }

    /** updateOrderRefundWithHistoryTransaction */
    method UpdateOrderRefund(id: nat, expected: nat) returns (r: Result<nat>)
      modifies db
      ensures db.State() == Settled(old(db.State()), RefundTx(old(db.State()), id, expected))
      ensures Matches(r, RefundTx(old(db.State()), id, expected))
    {
      if id >= |db.orders| || db.orders[id].version != expected {
        return Err(Conflict);
      }
      var before := db.orders[id];
      db.orders := db.orders[id := before.(payment := Refunded, version := expected + 1)];
      db.AddHistory(id, Change(Some(before.status), before.status));
      r := Ok(id);
    }
  }
}
