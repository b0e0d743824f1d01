/** The calls of the order service that read an order, check it and write
    (src/modules/orders/order.service.js), and the creation of an order from a payload. */
module OrderService {
  import opened Data
  import opened OrderTx
  import opened OrderInvariants
  import opened System
  import opened Repository
  import Pricing

  /** What the caller may do, and whether the customer the payload names exists. */
  datatype Gate = Gate(maySell: bool, knownCustomer: bool, mayDiscount: bool)

  /** Why a payload is refused before the transaction, if it is. */
  ghost function Refusal(db: Db, p: NewOrder, gate: Gate, items: seq<Pricing.ItemInput>,
      menu: map<nat, nat>): Option<Error> {
    if !gate.maySell then Some(Forbidden)
    else if !gate.knownCustomer then Some(NotFound)
    else if p.table.Some? && (p.table.value >= |db.tables| || db.tables[p.table.value].deleted) then Some(NotFound)
    else if exists i :: 0 <= i < |items| && items[i].product !in menu then Some(NotFound)
    else if p.coupon.None? && p.discount > 0 && !gate.mayDiscount then Some(Forbidden)
    else None
  }

  /** Exactly when a payload gets as far as the transaction: the caller may use the source, the
      customer it names exists, its table is a live one, every product can be had, and a discount
      beside no coupon may be given by hand. It is forbidden, not missing, only for a permission. */
  lemma GoesAheadIff(db: Db, p: NewOrder, gate: Gate, items: seq<Pricing.ItemInput>, menu: map<nat, nat>)
    ensures Refusal(db, p, gate, items, menu).None?
       <==> && gate.maySell && gate.knownCustomer
            && (p.table.Some? ==> p.table.value < |db.tables| && !db.tables[p.table.value].deleted)
            && (forall i :: 0 <= i < |items| ==> items[i].product in menu)
            && (p.coupon.Some? || p.discount == 0 || gate.mayDiscount)
    ensures Refusal(db, p, gate, items, menu) == Some(Forbidden) ==> !gate.maySell || !gate.mayDiscount
    ensures Refusal(db, p, gate, items, menu).Some? ==>
              Refusal(db, p, gate, items, menu).value in {Forbidden, NotFound}
  {
  }

  lemma {:induction false} OutrunKeepsTables(db: Db, rivals: nat -> Option<Rival>, n: nat)
    ensures |Outrun(db, rivals, n).tables| == |db.tables|
    ensures forall t :: 0 <= t < |db.tables| ==> Outrun(db, rivals, n).tables[t].deleted == db.tables[t].deleted
  {
    if n > 0 {
      OutrunKeepsTables(db, rivals, n - 1);
    }
  }

  /** The rivals' orders keep orders and coupons right, so a creation that lost its number left no
      coupon use behind. */
  lemma {:induction false} OutrunKeepsBooks(db: Db, rivals: nat -> Option<Rival>, n: nat)
    requires Books(db)
    requires forall i :: 0 <= i < n && rivals(i).Some? ==>
               Starts(rivals(i).value.order.status) && rivals(i).value.order.subtotal == Sum(rivals(i).value.lines)
    ensures Books(Outrun(db, rivals, n)) && OrdersEvolve(db.orders, Outrun(db, rivals, n).orders)
  {
    hide Books, OrdersEvolve;
    if n == 0 {
      OrdersEvolveSelf(db.orders);
    } else {
      OutrunKeepsBooks(db, rivals, n - 1);
      var before, rival := Outrun(db, rivals, n - 1), rivals(n - 1);
      if rival.Some? && CreateTx(before, rival.value.order, rival.value.lines, rival.value.now).Ok? {
        CreateBooks(before, rival.value.order, rival.value.lines, rival.value.now);
        OrdersEvolveTransitive(db.orders, before.orders, Outrun(db, rivals, n).orders);
      }
    }
  }

  class Service {
    const db: Database
    const repository: OrderRepository

    ghost predicate Valid() {
      repository.db == db
    }

    constructor (repository: OrderRepository)
      ensures Valid() && this.repository == repository
    {
      this.db := repository.db;
      this.repository := repository;
    }

    /** createOrder: the permission for the source, the customer, the table, the prices, the
        permission for a discount by hand, then the transaction. `rivals` are the orders that others
        commit with the number this request had read. */
    method CreateOrder(p: NewOrder, gate: Gate, items: seq<Pricing.ItemInput>,
                       findProducts: set<nat> -> seq<Pricing.ProductRow>,
                       findModifiers: set<nat> -> seq<Pricing.ModifierRow>,
                       now: int, rivals: nat -> Option<Rival>,
                       ghost menu: map<nat, nat>, ghost mods: map<nat, Pricing.ModifierRow>)
      returns (r: Result<nat>, lines: seq<Line>)
      requires Valid() && Pricing.KeyedById(mods)
      requires forall ids :: Pricing.ProductAnswer(findProducts(ids), menu, ids)
      requires forall ids :: Pricing.ModifierAnswer(findModifiers(ids), mods, ids)
      modifies db
      ensures Refusal(old(db.State()), p, gate, items, menu).Some? ==>
                r == Err(Refusal(old(db.State()), p, gate, items, menu).value) && db.State() == old(db.State())
      ensures Refusal(old(db.State()), p, gate, items, menu).None? ==>
                && |lines| == |items|
                && (forall i :: 0 <= i < |items| ==>
                      items[i].product in menu && lines[i] == Pricing.PricedLine(menu, mods, items[i]))
                && (var k := LostAttempts(old(db.State()), p.(status := Pending, subtotal := Sum(lines)), lines, now,
                    rivals, 0);
                    var at := Outrun(old(db.State()), rivals, k);
                    && (k >= MAX_RETRIES ==> db.State() == at && r == Err(UniqueViolation))
                    && (k < MAX_RETRIES ==>
                          db.State() == Do(at, Create(p, lines, now)) && Matches(r, CreateCall(at, p, lines, now)))
                    && (r.Ok? ==> r.value == |at.orders|))
    {
      hide LostAttempts, Outrun, CreateTx, Pricing.PricedLine, Pricing.ProductAnswer, Pricing.ModifierAnswer,
          Pricing.KeyedById;
      lines := [];
      if !gate.maySell {
        return Err(Forbidden), [];
      }
      if !gate.knownCustomer {
        return Err(NotFound), [];
      }
      if p.table.Some? && (p.table.value >= |db.tables| || db.tables[p.table.value].deleted) {
        return Err(NotFound), [];
      }
      var priced, subtotal := Pricing.PriceItems(items, findProducts, findModifiers, menu, mods);
      if priced.Err? {
        return Err(NotFound), [];
      }
      var discount := if p.coupon.Some? then 0 else p.discount;
      if discount > 0 && !gate.mayDiscount {
        return Err(Forbidden), [];
      }
      lines := priced.value;
      ghost var before := db.State();
      r := repository.CreateOrderTransaction(p.(status := Pending, subtotal := subtotal), lines, now, rivals);
      OutrunKeepsTables(before, rivals, LostAttempts(before, p.(status := Pending, subtotal := subtotal), lines, now,
          rivals, 0));
    }

    /** updateOrderStatus */
    method UpdateOrderStatus(id: nat, expected: nat, next: Status) returns (r: Result<nat>)
      requires Valid()
      modifies db
      ensures db.State() == Do(old(db.State()), Call(SetStatus(id, expected, next)))
      ensures if next.Cancelled? then r == Err(BusinessRule)
          else Matches(r, CallTx(old(db.State()), SetStatus(id, expected, next)))
    {
      if next.Cancelled? {
        return Err(BusinessRule);
      }
      if id >= |db.orders| {
        return Err(NotFound);
      }
      var order := db.orders[id];
      if !ValidTransition(order.status, next, order.kind) {
        return Err(BusinessRule);
      }
      r := repository.UpdateOrderStatus(id, expected, order.status, next);
    }

    /** cancelOrder */
    method CancelOrder(id: nat, expected: nat) returns (r: Result<nat>)
      requires Valid()
      modifies db
      ensures db.State() == Do(old(db.State()), Call(Cancel(id, expected)))
      ensures Matches(r, CallTx(old(db.State()), Cancel(id, expected)))
    {
      if id >= |db.orders| {
        return Err(NotFound);
      }
      var order := db.orders[id];
      if order.status.Delivered? || order.status.Cancelled? {
        return Err(BusinessRule);
      }
      r := repository.UpdateOrderStatus(id, expected, order.status, Cancelled);
    }

    /** processOrderPayment; `amount` is in cents. */
    method ProcessPayment(id: nat, expected: nat, amount: nat) returns (r: Result<nat>)
      requires Valid()
      modifies db
      ensures db.State() == Do(old(db.State()), Call(Pay(id, expected, amount)))
      ensures Matches(r, CallTx(old(db.State()), Pay(id, expected, amount)))
    {
      if id >= |db.orders| {
        return Err(NotFound);
      }
      var order := db.orders[id];
      if order.status.Cancelled? || order.payment.Paid? || order.payment.Refunded? || amount != order.total {
        return Err(BusinessRule);
      }
      r := repository.UpdateOrderPayment(id, expected);
    }

    /** processOrderRefund */
    method ProcessRefund(id: nat, expected: nat) returns (r: Result<nat>)
      requires Valid()
      modifies db
      ensures db.State() == Do(old(db.State()), Call(Refund(id, expected)))
      ensures Matches(r, CallTx(old(db.State()), Refund(id, expected)))
    {
      if id >= |db.orders| {
        return Err(NotFound);
      }
      if !db.orders[id].payment.Paid? {
        return Err(BusinessRule);
      }
      r := repository.UpdateOrderRefund(id, expected);
    }
  }
}
