/** The table-session calls as they run, row by row
    (src/modules/table-sessions/table-session.service.js and table-session.repository.js). */
module TableSessionService {
  import opened Data
  import opened SessionTx
  import opened Repository

  class Service {
    const db: Database
    const orders: OrderRepository

    ghost predicate Valid() {
      orders.db == db
    }

    constructor (orders: OrderRepository)
      ensures Valid() && this.orders == orders
    {
      this.db := orders.db;
      this.orders := orders;
    }

    method SaveSession(sid: nat, s: Session)
      requires sid < |db.sessions|
      modifies db`sessions
      ensures db.sessions == old(db.sessions)[sid := s]
    {
      db.sessions := db.sessions[sid := s];
    }

    /** startSession */
    method StartSession(t: nat) returns (r: Result<nat>)
      modifies db
      ensures db.State() == Settled(old(db.State()), StartTx(old(db.State()), t)) &&
          Matches(r, StartTx(old(db.State()), t))
      ensures r.Ok? ==> r.value == |old(db.sessions)|
    {
      if t >= |db.tables| || db.tables[t].deleted {
        return Err(NotFound);
      }
      if HasOpenSession(db.sessions, t) {
        return Err(BusinessRule);
      }
      var sid := |db.sessions|;
      db.sessions := db.sessions + [Session(t, Open, None, [], [], 0, 0)];
      db.SetTableStatus(t, Occupied);
      r := Ok(sid);
    }

    // ---- The writes, which look at nothing again ----

    /** tableSessionItem.create */
    method WriteItem(sid: nat, product: nat, price: nat, quantity: nat, addedBy: string) returns (id: nat)
      requires sid < |db.sessions|
      modifies db`sessions
      ensures db.sessions == old(db.sessions)[sid := WithItem(old(db.sessions)[sid], product, price, quantity, addedBy)]
      ensures id == old(db.sessions)[sid].nextItem
    {
      var s := db.sessions[sid];
      var item := CartItem(s.nextItem, None, product, price, quantity, addedBy);
      SaveSession(sid, s.(items := s.items + [item], nextItem := s.nextItem + 1));
      id := item.id;
    }

    /** updateItemQuantity, whatever has become of the session since it was read as `seen`. */
    method WriteQuantity(sid: nat, id: nat, quantity: nat, ghost seen: Session)
      requires sid < |db.sessions|
      modifies db
      ensures db.State() == SaveTx(old(db.State()), sid, seen, Changing(UpdateItem(id, quantity)))
    {
      SaveSession(sid, db.sessions[sid].(items := WithQuantity(db.sessions[sid].items, id, quantity)));
    }

    /** deleteItem, likewise. */
    method WriteRemoval(sid: nat, id: nat, ghost seen: Session)
      requires sid < |db.sessions|
      modifies db
      ensures db.State() == SaveTx(old(db.State()), sid, seen, Changing(RemoveItem(id)))
    {
      SaveSession(sid, db.sessions[sid].(items := Without(db.sessions[sid].items, id)));
    }

    /** nextOrderNumber, createOrder, linkItemsToOrder, setSessionStatus, with the total of the cart
        as it was read. */
    method WriteRound(sid: nat, total: nat, ghost seen: Session) returns (number: nat)
      requires sid < |db.sessions| && total == Value(Linked(seen.items, None))
      modifies db
      ensures db.State() == SaveTx(old(db.State()), sid, seen, Changing(Submit))
      ensures number == NextNumber(old(db.sessions)[sid].rounds)
    {
      var s := db.sessions[sid];
      number := NextNumber(s.rounds);
      var round := Round(s.nextRound, number, RoundPending, total, None);
      SaveSession(sid, s.(rounds := s.rounds + [round], nextRound := s.nextRound + 1));
      SaveSession(sid, db.sessions[sid].(items := Relink(db.sessions[sid].items, None, Some(round.id))));
      SaveSession(sid, db.sessions[sid].(status := Awaiting));
    }

    /** unlinkOrderItems, deleteMany without a test of the status, setSessionStatus. */
    method WriteRejection(sid: nat, round: nat, ghost seen: Session)
      requires sid < |db.sessions| && PendingId(seen) == Some(round)
      modifies db
      ensures db.State() == SaveTx(old(db.State()), sid, seen, Changing(Reject))
    {
      SaveSession(sid, db.sessions[sid].(items := Relink(db.sessions[sid].items, Some(round), None)));
      SaveSession(sid, db.sessions[sid].(rounds := DropRound(db.sessions[sid].rounds, round)));
      SaveSession(sid, db.sessions[sid].(status := Open));
    }

    /** cancelPendingOrders, setSessionStatus, setTableStatus. */
    method WriteClosing(sid: nat, ghost seen: Session)
      requires sid < |db.sessions|
      modifies db
      ensures db.State() == SaveTx(old(db.State()), sid, seen, Closing)
    {
      var t := db.sessions[sid].table;
      SaveSession(sid, db.sessions[sid].(rounds := CancelPending(db.sessions[sid].rounds)));
      SaveSession(sid, db.sessions[sid].(status := Closed));
      if t < |db.tables| && db.tables[t].status.Occupied? {
        db.tables := db.tables[t := db.tables[t].(status := Available)];
      }
    }

    // ---- The calls, when nothing comes between their check and their writes ----

    /** addItem */
    method AddCartItem(sid: nat, product: nat, quantity: nat, addedBy: string, menu: Menu) returns (r: Result<nat>)
      modifies db
      ensures var tx := StepTx(old(db.State()), sid, AddItem(product, quantity, addedBy, menu));
              db.State() == Settled(old(db.State()), tx) && Matches(r, tx)
    {
      if sid >= |db.sessions| {
        return Err(NotFound);
      }
      if !db.sessions[sid].status.Open? {
        return Err(BusinessRule);
      }
      if product !in menu {
        return Err(NotFound);
      }
      var id := WriteItem(sid, product, menu[product], quantity, addedBy);
      r := Ok(id);
    }

    /** The checks updateItem and removeItem share. */
    method CheckItem(sid: nat, id: nat) returns (e: Option<Error>)
      ensures e == if sid >= |db.sessions| then Some(NotFound) else CheckEdit(db.sessions[sid], id)
    {
      if sid >= |db.sessions| {
        return Some(NotFound);
      }
      var s := db.sessions[sid];
      if s.status.Closed? {
        return Some(BusinessRule);
      }
      var item := FindItem(s.items, id);
      if item.None? {
        return Some(NotFound);
      }
      if item.value.round.Some? {
        var round := FindRound(s.rounds, item.value.round.value);
        if round.Some? && !round.value.status.RoundPending? {
          return Some(BusinessRule);
        }
      }
      e := None;
    }

    /** updateItem */
    method UpdateCartItem(sid: nat, id: nat, quantity: nat) returns (r: Result<nat>)
      modifies db
      ensures var tx := StepTx(old(db.State()), sid, UpdateItem(id, quantity));
              db.State() == Settled(old(db.State()), tx) && Matches(r, tx)
    {
      var e := CheckItem(sid, id);
      if e.Some? {
        return Err(e.value);
      }
      WriteQuantity(sid, id, quantity, db.sessions[sid]);
      r := Ok(id);
    }

    /** removeItem */
    method RemoveCartItem(sid: nat, id: nat) returns (r: Result<nat>)
      modifies db
      ensures var tx := StepTx(old(db.State()), sid, RemoveItem(id));
              db.State() == Settled(old(db.State()), tx) && Matches(r, tx)
    {
      var e := CheckItem(sid, id);
      if e.Some? {
        return Err(e.value);
      }
      WriteRemoval(sid, id, db.sessions[sid]);
      r := Ok(id);
    }

    /** submitDraft */
    method SubmitCart(sid: nat) returns (r: Result<nat>)
      modifies db
      ensures var tx := StepTx(old(db.State()), sid, Submit);
              db.State() == Settled(old(db.State()), tx) && Matches(r, tx)
    {
      if sid >= |db.sessions| {
        return Err(NotFound);
      }
      var s := db.sessions[sid];
      if !s.status.Open? {
        return Err(BusinessRule);
      }
      var current := Linked(s.items, None);
      if |current| == 0 {
        return Err(BusinessRule);
      }
      var number := WriteRound(sid, Value(current), s);
      r := Ok(number);
    }

    /** rejectPendingOrder */
    method RejectPendingRound(sid: nat) returns (r: Result<nat>)
      modifies db
      ensures var tx := StepTx(old(db.State()), sid, Reject);
              db.State() == Settled(old(db.State()), tx) && Matches(r, tx)
    {
      if sid >= |db.sessions| {
        return Err(NotFound);
      }
      var s := db.sessions[sid];
      if s.status.Closed? {
        return Err(BusinessRule);
      }
      var k := PendingIndex(s.rounds);
      if k == |s.rounds| {
        return Err(BusinessRule);
      }
      WriteRejection(sid, s.rounds[k].id, s);
      r := Ok(s.rounds[k].number);
    }

    /** closeSession */
    method CloseSession(sid: nat) returns (r: Result<nat>)
      modifies db
      ensures db.State() == Settled(old(db.State()), CloseTx(old(db.State()), sid)) &&
          Matches(r, CloseTx(old(db.State()), sid))
    {
      if sid >= |db.sessions| {
        return Err(NotFound);
      }
      var s := db.sessions[sid];
      if s.status.Closed? {
        return Err(BusinessRule);
      }
      if s.confirmedOrder.Some? && s.confirmedOrder.value < |db.orders| {
        var order := db.orders[s.confirmedOrder.value];
        if order.payment.Unpaid? && !order.status.Cancelled? {
          return Err(BusinessRule);
        }
      }
      WriteClosing(sid, s);
      r := Ok(sid);
    }

    /** The loop of confirmSession over the items of the round. */
    method PriceRound(items: seq<CartItem>, menu: Menu, number: nat) returns (r: Result<seq<Line>>)
      ensures r == RoundLines(items, menu, number)
    {
      var lines: seq<Line> := [];
      for i := 0 to |items|
        invariant RoundLines(items[..i], menu, number) == Ok(lines)
      {
        assert items[..i + 1][..i] == items[..i];
        if items[i].product !in menu {
          UnavailableProduct(items, menu, number, i);
          return Err(NotFound);
        }
        var price := menu[items[i].product];
        lines := lines + [Line(items[i].product, items[i].quantity, price, price * items[i].quantity, number)];
      }
      assert items[..|items|] == items;
      r := Ok(lines);
    }

    /** The transaction of confirmSession, with the session's order as read before it began. */
    method ConfirmInTransaction(sid: nat, target: Option<nat>, menu: Menu) returns (r: Result<nat>)
      requires Valid()
      modifies db
      ensures var tx := ConfirmTx(old(db.State()), sid, target, menu);
              db.State() == Settled(old(db.State()), tx) && Matches(r, tx)
    {
      if sid >= |db.sessions| {
        return Err(BusinessRule);
      }
      var s := db.sessions[sid];
      var k := PendingIndex(s.rounds);
      if k == |s.rounds| {
        return Err(BusinessRule);
      }
      var pending := s.rounds[k];
      var items := Linked(s.items, Some(pending.id));
      if |items| == 0 {
        return Err(BusinessRule);
      }
      var priced := PriceRound(items, menu, pending.number);
      if priced.Err? {
        return Err(priced.error);
      }
      var lines := priced.value;
      if CanAppend(db.State(), target) {
        r := orders.AppendItemsToOrder(target.value, lines);
      } else {
        r := orders.CreateOrderInClient(SessionOrder(s.table, lines), lines, 0, false);
      }
      if r.Err? {
        return;
      }
      var total := Value(items);
      var confirmed := pending.(status := RoundConfirmed, order := Some(r.value), total := total);
      SaveSession(sid, db.sessions[sid].(rounds := s.rounds[k := confirmed]));
      SaveSession(sid, db.sessions[sid].(status := Open, confirmedOrder := Some(r.value)));
    }

    /** confirmSession when nothing happens between its read and its transaction. */
    method ConfirmSession(sid: nat, menu: Menu) returns (r: Result<nat>)
      requires Valid()
      modifies db
      ensures sid < |old(db.sessions)| && !old(db.sessions)[sid].status.Closed? ==>
                var tx := ConfirmTx(old(db.State()), sid, old(db.sessions)[sid].confirmedOrder, menu);
                db.State() == Settled(old(db.State()), tx) && Matches(r, tx)
      ensures sid >= |old(db.sessions)| || old(db.sessions)[sid].status.Closed? ==>
          r.Err? && db.State() == old(db.State())
    {
      if sid >= |db.sessions| {
        return Err(NotFound);
      }
      if db.sessions[sid].status.Closed? {
        return Err(BusinessRule);
      }
      r := ConfirmInTransaction(sid, db.sessions[sid].confirmedOrder, menu);
    }
  }

  /** One unavailable product refuses the whole round. */
  lemma {:induction false} UnavailableProduct(items: seq<CartItem>, menu: Menu, number: nat, i: nat)
    requires i < |items| && items[i].product !in menu
    ensures RoundLines(items, menu, number) == Err(NotFound)
  {
    var n := |items| - 1;
    if i < n {
      UnavailableProduct(items[..n], menu, number, i);
    } else {
      RoundLinesErr(items[..n], menu, number);
    }
  }

  lemma {:induction false} RoundLinesErr(items: seq<CartItem>, menu: Menu, number: nat)
    ensures RoundLines(items, menu, number).Err? ==> RoundLines(items, menu, number).error == NotFound
  {
    if items != [] {
      RoundLinesErr(items[..|items| - 1], menu, number);
    }
  }
}
