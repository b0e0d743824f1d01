/** Which calls are accepted and what they do, in terms of the rows alone: by index, status and
    quantity, without the functions that the calls are made of. */
module Acceptance {
  import opened Data
  import opened OrderTx
  import opened OrderInvariants
  import opened SessionTx
  import opened SessionShape
  import opened Conservation
  import opened System
  import Coupons

  // ---- Creating and extending orders ----

  /** Exactly when an order can be created: at a table, unless it comes from a QR code, no order is
      pending, confirmed, in preparation or ready; and its coupon, if it has one, exists and accepts
      the order. */
  lemma CreateAcceptedIff(db: Db, p: NewOrder, lines: seq<Line>, now: int)
    ensures CreateTx(db, p, lines, now).Ok?
       <==> && (p.table.Some? && !p.source.Qr? ==>
                  forall i :: 0 <= i < |db.orders| && db.orders[i].table == p.table ==>
                    db.orders[i].status in {OutForDelivery, Delivered, Cancelled})
            && (p.coupon.Some? ==>
                  && p.coupon.value < |db.coupons|
                  && Coupons.ValidateCoupon(db.coupons[p.coupon.value], p.subtotal, lines, now).Ok?)
  {
  }

  /** What the order service makes of a payload: it is refused for a table that is not a live one and
      otherwise as above; the order begins pending and unpaid, after all others, with the lines it was
      given and their sum as its subtotal. */
  lemma CreateCallEffect(db: Db, p: NewOrder, lines: seq<Line>, now: int)
    ensures CreateCall(db, p, lines, now).Ok?
       <==> && (p.table.Some? ==> p.table.value < |db.tables| && !db.tables[p.table.value].deleted)
            && CreateTx(db, p.(status := Pending, subtotal := Sum(lines)), lines, now).Ok?
    ensures CreateCall(db, p, lines, now).Ok? ==>
              var db' := CreateCall(db, p, lines, now).value;
              && |db'.orders| == |db.orders| + 1 && db'.orders[..|db.orders|] == db.orders
              && (var o := db'.orders[|db.orders|];
                  && o.status.Pending? && o.payment.Unpaid? && o.version == 1
                  && o.lines == lines && o.subtotal == Sum(lines)
                  && o.source == p.source && o.kind == p.kind && o.table == p.table && o.coupon == p.coupon)
  {
    if CreateCall(db, p, lines, now).Ok? {
      CreateEffect(db, p.(status := Pending, subtotal := Sum(lines)), lines, now);
    }
  }

  /** A creation occupies its table if that is a live one, and touches no other; it uses its coupon
      once, and no other; and it charges the discount its coupon gives, or the one asked for. */
  lemma CreateTouches(db: Db, p: NewOrder, lines: seq<Line>, now: int)
    requires CreateTx(db, p, lines, now).Ok?
    ensures var db' := CreateTx(db, p, lines, now).value;
            && |db'.tables| == |db.tables| && |db'.coupons| == |db.coupons| && db'.sessions == db.sessions
            && (forall t :: 0 <= t < |db.tables| ==>
                  if p.table == Some(t) && !db.tables[t].deleted
                  then db'.tables[t] == Table(Occupied, false) else db'.tables[t] == db.tables[t])
            && (forall c :: 0 <= c < |db.coupons| ==>
                  db'.coupons[c].timesUsed == db.coupons[c].timesUsed + (if p.coupon == Some(c) then 1 else 0)
                  && db'.coupons[c] == db.coupons[c].(timesUsed := db'.coupons[c].timesUsed))
  {
    CreateEffect(db, p, lines, now);
  }

  /** Exactly when a round can be added to an order: it exists, is unpaid, and has not gone out,
      ended or been cancelled. It then has its old lines followed by the new ones, and nothing else
      of it changes but what there is to pay, its version and its history. */
  lemma AppendAcceptedIff(db: Db, id: nat, lines: seq<Line>)
    ensures AppendTx(db, id, lines).Ok?
       <==> && id < |db.orders| && db.orders[id].payment.Unpaid?
            && db.orders[id].status in {Pending, Confirmed, Preparing, Ready}
    ensures AppendTx(db, id, lines).Ok? ==>
              var o, o' := db.orders[id], AppendTx(db, id, lines).value.orders[id];
              && o'.lines == o.lines + lines && o'.subtotal == o.subtotal + Sum(lines) && o'.version == o.version + 1
              && o' == o.(lines := o'.lines, subtotal := o'.subtotal, total := o'.total,
                          version := o'.version, history := o'.history)
              && AppendTx(db, id, lines).value == db.(orders := db.orders[id := o'])
  {
  }

  // ---- Changing orders ----

  /** The stages of an order, in their order. */
  function Path(kind: Kind): seq<Status> {
    if kind.Delivery? then [Pending, Confirmed, Preparing, Ready, OutForDelivery, Delivered]
    else [Pending, Confirmed, Preparing, Ready, Delivered]
  }

  predicate Follows(kind: Kind, from: Status, to: Status) {
    exists i :: 0 <= i < |Path(kind)| - 1 && Path(kind)[i] == from && Path(kind)[i + 1] == to
  }

  lemma FollowsIff(kind: Kind, from: Status, to: Status)
    requires kind.Delivery? || !from.OutForDelivery?
    ensures from != to && ValidTransition(from, to, kind) <==> Follows(kind, from, to)
  {
    var path := Path(kind);
    if from != to && ValidTransition(from, to, kind) {
      var i := match from case Pending => 0 case Confirmed => 1 case Preparing => 2 case Ready => 3 case _ => 4;
      assert path[i] == from && path[i + 1] == to;
    }
  }

  /** Exactly when a request is accepted: its order exists and has the version it names, and: a
      status is repeated or is the next on the order's path; a cancelled order has not ended; a
      payment is for the total of an unpaid order that was not cancelled; a refund is for a paid one. */
  lemma RequestAcceptedIff(db: Db, r: Request)
    requires OrdersOk(db.orders)
    ensures CallTx(db, r).Ok?
       <==> && r.id < |db.orders| && r.expected == db.orders[r.id].version
            && (var o := db.orders[r.id];
                match r
                case SetStatus(_, _, next) =>
                  !next.Cancelled? && (next == o.status || Follows(o.kind, o.status, next))
                case Cancel(_, _) => o.status !in {Delivered, Cancelled}
                case Pay(_, _, amount) => o.payment.Unpaid? && !o.status.Cancelled? && amount == o.total
                case Refund(_, _) => o.payment.Paid?)
  {
    if r.id < |db.orders| {
      var o := db.orders[r.id];
      assert OrderOk(o);
      NoStageSkipped(o.history, o.kind, |o.history| - 1);
      if r.SetStatus? {
        FollowsIff(o.kind, o.status, r.next);
      }
    }
  }

  /** The request ends the use of its order's table. */
  predicate EndsUse(o: Order, r: Request) {
    r.Cancel? || (r.SetStatus? && r.next.Delivered?) || (r.Pay? && o.status.Delivered?)
  }

  /** No other order at the table is pending, confirmed, in preparation or ready. */
  predicate NoOtherInUse(orders: seq<Order>, t: nat, id: nat) {
    forall i :: 0 <= i < |orders| && i != id && orders[i].table == Some(t) ==>
      orders[i].status in {OutForDelivery, Delivered, Cancelled}
  }

  /** What a request does to the tables: a cancellation, an update to delivered and the payment of a
      delivered order make the order's live table available exactly when no other order there is in
      use; no other table changes, and no other request changes any. */
  lemma RequestTables(db: Db, r: Request)
    requires CallTx(db, r).Ok? && r.id < |db.orders|
    ensures var o, db' := db.orders[r.id], CallTx(db, r).value;
            && |db'.tables| == |db.tables|
            && forall t :: 0 <= t < |db.tables| ==>
                 if EndsUse(o, r) && o.table == Some(t) && !db.tables[t].deleted && NoOtherInUse(db.orders, t, r.id)
                 then db'.tables[t] == Table(Available, false) else db'.tables[t] == db.tables[t]
  {
    var o := db.orders[r.id];
    if o.table.Some? {
      OthersInUse(db.orders, CallTx(db, r).value.orders, o.table.value, r.id);
    }
  }

  /** So, of a table that was occupied: it becomes available if and only if nobody else uses it. */
  lemma TableIsFreedIff(db: Db, r: Request, t: nat)
    requires CallTx(db, r).Ok? && r.id < |db.orders| && EndsUse(db.orders[r.id], r) && db.orders[r.id].table == Some(t)
    requires t < |db.tables| && db.tables[t].status.Occupied? && !db.tables[t].deleted
    ensures t < |CallTx(db, r).value.tables|
    ensures CallTx(db, r).value.tables[t].status.Available? <==> NoOtherInUse(db.orders, t, r.id)
  {
    hide CallTx;
    RequestTables(db, r);
  }

  lemma OthersInUse(orders: seq<Order>, orders': seq<Order>, t: nat, id: nat)
    requires |orders'| == |orders| && forall i :: 0 <= i < |orders| && i != id ==> orders'[i] == orders[i]
    ensures OtherActive(orders', t, id) <==> !NoOtherInUse(orders, t, id)
  {
  }

  /** What a request does to the coupons: a cancellation gives one use back, and nothing else
      changes any. */
  lemma RequestCoupons(db: Db, r: Request)
    requires LedgerOk(db) && CallTx(db, r).Ok? && r.id < |db.orders|
    ensures var db' := CallTx(db, r).value;
            && |db'.coupons| == |db.coupons|
            && forall c :: 0 <= c < |db.coupons| ==>
                 if r.Cancel? && db.orders[r.id].coupon == Some(c)
                 then db.coupons[c] == db'.coupons[c].(timesUsed := db'.coupons[c].timesUsed + 1)
                 else db'.coupons[c] == db.coupons[c]
  {
    if r.Cancel? {
      CancelReturnsUse(db, r.id, r.expected);
    }
  }

  // ---- Sessions ----

  /** Exactly when a session can be started: the table is a live one and every session it had is
      closed. It begins open and empty, and its table, no other, is occupied. */
  lemma StartAcceptedIff(db: Db, t: nat)
    ensures StartTx(db, t).Ok?
       <==> && t < |db.tables| && !db.tables[t].deleted
            && forall i :: 0 <= i < |db.sessions| && db.sessions[i].table == t ==> db.sessions[i].status.Closed?
    ensures StartTx(db, t).Ok? ==>
              var db' := StartTx(db, t).value;
              && db'.sessions == db.sessions + [Session(t, Open, None, [], [], 0, 0)]
              && db'.tables == db.tables[t := Table(Occupied, false)]
              && db'.orders == db.orders && db'.coupons == db.coupons
  {
  }

  /** Exactly when an item can be added: the session is open and the product is on the menu. The
      cart then has it last, for the price of the menu, as often as asked for, under the name of who
      asked; and no round has changed. */
  lemma AddAcceptedIff(s: Session, product: nat, quantity: nat, addedBy: string, menu: Menu)
    ensures AddItemTo(s, product, quantity, addedBy, menu).Ok? <==> s.status.Open? && product in menu
    ensures AddItemTo(s, product, quantity, addedBy, menu).Ok? ==>
              var s' := AddItemTo(s, product, quantity, addedBy, menu).value;
              && Linked(s'.items, None) == Linked(s.items, None)
                                         + [CartItem(s.nextItem, None, product, menu[product], quantity, addedBy)]
              && (forall round: nat :: Linked(s'.items, Some(round)) == Linked(s.items, Some(round)))
              && s' == s.(items := s'.items, nextItem := s.nextItem + 1)
  {
    hide Linked;
    if s.status.Open? && product in menu {
      var item := CartItem(s.nextItem, None, product, menu[product], quantity, addedBy);
      LinkedAppend(s.items, item, None);
      forall round: nat ensures Linked(s.items + [item], Some(round)) == Linked(s.items, Some(round)) {
        LinkedAppend(s.items, item, Some(round));
      }
    }
  }

  lemma SomethingLinked(items: seq<CartItem>, round: Option<nat>)
    ensures Linked(items, round) != [] <==> exists i :: 0 <= i < |items| && items[i].round == round
  {
    LinkedMembers(items, round);
    if Linked(items, round) != [] {
      assert Linked(items, round)[0] in items;
    }
    if i :| 0 <= i < |items| && items[i].round == round {
      assert items[i] in Linked(items, round);
    }
  }

  /** Exactly when a cart can be submitted: the session is open and the cart is not empty. */
  lemma SubmitAcceptedIff(s: Session)
    ensures SubmitDraft(s).Ok? <==> s.status.Open? && exists i :: 0 <= i < |s.items| && s.items[i].round.None?
  {
    SomethingLinked(s.items, None);
  }

  predicate SomePending(rounds: seq<Round>) {
    exists k :: 0 <= k < |rounds| && rounds[k].status.RoundPending?
  }

  /** Exactly when a round can be rejected: the session is not closed and a round waits. Its items
      are then the cart, in their order, the other rounds stay, and the session is open. */
  lemma RejectAcceptedIff(s: Session)
    requires Shape(s)
    ensures RejectPending(s).Ok? <==> !s.status.Closed? && SomePending(s.rounds)
    ensures RejectPending(s).Ok? ==>
              var s', n := RejectPending(s).value, |s.rounds| - 1;
              && n >= 0 && s.rounds[n].status.RoundPending?
              && s'.rounds == s.rounds[..n] && s'.status.Open?
              && Linked(s'.items, None) == Relabelled(Linked(s.items, Some(s.rounds[n].id)), None)
  {
    hide Linked, TotalsOk;
    if RejectPending(s).Ok? {
      PendingIsLast(s);
      NoOpenItems(s.items);
      RelinkMoves(s.items, Some(s.rounds[|s.rounds| - 1].id), None);
    }
  }

  /** Exactly when a session can be closed: it exists, is not closed, and its current order, if it
      has one, is paid, refunded or cancelled. The round that waits is then cancelled and no other
      changes, no item changes, and the table, if it was occupied, is available; no other changes. */
  lemma CloseAcceptedIff(db: Db, sid: nat)
    ensures CloseTx(db, sid).Ok?
       <==> && sid < |db.sessions| && !db.sessions[sid].status.Closed?
            && (var current := db.sessions[sid].confirmedOrder;
                current.Some? && current.value < |db.orders| ==>
                  !db.orders[current.value].payment.Unpaid? || db.orders[current.value].status.Cancelled?)
    ensures CloseTx(db, sid).Ok? ==>
              var s, db' := db.sessions[sid], CloseTx(db, sid).value;
              var s' := db'.sessions[sid];
              && db'.sessions == db.sessions[sid := s'] && s' == s.(status := Closed, rounds := s'.rounds)
              && |s'.rounds| == |s.rounds|
              && (forall k :: 0 <= k < |s.rounds| ==>
                    s'.rounds[k] == if s.rounds[k].status.RoundPending? then s.rounds[k].(status := RoundCancelled)
                                    else s.rounds[k])
              && |db'.tables| == |db.tables|
              && (forall t :: 0 <= t < |db.tables| ==>
                    db'.tables[t] == if t == s.table && db.tables[t].status.Occupied?
                                     then db.tables[t].(status := Available) else db.tables[t])
  {
  }

  // ---- Confirming ----

  /** Some item is linked to the round, and the product of every one that is can be had. */
  predicate Confirmable(items: seq<CartItem>, round: nat, menu: Menu) {
    && (exists i :: 0 <= i < |items| && items[i].round == Some(round))
    && forall i :: 0 <= i < |items| && items[i].round == Some(round) ==> items[i].product in menu
  }

  /** The product of every item that is linked to the round is on the menu. */
  predicate OnMenu(items: seq<CartItem>, round: Option<nat>, menu: Menu) {
    forall i :: 0 <= i < |items| && items[i].round == round ==> items[i].product in menu
  }

  predicate AllOnMenu(items: seq<CartItem>, menu: Menu) {
    forall i :: 0 <= i < |items| ==> items[i].product in menu
  }

  lemma {:induction false} LinkedOnMenu(items: seq<CartItem>, round: Option<nat>, menu: Menu)
    ensures AllOnMenu(Linked(items, round), menu) <==> OnMenu(items, round, menu)
  {
    if items != [] {
      var init, last := items[..|items| - 1], items[|items| - 1];
      LinkedOnMenu(init, round, menu);
      assert items == init + [last];
      OnMenuAppend(init, last, round, menu);
      if last.round == round {
        assert Linked(items, round) == Linked(init, round) + [last];
        AllAppend(Linked(init, round), last, menu);
      } else {
        assert Linked(items, round) == Linked(init, round);
      }
    }
  }

  lemma OnMenuAppend(items: seq<CartItem>, last: CartItem, round: Option<nat>, menu: Menu)
    ensures OnMenu(items + [last], round, menu)
       <==> OnMenu(items, round, menu) && (last.round == round ==> last.product in menu)
  {
    if OnMenu(items + [last], round, menu) {
      assert (items + [last])[|items|] == last;
      forall i | 0 <= i < |items| && items[i].round == round ensures items[i].product in menu {
        assert (items + [last])[i] == items[i];
      }
    }
  }

  lemma AllAppend(items: seq<CartItem>, last: CartItem, menu: Menu)
    ensures AllOnMenu(items + [last], menu) <==> AllOnMenu(items, menu) && last.product in menu
  {
    if AllOnMenu(items + [last], menu) {
      assert (items + [last])[|items|] == last;
      forall i | 0 <= i < |items| ensures items[i].product in menu {
        assert (items + [last])[i] == items[i];
      }
    }
  }

  /** Only the last round can wait. */
  lemma OnlyLastWaits(s: Session)
    requires Shape(s)
    ensures PendingIndex(s.rounds) < |s.rounds| <==> SomePending(s.rounds)
    ensures forall k :: 0 <= k < |s.rounds| && s.rounds[k].status.RoundPending? ==>
              k == |s.rounds| - 1 == PendingIndex(s.rounds)
  {
    hide Linked, TotalsOk, ItemsOk;
  }

  lemma InvSession(db: Db, sid: nat)
    requires Inv(db) && sid < |db.sessions|
    ensures Shape(db.sessions[sid])
  {
  }

  lemma EmitAccepts(db: Db, table: nat, target: Option<nat>, lines: seq<Line>)
    ensures Emit(db, table, target, CanAppend(db, target), lines).Ok?
  {
  }

  /** Exactly when a confirmation is accepted: the session exists, a round waits, some item is linked
      to it, and the product of every linked item is on the menu. It is refused as not found only
      for a product that is not. */
  lemma ConfirmAcceptedIff(db: Db, sid: nat, target: Option<nat>, menu: Menu)
    requires Inv(db)
    ensures ConfirmTx(db, sid, target, menu).Ok?
       <==> && sid < |db.sessions|
            && (var s := db.sessions[sid];
                exists k ::
                  0 <= k < |s.rounds| && s.rounds[k].status.RoundPending? && Confirmable(s.items, s.rounds[k].id, menu))
    ensures ConfirmTx(db, sid, target, menu) == Err(NotFound)
       <==> && sid < |db.sessions|
            && (var s := db.sessions[sid];
                exists k, i ::
                  && 0 <= k < |s.rounds| && s.rounds[k].status.RoundPending?
                  && 0 <= i < |s.items| && s.items[i].round == Some(s.rounds[k].id) && s.items[i].product !in menu)
  {
    hide Linked, RoundLines, Emit, Inv, Shape, MarkConfirmed, CanAppend, PendingIndex;
    if sid < |db.sessions| {
      InvSession(db, sid);
      OnlyLastWaits(db.sessions[sid]);
    }
    if sid < |db.sessions| && PendingIndex(db.sessions[sid].rounds) < |db.sessions[sid].rounds| {
      var s := db.sessions[sid];
      var round := s.rounds[|s.rounds| - 1];
      var items := Linked(s.items, Some(round.id));
      SomethingLinked(s.items, Some(round.id));
      LinkedOnMenu(s.items, Some(round.id), menu);
      PricedIff(items, menu, round.number);
      if RoundLines(items, menu, round.number).Ok? {
        EmitAccepts(db, s.table, target, RoundLines(items, menu, round.number).value);
      }
    }
  }

  /** After a confirmation the session is open, its last round is confirmed on the session's new
      current order at the value of its items, and no item has changed; that order was extended if
      it could take lines, and otherwise it is a new one, confirmed, unpaid, without discount, from
      the QR code of the session's table. */
  lemma ConfirmEffect(db: Db, sid: nat, target: Option<nat>, menu: Menu)
    requires Inv(db) && ConfirmTx(db, sid, target, menu).Ok?
    ensures sid < |db.sessions| && |db.sessions[sid].rounds| > 0
    ensures var s, db' := db.sessions[sid], ConfirmTx(db, sid, target, menu).value;
            var s', n := db'.sessions[sid], |s.rounds| - 1;
            && s'.status.Open? && s'.items == s.items && s'.table == s.table && s'.confirmedOrder.Some?
            && s'.rounds == s.rounds[n := s.rounds[n].(status := RoundConfirmed, order := s'.confirmedOrder,
                                                       total := Value(Linked(s.items, Some(s.rounds[n].id))))]
            && (var o := s'.confirmedOrder.value;
                && (if o < |db.orders| then Some(o) == target && |db'.orders| == |db.orders| && Appendable(db.orders[o])
                    else o == |db.orders| && |db'.orders| == |db.orders| + 1)
                && (o == |db.orders| ==>
                      var order := db'.orders[o];
                      && order.source.Qr? && order.kind.DineIn? && order.status.Confirmed? && order.payment.Unpaid?
                      && order.table == Some(s.table) && order.coupon.None? && order.discount == 0))
  {
    hide Linked, RoundLines, Value, TotalsOk, Conserves, Books;
    ConfirmHasSession(db, sid, target, menu);
    var s := db.sessions[sid];
    InvSession(db, sid);
    assert PendingIndex(s.rounds) < |s.rounds|;
    PendingIsLast(s);
  }
}
