/** What happens when a request names a version later than the one its service call has read:
    the check was made on an old row and the write still goes through. For every kind of request,
    exactly when that can do harm. */
module StaleWrites {
  import opened Data
  import opened OrderTx
  import opened OrderInvariants
  import opened SessionTx
  import opened SessionShape
  import opened Conservation
  import opened System
  import opened RunProperties

  // ---- Status requests and cancellations ----

  /** Whatever happens between the read of order `r.id` in `db` and the write, a write that
      goes through makes a legal change. */
  ghost predicate AlwaysLegal(db: Db, r: Request)
    requires r.SetStatus? && r.id < |db.orders|
  {
    forall acts :: SoundRun(db, acts) ==> LegalIfWritten(DoAll(db, acts), r, db.orders[r.id])
  }

  predicate LegalIfWritten(db: Db, r: Request, seen: Order)
    requires r.SetStatus?
  {
    WriteTx(db, r, seen).Ok? ==> LegalChange(db.orders[r.id].status, r.next, db.orders[r.id].kind)
  }

  /** Whatever happens before the write, a write that goes through leaves every order with an
      unbroken history, the right version and the right total. */
  ghost predicate AlwaysKeepsOrders(db: Db, r: Request)
    requires r.id < |db.orders|
  {
    forall acts :: SoundRun(db, acts) ==> KeptIfWritten(DoAll(db, acts), r, db.orders[r.id])
  }

  ghost predicate KeptIfWritten(db: Db, r: Request, seen: Order) {
    WriteTx(db, r, seen).Ok? ==> OrdersOk(WriteTx(db, r, seen).value.orders)
  }

  /** Exactly when a status request that passed its check cannot make an illegal change: its
      version was observed no later than the service's read, or the order had already ended. */
  lemma LegalIff(db: Db, r: Request)
    requires Inv(db) && r.SetStatus? && r.id < |db.orders| && Accepts(db.orders[r.id], r)
    ensures AlwaysLegal(db, r) <==> r.expected <= db.orders[r.id].version || Terminal(db.orders[r.id].status)
  {
    hide AlwaysLegal, KeptIfWritten;
    if r.expected <= db.orders[r.id].version || Terminal(db.orders[r.id].status) {
      ObservedIsLegal(db, r);
    } else {
      LateIsIllegal(db, r);
    }
  }

  lemma ObservedIsLegal(db: Db, r: Request)
    requires Inv(db) && r.SetStatus? && r.id < |db.orders| && Accepts(db.orders[r.id], r)
    requires r.expected <= db.orders[r.id].version || Terminal(db.orders[r.id].status)
    ensures AlwaysLegal(db, r)
  {
    hide Inv, SoundRun, DoAll;
    forall acts | SoundRun(db, acts) ensures LegalIfWritten(DoAll(db, acts), r, db.orders[r.id]) {
      RunKeepsInv(db, acts);
      var o, o' := db.orders[r.id], DoAll(db, acts).orders[r.id];
      assert Evolves(o, o');
    }
  }

  lemma LateIsIllegal(db: Db, r: Request)
    requires Inv(db) && r.SetStatus? && r.id < |db.orders| && Accepts(db.orders[r.id], r)
    requires r.expected > db.orders[r.id].version && !Terminal(db.orders[r.id].status)
    ensures !AlwaysLegal(db, r)
  {
    hide Inv, SoundRun, DoAll;
    var acts := CancelledAtVersion(db, r.id, r.expected - db.orders[r.id].version - 1);
    assert !LegalIfWritten(DoAll(db, acts), r, db.orders[r.id]);
  }

  /** Exactly when a request of any kind that passed its check keeps all orders in order, whatever
      runs before its write: payments and refunds always do; a status request or a cancellation
      does when its version was observed no later than the read, or the order had ended. */
  lemma OrdersKeptIff(db: Db, r: Request)
    requires Inv(db) && r.id < |db.orders| && Accepts(db.orders[r.id], r)
    ensures AlwaysKeepsOrders(db, r)
       <==> r.Pay? || r.Refund? || r.expected <= db.orders[r.id].version || Terminal(db.orders[r.id].status)
  {
    hide AlwaysKeepsOrders;
    if r.Pay? || r.Refund? || r.expected <= db.orders[r.id].version || Terminal(db.orders[r.id].status) {
      EarlyKeepsOrders(db, r);
    } else {
      LateBreaksHistory(db, r);
    }
  }

  lemma EarlyKeepsOrders(db: Db, r: Request)
    requires Inv(db) && r.id < |db.orders| && Accepts(db.orders[r.id], r)
    requires r.Pay? || r.Refund? || r.expected <= db.orders[r.id].version || Terminal(db.orders[r.id].status)
    ensures AlwaysKeepsOrders(db, r)
  {
    hide SoundRun, DoAll, KeptIfWritten;
    forall acts | SoundRun(db, acts) ensures KeptIfWritten(DoAll(db, acts), r, db.orders[r.id]) {
      RunKeepsInv(db, acts);
      WriteKeepsOrders(DoAll(db, acts), r, db.orders[r.id]);
    }
  }

  lemma WriteKeepsOrders(db: Db, r: Request, seen: Order)
    requires OrdersOk(db.orders) && r.id < |db.orders| && Accepts(seen, r) && Evolves(seen, db.orders[r.id])
    requires r.Pay? || r.Refund? || r.expected <= seen.version || Terminal(seen.status)
    ensures KeptIfWritten(db, r, seen)
  {
    hide OrderOk;
    var o := db.orders[r.id];
    if WriteTx(db, r, seen).Ok? {
      match r
      case SetStatus(_, _, next) => MovedRow(o, next);
      case Cancel(_, _) => MovedRow(o, Cancelled);
      case Pay(_, _, _) => PaidRow(o, Paid);
      case Refund(_, _) => RefundedAgain(o);
    }
  }

  lemma RefundedAgain(o: Order)
    requires OrderOk(o)
    ensures OrderOk(WithPayment(o, Refunded))
  {
  }

  lemma LateBreaksHistory(db: Db, r: Request)
    requires Inv(db) && r.id < |db.orders| && Accepts(db.orders[r.id], r) && (r.SetStatus? || r.Cancel?)
    requires r.expected > db.orders[r.id].version && !Terminal(db.orders[r.id].status)
    ensures !AlwaysKeepsOrders(db, r)
  {
    hide Inv, SoundRun, DoAll;
    var acts := CancelledAtVersion(db, r.id, r.expected - db.orders[r.id].version - 1);
    var late := DoAll(db, acts);
    LateRow(late, r, db.orders[r.id]);
    assert !KeptIfWritten(late, r, db.orders[r.id]);
  }

  /** The history row of a write on a cancelled order starts from a status the order had left. */
  lemma LateRow(db: Db, r: Request, seen: Order)
    requires r.id < |db.orders| && OrderOk(db.orders[r.id]) && db.orders[r.id].status.Cancelled?
    requires (r.SetStatus? || r.Cancel?) && r.expected == db.orders[r.id].version && !seen.status.Cancelled?
    ensures WriteTx(db, r, seen).Ok? && !OrderOk(WriteTx(db, r, seen).value.orders[r.id])
  {
    var h := db.orders[r.id].history;
    var h' := WriteTx(db, r, seen).value.orders[r.id].history;
    assert h'[|h|].from == Some(seen.status) && h'[|h| - 1].to == Cancelled;
  }

  /** `n` repeated status updates to the same status, which are all accepted: nothing but the
      version and the history of the order changes. */
  lemma {:induction false} Repeated(db: Db, id: nat, n: nat) returns (acts: seq<Act>)
    requires Inv(db) && id < |db.orders| && !Terminal(db.orders[id].status)
    ensures SoundRun(db, acts) && Inv(DoAll(db, acts)) && |DoAll(db, acts).orders| == |db.orders|
    ensures var o, o' := db.orders[id], DoAll(db, acts).orders[id];
            && o' == o.(version := o.version + n, history := o'.history)
            && DoAll(db, acts) == db.(orders := db.orders[id := o'])
    decreases n
  {
    hide Inv;
    if n == 0 {
      acts := [];
    } else {
      var o := db.orders[id];
      var again := Call(SetStatus(id, o.version, o.status));
      StepKeepsInv(db, again);
      var rest := Repeated(Do(db, again), id, n - 1);
      acts := [again] + rest;
      assert acts[1..] == rest;
    }
  }

  /** The same and then a cancellation: the order ends cancelled with a version `n + 1` higher,
      and no other order has changed. */
  lemma CancelledAtVersion(db: Db, id: nat, n: nat) returns (acts: seq<Act>)
    requires Inv(db) && id < |db.orders| && !Terminal(db.orders[id].status)
    ensures SoundRun(db, acts) && Inv(DoAll(db, acts)) && id < |DoAll(db, acts).orders|
    ensures var o, o' := db.orders[id], DoAll(db, acts).orders[id];
            && o'.status.Cancelled? && o'.version == o.version + n + 1 && OrderOk(o')
            && o'.coupon == o.coupon && DoAll(db, acts).orders == db.orders[id := o']
  {
    hide Inv, OrderOk;
    var first := Repeated(db, id, n);
    var mid := DoAll(db, first);
    var last := Call(Cancel(id, mid.orders[id].version));
    StepKeepsInv(mid, last);
    RunConcat(db, first, [last]);
    assert SoundRun(Do(mid, last), [last][1..]);
    acts := first + [last];
    InvOrders(DoAll(db, acts));
  }

  // ---- Payments ----

  /** Whatever happens before the write, a payment that goes through settles the amount checked. */
  ghost predicate AlwaysSettles(db: Db, r: Request)
    requires r.Pay? && r.id < |db.orders|
  {
    forall acts :: SoundRun(db, acts) ==> SettlesIfWritten(DoAll(db, acts), r, db.orders[r.id])
  }

  predicate SettlesIfWritten(db: Db, r: Request, seen: Order)
    requires r.Pay?
  {
    WriteTx(db, r, seen).Ok? ==> r.id < |db.orders| && WriteTx(db, r, seen).value.orders[r.id].total == r.amount
  }

  /** A session that is not closed has produced the order, and may add to it. */
  ghost predicate Served(db: Db, id: nat) {
    exists sid :: 0 <= sid < |db.sessions| && !db.sessions[sid].status.Closed? && Produced(db.sessions[sid], id)
  }

  /** Exactly when a payment that passed its check cannot settle an order for another amount: its
      version was observed no later than the service's read, or the order could not take lines
      any more, or no open session has produced it. */
  lemma PaySettlesIff(db: Db, r: Request)
    requires Inv(db) && r.Pay? && r.id < |db.orders| && Accepts(db.orders[r.id], r)
    ensures AlwaysSettles(db, r)
       <==> r.expected <= db.orders[r.id].version || !Appendable(db.orders[r.id]) || !Served(db, r.id)
  {
    hide AlwaysSettles, Served;
    if r.expected > db.orders[r.id].version && Appendable(db.orders[r.id]) && Served(db, r.id) {
      LatePaymentIsWrong(db, r);
    } else {
      PaymentIsRight(db, r);
    }
  }

  lemma PaymentIsRight(db: Db, r: Request)
    requires Inv(db) && r.Pay? && r.id < |db.orders| && Accepts(db.orders[r.id], r)
    requires r.expected <= db.orders[r.id].version || !Appendable(db.orders[r.id]) || !Served(db, r.id)
    ensures AlwaysSettles(db, r)
  {
    hide Inv, SoundRun, DoAll, Served;
    forall acts | SoundRun(db, acts) ensures SettlesIfWritten(DoAll(db, acts), r, db.orders[r.id]) {
      RunKeepsInv(db, acts);
      assert Evolves(db.orders[r.id], DoAll(db, acts).orders[r.id]);
      if !Served(db, r.id) {
        UnservedStays(db, acts, r.id);
      }
    }
  }

  lemma {:induction false} UnservedStays(db: Db, acts: seq<Act>, id: nat)
    requires Inv(db) && SoundRun(db, acts) && id < |db.orders| && !Served(db, id)
    ensures id < |DoAll(db, acts).orders| && DoAll(db, acts).orders[id].total == db.orders[id].total
    decreases |acts|
  {
    hide Inv, Sound, Do, Served;
    if acts != [] {
      StepKeepsInv(db, acts[0]);
      UnservedStep(db, acts[0], id);
      UnservedStays(Do(db, acts[0]), acts[1..], id);
    }
  }

  /** An order that no open session has produced keeps its total, and no open session comes to
      have produced it. */
  lemma UnservedStep(db: Db, act: Act, id: nat)
    requires Inv(db) && Sound(db, act) && id < |db.orders| && !Served(db, id)
    ensures id < |Do(db, act).orders| && Do(db, act).orders[id].total == db.orders[id].total && !Served(Do(db, act), id)
  {
    hide Inv, Produced, Shape, Conserves, Do, SessionEvolves, OrderOk;
    StepKeepsInv(db, act);
    var db' := Do(db, act);
    forall sid | 0 <= sid < |db'.sessions| && Produced(db'.sessions[sid], id) ensures db'.sessions[sid].status.Closed? {
      ProducedEarlier(db, act, sid, id);
    }
    UnservedLines(db, act, id);
    SameLinesSameTotal(db, db', id);
  }

  lemma SameLinesSameTotal(db: Db, db': Db, id: nat)
    requires Inv(db) && Inv(db') && Extends(db, db') && id < |db.orders| && db'.orders[id].lines == db.orders[id].lines
    ensures db'.orders[id].total == db.orders[id].total
  {
    assert OrderOk(db.orders[id]) && OrderOk(db'.orders[id]) && Evolves(db.orders[id], db'.orders[id]);
  }

  /** A session that has produced the order after a step had done so before, or is closed. */
  lemma ProducedEarlier(db: Db, act: Act, sid: nat, id: nat)
    requires Inv(db) && Sound(db, act) && id < |db.orders| && !Served(db, id)
    requires sid < |Do(db, act).sessions| && Produced(Do(db, act).sessions[sid], id)
    ensures Do(db, act).sessions[sid].status.Closed?
  {
    hide Produced, Shape, Conserves, Books;
    StepKeepsInv(db, act);
    if Try(db, act).Ok? {
      if sid >= |db.sessions| {
        ProducedNothing(Do(db, act).sessions[sid], id);
      } else if act.Confirm? && act.sid == sid {
        ConfirmProduces(db, act, id);
      } else {
        UnconfirmedSession(db, act, sid);
        ConservesLater(db.orders, db.sessions[sid], Do(db, act).sessions[sid]);
        assert db.sessions[sid].status.Closed?;
      }
    }
  }

  lemma ConfirmProduces(db: Db, act: Act, id: nat)
    requires Inv(db) && Sound(db, act) && id < |db.orders| && !Served(db, id)
    requires act.Confirm? && Try(db, act).Ok? && act.sid < |db.sessions|
    ensures act.sid < |Do(db, act).sessions| && !Produced(Do(db, act).sessions[act.sid], id)
    ensures id < |Do(db, act).orders| && Do(db, act).orders[id].lines == db.orders[id].lines
  {
    hide Produced, Conserves, OrderOk, LedgerOk;
    var lines, o := ConfirmParts(db, act.sid, act.target, act.menu);
    ProducedAfterConfirm(db.sessions[act.sid], o, id);
    assert !Produced(db.sessions[act.sid], id);
  }

  lemma UnservedLines(db: Db, act: Act, id: nat)
    requires Inv(db) && Sound(db, act) && id < |db.orders| && !Served(db, id)
    ensures id < |Do(db, act).orders| && Do(db, act).orders[id].lines == db.orders[id].lines
  {
    hide Inv, Served, Sound, ConfirmTx;
    if Try(db, act).Ok? {
      match act
      case Confirm(sid, target, menu) => ConfirmHasSession(db, sid, target, menu); ConfirmProduces(db, act, id);
      case Call(r) => InvOrders(db); CalledRow(db, r);
      case _ =>
    }
  }

  // ---- The late payment ----

  /** The session has a round to confirm, and the last item of it is one piece of something. */
  ghost predicate RoundReady(s: Session) {
    && PendingId(s).Some?
    && (var items := Linked(s.items, PendingId(s)); items != [] && items[|items| - 1].quantity == 1)
  }

  lemma Reopened(s: Session)
    requires Shape(s) && s.status.Awaiting?
    ensures RejectPending(s).Ok? && RejectPending(s).value.status.Open? && Shape(RejectPending(s).value)
  {
    assert s.rounds[|s.rounds| - 1].status.RoundPending?;
    RejectKeepsShape(s);
  }

  const EXTRA := AddItem(0, 1, "", map[0 := 0])

  lemma Extended(s: Session)
    requires Shape(s) && s.status.Open?
    ensures StepOf(s, EXTRA).Ok? && Shape(StepOf(s, EXTRA).value) && StepOf(s, EXTRA).value.status.Open?
    ensures var cart := Linked(StepOf(s, EXTRA).value.items, None); cart != [] && cart[|cart| - 1].quantity == 1
  {
    hide Shape, Linked;
    AddItemKeepsShape(s, 0, 1, "", map[0 := 0]);
    LinkedAppend(s.items, StepOf(s, EXTRA).value.items[|s.items|], None);
  }

  lemma SubmittedIsReady(s: Session)
    requires Shape(s) && s.status.Open?
    requires var cart := Linked(s.items, None); cart != [] && cart[|cart| - 1].quantity == 1
    ensures StepOf(s, Submit).Ok? && RoundReady(StepOf(s, Submit).value)
  {
    hide Value, Linked, Shape;
    SubmitTakesCart(s);
    SubmitKeepsShape(s);
    var t := SubmitDraft(s).value;
    assert t.rounds[|s.rounds|].status.RoundPending?;
    PendingIsLast(t);
  }

  lemma EditAct(db: Db, sid: nat, step: Step)
    requires sid < |db.sessions| && StepOf(db.sessions[sid], step).Ok?
    ensures SoundRun(db, [Edit(sid, step)])
    ensures DoAll(db, [Edit(sid, step)]) == db.(sessions := db.sessions[sid := StepOf(db.sessions[sid], step).value])
  {
    hide StepOf;
    OneAct(db, Edit(sid, step));
  }

  /** An open session can be given a round that is ready, without touching the orders. */
  lemma FillAndSubmit(db: Db, sid: nat) returns (acts: seq<Act>)
    requires sid < |db.sessions| && Shape(db.sessions[sid]) && db.sessions[sid].status.Open?
    ensures SoundRun(db, acts) && DoAll(db, acts).orders == db.orders && sid < |DoAll(db, acts).sessions|
    ensures RoundReady(DoAll(db, acts).sessions[sid])
  {
    hide StepOf, Shape, RoundReady, Linked, DoAll, SoundRun;
    var s := db.sessions[sid];
    Extended(s);
    EditAct(db, sid, EXTRA);
    var mid := DoAll(db, [Edit(sid, EXTRA)]);
    SubmittedIsReady(mid.sessions[sid]);
    EditAct(mid, sid, Submit);
    RunConcat(db, [Edit(sid, EXTRA)], [Edit(sid, Submit)]);
    acts := [Edit(sid, EXTRA)] + [Edit(sid, Submit)];
  }

  /** So can any session that is not closed. */
  lemma MakeReady(db: Db, sid: nat) returns (acts: seq<Act>)
    requires SessionsOk(db) && sid < |db.sessions| && !db.sessions[sid].status.Closed?
    ensures SoundRun(db, acts) && DoAll(db, acts).orders == db.orders && sid < |DoAll(db, acts).sessions|
    ensures RoundReady(DoAll(db, acts).sessions[sid])
  {
    hide Shape, RoundReady, DoAll, SoundRun, StepOf;
    var s := db.sessions[sid];
    assert Shape(s);
    if s.status.Awaiting? {
      Reopened(s);
      RejectIsStep(s);
      EditAct(db, sid, Reject);
      var rest := FillAndSubmit(DoAll(db, [Edit(sid, Reject)]), sid);
      RunConcat(db, [Edit(sid, Reject)], rest);
      acts := [Edit(sid, Reject)] + rest;
    } else {
      acts := FillAndSubmit(db, sid);
    }
  }

  lemma RejectIsStep(s: Session)
    ensures StepOf(s, Reject) == RejectPending(s)
  {
  }

  function ProductsIn(items: seq<CartItem>): set<nat> {
    set i | 0 <= i < |items| :: items[i].product
  }

  function PriceList(items: seq<CartItem>, price: nat): Menu {
    map p | p in ProductsIn(items) :: price
  }

  lemma {:induction false} Priced(items: seq<CartItem>, menu: Menu, number: nat)
    requires forall i :: 0 <= i < |items| ==> items[i].product in menu
    ensures RoundLines(items, menu, number).Ok?
    ensures items != [] ==>
              var last := items[|items| - 1];
              Sum(RoundLines(items, menu, number).value) >= menu[last.product] * last.quantity
  {
    if items != [] {
      var init, last := items[..|items| - 1], items[|items| - 1];
      Priced(init, menu, number);
      var line := Line(last.product, last.quantity, menu[last.product], menu[last.product] * last.quantity, number);
      SumConcat(RoundLines(init, menu, number).value, [line]);
    }
  }

  /** A ready round at a price above the order's discount raises what there is to pay. */
  lemma DearRound(db: Db, sid: nat, id: nat) returns (menu: Menu, lines: seq<Line>)
    requires sid < |db.sessions| && RoundReady(db.sessions[sid]) && id < |db.orders| && Appendable(db.orders[id])
    ensures Sum(lines) > db.orders[id].discount && AppendTx(db, id, lines).Ok?
    ensures ConfirmTx(db, sid, Some(id), menu).Ok?
    ensures ConfirmTx(db, sid, Some(id), menu).value.orders == AppendTx(db, id, lines).value.orders
  {
    hide RoundLines, Linked;
    var s := db.sessions[sid];
    var k := PendingIndex(s.rounds);
    var items := Linked(s.items, Some(s.rounds[k].id));
    menu := PriceList(items, db.orders[id].discount + 1);
    Priced(items, menu, s.rounds[k].number);
    lines := RoundLines(items, menu, s.rounds[k].number).value;
    assert menu[items[|items| - 1].product] == db.orders[id].discount + 1;
  }

  /** A payment checked against an old total, when a round was added in between and the request
      names the version after it: it is accepted, and for the wrong amount exactly when the
      round changed what there is to pay. */
  lemma LatePayment(db: Db, id: nat, amount: nat, lines: seq<Line>)
    requires OrdersOk(db.orders) && id < |db.orders| && Appendable(db.orders[id])
    requires Accepts(db.orders[id], Pay(id, db.orders[id].version + 1, amount))
    ensures AppendTx(db, id, lines).Ok?
    ensures var after := WriteTx(AppendTx(db, id, lines).value, Pay(id, db.orders[id].version + 1, amount),
        db.orders[id]);
            && after.Ok?
            && (after.value.orders[id].total != amount
                <==> Sum(lines) > 0 && db.orders[id].subtotal + Sum(lines) > db.orders[id].discount)
  {
  }

  /** An open session that has produced an order can add a dear round to it. */
  lemma AddsDearRound(db: Db, sid: nat, id: nat) returns (acts: seq<Act>, lines: seq<Line>)
    requires Inv(db) && sid < |db.sessions| && !db.sessions[sid].status.Closed? && Produced(db.sessions[sid], id)
    requires id < |db.orders| && Appendable(db.orders[id])
    ensures SoundRun(db, acts) && Sum(lines) > db.orders[id].discount && AppendTx(db, id, lines).Ok?
    ensures DoAll(db, acts).orders == AppendTx(db, id, lines).value.orders
  {
    hide Inv, DoAll, SoundRun, Produced, RoundReady, ConfirmTx;
    InvSessions(db);
    var edits := MakeReady(db, sid);
    var ready := DoAll(db, edits);
    RunKeepsInv(db, edits);
    var menu;
    menu, lines := DearRound(ready, sid, id);
    var confirm := Confirm(sid, Some(id), menu);
    TargetStays(db.sessions[sid], ready.sessions[sid], Some(id));
    OneAct(ready, confirm);
    RunConcat(db, edits, [confirm]);
    acts := edits + [confirm];
  }

  lemma LatePaymentIsWrong(db: Db, r: Request)
    requires Inv(db) && r.Pay? && r.id < |db.orders| && Accepts(db.orders[r.id], r)
    requires r.expected > db.orders[r.id].version && Appendable(db.orders[r.id]) && Served(db, r.id)
    ensures !AlwaysSettles(db, r)
  {
    hide Inv, DoAll, SoundRun, Produced, OrderOk;
    var sid :| 0 <= sid < |db.sessions| && !db.sessions[sid].status.Closed? && Produced(db.sessions[sid], r.id);
    var waiting := Repeated(db, r.id, r.expected - db.orders[r.id].version - 1);
    var mid := DoAll(db, waiting);
    InvOrders(mid);
    var adding, lines := AddsDearRound(mid, sid, r.id);
    RunConcat(db, waiting, adding);
    LatePayment(mid, r.id, r.amount, lines);
    assert DoAll(db, waiting + adding).orders == AppendTx(mid, r.id, lines).value.orders;
    assert !SettlesIfWritten(DoAll(db, waiting + adding), r, db.orders[r.id]);
  }

  lemma InvSessions(db: Db)
    requires Inv(db)
    ensures SessionsOk(db)
  {
  }

  lemma OneAct(db: Db, act: Act)
    ensures DoAll(db, [act]) == Do(db, act) && (Sound(db, act) ==> SoundRun(db, [act]))
  {
    assert [act][1..] == [];
    assert SoundRun(Do(db, act), [act][1..]);
  }
}
