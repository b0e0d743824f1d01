/** Runs from a new restaurant in which a property that one might expect does fail. Each goes with
    the theorem that says exactly when it does. */
module Anomalies {
  import opened Data
  import opened OrderTx
  import opened OrderInvariants
  import opened SessionTx
  import opened SessionShape
  import opened Conservation
  import opened System
  import opened Interleaving
  import opened InterleavedSessions
  import Coupons
  import Webhook

  const PRICES: Menu := map[7 := 100]
  const PLACE: Table := Table(Available, false)
  const DISH := AddItem(7, 1, "A", PRICES)

  function Item(id: nat, round: Option<nat>, quantity: nat): CartItem {
    CartItem(id, round, 7, 100, quantity, "A")
  }

  function Ticket(number: nat): Order {
    Order(Qr, DineIn, Confirmed, Unpaid, Some(0), None, [Line(7, 1, 100, 100, number)], 100, 0, 100, 1,
        [Change(None, Confirmed)])
  }

  function Running(orders: seq<Order>, s: Session, pending: map<nat, Pending>): Sys {
    Sys(Db(orders, [], [PLACE.(status := Occupied)], [s]), pending, map[])
  }

  /** The same while the table is offered as available. */
  function Vacant(orders: seq<Order>, s: Session, pending: map<nat, Pending>): Sys {
    Sys(Db(orders, [], [PLACE], [s]), pending, map[])
  }

  /** The session after `Submitted`. */
  function FirstRound(): Session {
    Session(0, Awaiting, None, [Item(0, Some(0), 1)], [Round(0, 1, RoundPending, 100, None)], 1, 1)
  }

  lemma {:induction false} EventsConcat(sys: Sys, a: seq<Event>, b: seq<Event>)
    ensures RunAll(sys, a + b) == RunAll(RunAll(sys, a), b)
    decreases |a|
  {
    hide Apply;
    if a == [] {
      assert a + b == b;
    } else {
      assert (a + b)[1..] == a[1..] + b;
      EventsConcat(Apply(sys, a[0]), a[1..], b);
    }
  }

  lemma Two(sys: Sys, a: Event, b: Event)
    ensures RunAll(sys, [a, b]) == Apply(Apply(sys, a), b)
  {
    hide Apply;
    assert [a, b] == [a] + [b];
    EventsConcat(sys, [a], [b]);
    One(sys, a);
    One(Apply(sys, a), b);
  }

  lemma One(sys: Sys, a: Event)
    ensures RunAll(sys, [a]) == Apply(sys, a)
  {
    hide Apply;
    assert [a][1..] == [];
  }

  function Visit(pid: nat, call: SessionCall): seq<Event> {
    [Check(pid, 0, call), Save(pid)]
  }

  lemma CheckEffect(sys: Sys, pid: nat, call: SessionCall)
    requires pid !in sys.pending && |sys.db.sessions| > 0 && TryCall(sys.db, 0, call).Ok?
    ensures Apply(sys, Check(pid, 0, call)) == sys.(pending := sys.pending[pid := Visited(0, call, sys.db.sessions[0])])
  {
    hide TryCall;
  }

  lemma SaveEffect(sys: Sys, pid: nat)
    requires pid in sys.pending && sys.pending[pid].Visited? && sys.pending[pid].sid < |sys.db.sessions|
    requires !SaveWaits(sys.pending, sys.pending[pid])
    ensures var p := sys.pending[pid];
            Apply(sys, Save(pid)) == sys.(db := SaveTx(sys.db, p.sid, p.session, p.call),
                pending := Forget(sys.pending, pid))
  {
    hide SaveTx, SaveWaits;
  }

  /** A session call that nothing separates. */
  lemma VisitEffect(sys: Sys, pid: nat, call: SessionCall)
    requires pid !in sys.pending && |sys.db.sessions| > 0 && TryCall(sys.db, 0, call).Ok?
    requires call.Changing? && !call.step.Reject?
    ensures RunAll(sys, Visit(pid, call)) == sys.(db := SaveTx(sys.db, 0, sys.db.sessions[0], call))
  {
    hide TryCall, SaveTx, Apply;
    Two(sys, Check(pid, 0, call), Save(pid));
    CheckEffect(sys, pid, call);
    var mid := Apply(sys, Check(pid, 0, call));
    SaveEffect(mid, pid);
    assert Forget(mid.pending, pid) == sys.pending;
  }

  function Confirmation(pid: nat): seq<Event> {
    [Lock(pid)] + [Load(pid, PRICES), Commit(pid)]
  }

  /** A confirmation that nothing separates after its read. */
  lemma ConfirmationEffect(sys: Sys, pid: nat, loaded: Pending)
    requires loaded.Loaded? && pid in sys.pending && sys.pending[pid] == Begun(0, loaded.target)
    requires forall q :: q in sys.pending ==> !Holds(sys.pending[q], 0)
    requires loaded.sid == 0 && |sys.db.sessions| > 0 && loaded.menu == PRICES
    requires var s := sys.db.sessions[0];
             && PendingId(s) == Some(loaded.round) && IndexOfRound(s.rounds, loaded.round) == PendingIndex(s.rounds)
             && loaded.items == Linked(s.items, Some(loaded.round)) && loaded.items != []
             && RoundLines(loaded.items, PRICES, s.rounds[PendingIndex(s.rounds)].number) == Ok(loaded.lines)
             && loaded.append == CanAppend(sys.db, loaded.target)
    requires CommitTx(sys.db, loaded).Ok?
    ensures RunAll(sys, Confirmation(pid))
         == sys.(db := CommitTx(sys.db, loaded).value, pending := Forget(sys.pending, pid))
  {
    hide CommitTx, Linked, RoundLines, CanAppend, IndexOfRound, WriteTx, SaveTx, Try, TryCall;
    var locked := Apply(sys, Lock(pid));
    assert locked == sys.(pending := sys.pending[pid := Locked(0, loaded.target, loaded.round)]);
    var last := Apply(locked, Load(pid, PRICES));
    assert last == sys.(pending := sys.pending[pid := loaded]);
    One(sys, Lock(pid));
    Two(locked, Load(pid, PRICES), Commit(pid));
    EventsConcat(sys, [Lock(pid)], [Load(pid, PRICES), Commit(pid)]);
    assert Forget(last.pending, pid) == Forget(sys.pending, pid);
  }

  lemma LinkedOne(item: CartItem, round: Option<nat>)
    ensures Linked([item], round) == (if item.round == round then [item] else [])
    ensures Value([item]) == item.unitPrice * item.quantity
  {
    assert [item][..0] == [];
  }

  /** A session on the one table, an item in its cart, submitted. */
  function Submitted(): seq<Event> {
    [Whole(Start(0))] + (Visit(1, Changing(DISH)) + Visit(1, Changing(Submit)))
  }

  function Filled(): Session {
    Session(0, Open, None, [Item(0, None, 1)], [], 1, 0)
  }

  lemma FirstDish()
    ensures var empty := Session(0, Open, None, [], [], 0, 0);
            AddItemTo(empty, 7, 1, "A", PRICES) == Ok(Filled()) && Saved(empty, empty, Changing(DISH)) == Filled()
  {
    assert WithItem(Session(0, Open, None, [], [], 0, 0), 7, 100, 1, "A").items == [Item(0, None, 1)];
  }

  lemma FirstSubmit()
    ensures SubmitDraft(Filled()) == Ok(FirstRound()) && Saved(Filled(), Filled(), Changing(Submit)) == FirstRound()
  {
    hide Linked, Value, NextNumber;
    var item := Item(0, None, 1);
    LinkedOne(item, None);
    NumberOfFirst();
    assert Value(Linked(Filled().items, None)) == 100;
    assert Relink(Filled().items, None, Some(0)) == [Item(0, Some(0), 1)];
    assert WithRound(Filled(), 100) == FirstRound();
  }

  lemma NumberOfFirst()
    ensures NextNumber([]) == 1
  {
  }

  lemma SubmittedEffect()
    ensures RunAll(Fresh([PLACE], []), Submitted()) == Running([], FirstRound(), map[])
  {
    hide Saved, AddItemTo, SubmitDraft;
    FirstDish();
    FirstSubmit();
    var s0 := Fresh([PLACE], []);
    var s1 := Running([], Session(0, Open, None, [], [], 0, 0), map[]);
    var s2 := Running([], Filled(), map[]);
    assert Apply(s0, Whole(Start(0))) == s1;
    One(s0, Whole(Start(0)));
    VisitEffect(s1, 1, Changing(DISH));
    VisitEffect(s2, 1, Changing(Submit));
    EventsConcat(s1, Visit(1, Changing(DISH)), Visit(1, Changing(Submit)));
    EventsConcat(s0, [Whole(Start(0))], Visit(1, Changing(DISH)) + Visit(1, Changing(Submit)));
  }

  // ---- A confirmation of the first round ----

  function FirstLoaded(): Pending {
    Loaded(0, None, 0, [Item(0, Some(0), 1)], [Line(7, 1, 100, 100, 1)], false, PRICES)
  }

  /** The session once its first round is confirmed, with the item at the given quantity. */
  function Confirmed1(quantity: nat): Session {
    Session(0, Open, Some(0), [Item(0, Some(0), quantity)], [Round(0, 1, RoundConfirmed, 100, Some(0))], 1, 1)
  }

  lemma LinesOne(item: CartItem, number: nat)
    requires item.product == 7
    ensures RoundLines([item], PRICES, number) == Ok([Line(7, item.quantity, 100, 100 * item.quantity, number)])
  {
    assert [item][..0] == [];
    assert RoundLines([], PRICES, number) == Ok([]);
    assert [] + [Line(7, item.quantity, 100, 100 * item.quantity, number)]
        == [Line(7, item.quantity, 100, 100 * item.quantity, number)];
  }

  lemma FirstLoads()
    ensures Linked([Item(0, Some(0), 1)], Some(0)) == [Item(0, Some(0), 1)]
    ensures RoundLines([Item(0, Some(0), 1)], PRICES, 1) == Ok([Line(7, 1, 100, 100, 1)])
    ensures PendingId(FirstRound()) == Some(0) && PendingIndex(FirstRound().rounds) == 0
    ensures IndexOfRound(FirstRound().rounds, 0) == 0
  {
    hide Linked, RoundLines;
    LinkedOne(Item(0, Some(0), 1), Some(0));
    LinesOne(Item(0, Some(0), 1), 1);
  }

  /** A round of one dish on an order of its own. */
  lemma EmitsTicket(db: Db, s: Session, target: Option<nat>, number: nat)
    requires db == Running(db.orders, s, map[]).db || db == Vacant(db.orders, s, map[]).db
    ensures Emit(db, 0, target, false, [Line(7, 1, 100, 100, number)])
         == Ok((Running(db.orders + [Ticket(number)], s, map[]).db, |db.orders|))
  {
    var line := Line(7, 1, 100, 100, number);
    assert Sum([line]) == 100 by {
      assert [line][1..] == [];
    }
    assert SetTable(db.tables, Some(0), Occupied) == [PLACE.(status := Occupied)];
    assert NewRow(SessionOrder(0, [line]), [line], 0) == Ticket(number);
  }

  /** The commit, also when the item was edited to another quantity after it had been loaded. */
  lemma FirstCommit(quantity: nat)
    ensures var s := FirstRound().(items := [Item(0, Some(0), quantity)]);
            CommitTx(Running([], s, map[]).db, FirstLoaded())
                == Ok(Running([Ticket(1)], Confirmed1(quantity), map[]).db)
  {
    hide Emit, Value, Linked, IndexOfRound;
    var s := FirstRound().(items := [Item(0, Some(0), quantity)]);
    FirstLoads();
    ItemValue();
    assert [] + [Ticket(1)] == [Ticket(1)];
    EmitsTicket(Running([], s, map[]).db, s, None, 1);
    var db, out := Running([], s, map[]).db, Running([Ticket(1)], s, map[]).db;
    assert Emit(db, 0, None, false, FirstLoaded().lines) == Ok((out, 0));
    assert s.rounds[0 := Round(0, 1, RoundConfirmed, 100, Some(0))] == Confirmed1(quantity).rounds;
    assert out.sessions[0 := Confirmed1(quantity)] == Running([Ticket(1)], Confirmed1(quantity), map[]).db.sessions;
  }

  lemma ItemValue()
    ensures Value([Item(0, Some(0), 1)]) == 100
  {
    LinkedOne(Item(0, Some(0), 1), None);
  }

  // ---- An item that is edited while its round is confirmed ----

  lemma Next(sys: Sys, a: Event, rest: seq<Event>)
    ensures RunAll(sys, [a] + rest) == RunAll(Apply(sys, a), rest)
  {
    One(sys, a);
    EventsConcat(sys, [a], rest);
  }

  const FIVE := Changing(UpdateItem(0, 5))

  lemma FiveOf(s: Session)
    requires s.items == [Item(0, Some(0), 1)]
    ensures Saved(s, FirstRound(), FIVE) == s.(items := [Item(0, Some(0), 5)])
  {
    assert WithQuantity(s.items, 0, 5) == [Item(0, Some(0), 5)];
  }

  /** Checks a call on the waiting round and reads the session for its confirmation. */
  function Opening(call: SessionCall): seq<Event> {
    [Check(2, 0, call)] + ([Begin(3, 0)] + [])
  }

  function Opened(call: SessionCall): Sys {
    Running([], FirstRound(), map[2 := Visited(0, call, FirstRound()), 3 := Begun(0, None)])
  }

  lemma OpeningEffect(call: SessionCall)
    requires TryCall(Running([], FirstRound(), map[]).db, 0, call).Ok?
    ensures RunAll(Running([], FirstRound(), map[]), Opening(call)) == Opened(call)
  {
    hide TryCall;
    var s := Running([], FirstRound(), map[]);
    Next(s, Check(2, 0, call), [Begin(3, 0)] + []);
    Next(Apply(s, Check(2, 0, call)), Begin(3, 0), []);
  }

  lemma FivePasses()
    ensures TryCall(Running([], FirstRound(), map[]).db, 0, FIVE).Ok?
  {
    assert FindItem(FirstRound().items, 0) == Some(Item(0, Some(0), 1));
    assert FindRound(FirstRound().rounds, 0) == Some(FirstRound().rounds[0]);
  }

  function EditBetween(): seq<Event> {
    Opening(FIVE) + ([Lock(3)] + ([Load(3, PRICES)] + ([Save(2)] + ([Commit(3)] + []))))
  }

  function EditAfter(): seq<Event> {
    Opening(FIVE) + (Confirmation(3) + ([Save(2)] + []))
  }

  function LoadedBeside(call: SessionCall): Sys {
    Running([], FirstRound(), map[2 := Visited(0, call, FirstRound()), 3 := FirstLoaded()])
  }

  lemma LoadedBesideEffect(rest: seq<Event>)
    ensures RunAll(Opened(FIVE), [Lock(3)] + ([Load(3, PRICES)] + rest)) == RunAll(LoadedBeside(FIVE), rest)
  {
    hide Linked, RoundLines, IndexOfRound;
    FirstLoads();
    var s1 := Opened(FIVE);
    var s2 := Apply(s1, Lock(3));
    assert s2 == s1.(pending := s1.pending[3 := Locked(0, None, 0)]);
    assert Apply(s2, Load(3, PRICES)) == LoadedBeside(FIVE);
    Next(s1, Lock(3), [Load(3, PRICES)] + rest);
    Next(s2, Load(3, PRICES), rest);
  }

  lemma BetweenEffect()
    ensures RunAll(Running([], FirstRound(), map[]), EditBetween()) == Running([Ticket(1)], Confirmed1(5), map[])
  {
    hide TryCall, Saved, CommitTx;
    FivePasses();
    OpeningEffect(FIVE);
    FiveOf(FirstRound());
    FirstCommit(5);
    var s3 := LoadedBeside(FIVE);
    var s4 := Apply(s3, Save(2));
    assert s4.db == Running([], FirstRound().(items := [Item(0, Some(0), 5)]), map[]).db;
    var rest := [Save(2)] + ([Commit(3)] + []);
    EventsConcat(Running([], FirstRound(), map[]), Opening(FIVE), [Lock(3)] + ([Load(3, PRICES)] + rest));
    LoadedBesideEffect(rest);
    Next(s3, Save(2), [Commit(3)] + []);
    Next(s4, Commit(3), []);
  }

  lemma ConfirmedBeside(call: SessionCall)
    ensures RunAll(Opened(call), Confirmation(3))
         == Running([Ticket(1)], Confirmed1(1), map[2 := Visited(0, call, FirstRound())])
  {
    hide CommitTx, Linked, RoundLines, IndexOfRound;
    FirstLoads();
    FirstCommit(1);
    assert FirstRound().(items := [Item(0, Some(0), 1)]) == FirstRound();
    ConfirmationEffect(Opened(call), 3, FirstLoaded());
  }

  lemma AfterEffect()
    ensures RunAll(Running([], FirstRound(), map[]), EditAfter()) == Running([Ticket(1)], Confirmed1(5), map[])
  {
    hide TryCall, Saved;
    FivePasses();
    OpeningEffect(FIVE);
    ConfirmedBeside(FIVE);
    FiveOf(Confirmed1(1));
    var s0, s1 := Running([], FirstRound(), map[]), Opened(FIVE);
    var s2 := RunAll(s1, Confirmation(3));
    EventsConcat(s0, Opening(FIVE), Confirmation(3) + ([Save(2)] + []));
    EventsConcat(s1, Confirmation(3), [Save(2)] + []);
    Next(s2, Save(2), []);
    assert Apply(s2, Save(2)) == Running([Ticket(1)], Confirmed1(5), map[]);
  }

  lemma FiveForOne()
    ensures !Conserves([Ticket(1)], Confirmed1(5))
  {
    hide LinesOfRound, Linked;
    LinkedOne(Item(0, Some(0), 5), Some(0));
    TicketLines();
    assert LineEntries([Line(7, 1, 100, 100, 1)])[0] == Entry(7, 1);
    assert ItemEntries([Item(0, Some(0), 5)])[0] == Entry(7, 5);
    assert Confirmed1(5).rounds[0].status.RoundConfirmed?;
    assert !Delivers([Ticket(1)], Confirmed1(5), 0);
  }

  lemma TicketLines()
    ensures LinesOfRound([Line(7, 1, 100, 100, 1)], 1) == [Line(7, 1, 100, 100, 1)]
  {
    LinesOfOneRound([Line(7, 1, 100, 100, 1)], 1, 1);
  }

  /** An item is edited between the load and the commit of its round, or by a write that was
      checked before the commit and comes after it. Either way the kitchen was told of one dish
      and the session shows five. */
  lemma EditedDuringConfirmation(late: bool)
    ensures var end := RunAll(Fresh([PLACE], []), Submitted() + if late then EditAfter() else EditBetween()).db;
            && |end.orders| == 1 && |end.sessions| == 1
            && !Conserves(end.orders, end.sessions[0])
  {
    hide Conserves;
    var s0 := Fresh([PLACE], []);
    SubmittedEffect();
    EventsConcat(s0, Submitted(), if late then EditAfter() else EditBetween());
    BetweenEffect();
    AfterEffect();
    FiveForOne();
  }

  // ---- A rejection that comes after the confirmation ----

  function RejectAfter(): seq<Event> {
    Opening(Changing(Reject)) + (Confirmation(3) + ([Save(2)] + []))
  }

  /** A rejection was checked while the round waited and is written after it was confirmed. The
      confirmed round is gone, its order is nobody's, and its items are back in the cart. */
  lemma RejectedAfterConfirmation()
    ensures var end := RunAll(Fresh([PLACE], []), Submitted() + RejectAfter()).db;
            && |end.orders| == 1 && |end.sessions| == 1
            && end.orders[0].lines != [] && !Produced(end.sessions[0], 0)
            && Linked(end.sessions[0].items, None) == [Item(0, None, 1)]
  {
    hide TryCall, Linked;
    var back := Session(0, Open, Some(0), [Item(0, None, 1)], [], 1, 1);
    var s0, s1 := Running([], FirstRound(), map[]), Opened(Changing(Reject));
    FirstLoads();
    RejectPasses();
    OpeningEffect(Changing(Reject));
    ConfirmedBeside(Changing(Reject));
    var s2 := RunAll(s1, Confirmation(3));
    TakenBack();
    assert Apply(s2, Save(2)) == Running([Ticket(1)], back, map[]);
    SubmittedEffect();
    EventsConcat(Fresh([PLACE], []), Submitted(), RejectAfter());
    EventsConcat(s0, Opening(Changing(Reject)), Confirmation(3) + ([Save(2)] + []));
    EventsConcat(s1, Confirmation(3), [Save(2)] + []);
    Next(s2, Save(2), []);
    LinkedOne(Item(0, None, 1), None);
  }

  lemma RejectPasses()
    ensures TryCall(Running([], FirstRound(), map[]).db, 0, Changing(Reject)).Ok?
  {
    FirstLoads();
  }

  lemma TakenBack()
    ensures Saved(Confirmed1(1), FirstRound(), Changing(Reject))
        == Session(0, Open, Some(0), [Item(0, None, 1)], [], 1, 1)
  {
    FirstLoads();
    assert Relink([Item(0, Some(0), 1)], Some(0), None) == [Item(0, None, 1)];
    assert DropRound(Confirmed1(1).rounds, 0) == [] by {
      assert Confirmed1(1).rounds[..0] == [];
    }
  }

  // ---- Two confirmations that overlap ----

  /** The second confirmation has read the session before the first commits. */
  function Overlapping(): seq<Event> {
    ([Begin(2, 0)] + ([Begin(3, 0)] + [])) +
    (Confirmation(2) + (Visit(1, Changing(DISH)) + (Visit(1, Changing(Submit)) + Confirmation(3))))
  }

  function OneWaits(orders: seq<Order>, s: Session): Sys {
    Running(orders, s, map[3 := Begun(0, None)])
  }

  function Refilled(): Session {
    Session(0, Open, Some(0), [Item(0, Some(0), 1), Item(1, None, 1)],
            [Round(0, 1, RoundConfirmed, 100, Some(0))], 2, 1)
  }

  function SecondRound(): Session {
    Session(0, Awaiting, Some(0), [Item(0, Some(0), 1), Item(1, Some(1), 1)],
            [Round(0, 1, RoundConfirmed, 100, Some(0)), Round(1, 2, RoundPending, 100, None)], 2, 2)
  }

  function Confirmed2(): Session {
    Session(0, Open, Some(1), [Item(0, Some(0), 1), Item(1, Some(1), 1)],
            [Round(0, 1, RoundConfirmed, 100, Some(0)), Round(1, 2, RoundConfirmed, 100, Some(1))], 2, 2)
  }

  lemma LinkedTwo(a: CartItem, b: CartItem, round: Option<nat>)
    ensures Linked([a, b], round) == (if a.round == round then [a] else []) + (if b.round == round then [b] else [])
  {
    assert [a, b] == [a] + [b];
    LinkedAppend([a], b, round);
    LinkedOne(a, round);
  }

  lemma SecondSubmit()
    ensures SubmitDraft(Refilled()) == Ok(SecondRound()) &&
        Saved(Refilled(), Refilled(), Changing(Submit)) == SecondRound()
  {
    hide Linked, Value, NextNumber;
    LinkedTwo(Item(0, Some(0), 1), Item(1, None, 1), None);
    LinkedOne(Item(1, None, 1), None);
    assert [] + [Item(1, None, 1)] == [Item(1, None, 1)];
    NumbersFromOne(Refilled().rounds);
    assert Relink(Refilled().items, None, Some(1)) == SecondRound().items;
    assert WithRound(Refilled(), 100) == SecondRound();
  }

  function SecondLoaded(target: Option<nat>): Pending {
    Loaded(0, target, 1, [Item(1, Some(1), 1)], [Line(7, 1, 100, 100, 2)], false, PRICES)
  }

  lemma SecondLoads()
    ensures Linked(SecondRound().items, Some(1)) == [Item(1, Some(1), 1)]
    ensures RoundLines([Item(1, Some(1), 1)], PRICES, 2) == Ok([Line(7, 1, 100, 100, 2)])
    ensures Value([Item(1, Some(1), 1)]) == 100
    ensures PendingId(SecondRound()) == Some(1) && PendingIndex(SecondRound().rounds) == 1
    ensures IndexOfRound(SecondRound().rounds, 1) == 1
  {
    hide Linked, RoundLines;
    LinkedTwo(Item(0, Some(0), 1), Item(1, Some(1), 1), Some(1));
    LinkedOne(Item(1, Some(1), 1), Some(1));
    LinesOne(Item(1, Some(1), 1), 2);
    var rounds := SecondRound().rounds;
    assert rounds[1..] == [rounds[1]];
    assert PendingIndex([rounds[1]]) == 0 && IndexOfRound([rounds[1]], 1) == 0;
  }

  lemma SecondCommit(db: Db, target: Option<nat>)
    requires |db.orders| == 1
    requires db == Running(db.orders, SecondRound(), map[]).db || db == Vacant(db.orders, SecondRound(), map[]).db
    ensures CommitTx(db, SecondLoaded(target)) == Ok(Running(db.orders + [Ticket(2)], Confirmed2(), map[]).db)
  {
    hide Emit, Value, Linked, IndexOfRound;
    var s := SecondRound();
    SecondLoads();
    EmitsTicket(db, s, target, 2);
    var out := Running(db.orders + [Ticket(2)], s, map[]).db;
    assert Emit(db, 0, target, false, SecondLoaded(target).lines) == Ok((out, 1));
    assert s.rounds[1 := Round(1, 2, RoundConfirmed, 100, Some(1))] == Confirmed2().rounds;
    assert out.sessions[0 := Confirmed2()] == Running([], Confirmed2(), map[]).db.sessions;
  }

  lemma BothRead()
    ensures var s0 := Running([], FirstRound(), map[]);
            RunAll(s0, [Begin(2, 0)] + ([Begin(3, 0)] + []))
                == s0.(pending := map[2 := Begun(0, None), 3 := Begun(0, None)])
  {
    var s0 := Running([], FirstRound(), map[]);
    Next(s0, Begin(2, 0), [Begin(3, 0)] + []);
    Next(Apply(s0, Begin(2, 0)), Begin(3, 0), []);
  }

  lemma FirstOfTwo()
    ensures var s1 := Running([], FirstRound(), map[2 := Begun(0, None), 3 := Begun(0, None)]);
            RunAll(s1, Confirmation(2)) == OneWaits([Ticket(1)], Confirmed1(1))
  {
    hide CommitTx, Linked, RoundLines, IndexOfRound;
    FirstLoads();
    FirstCommit(1);
    assert FirstRound().(items := [Item(0, Some(0), 1)]) == FirstRound();
    ConfirmationEffect(Running([], FirstRound(), map[2 := Begun(0, None), 3 := Begun(0, None)]), 2, FirstLoaded());
  }

  lemma SecondOfTwo()
    ensures RunAll(OneWaits([Ticket(1)], SecondRound()), Confirmation(3))
        == Running([Ticket(1), Ticket(2)], Confirmed2(), map[])
  {
    hide CommitTx, Linked, RoundLines, IndexOfRound;
    SecondLoads();
    SecondCommit(OneWaits([Ticket(1)], SecondRound()).db, None);
    assert [Ticket(1)] + [Ticket(2)] == [Ticket(1), Ticket(2)];
    ConfirmationEffect(OneWaits([Ticket(1)], SecondRound()), 3, SecondLoaded(None));
  }

  lemma SecondDish()
    ensures AddItemTo(Confirmed1(1), 7, 1, "A", PRICES) == Ok(Refilled())
    ensures Saved(Confirmed1(1), Confirmed1(1), Changing(DISH)) == Refilled()
  {
    assert WithItem(Confirmed1(1), 7, 100, 1, "A").items == Refilled().items;
  }

  lemma RefillEffect(rest: seq<Event>)
    ensures RunAll(OneWaits([Ticket(1)], Confirmed1(1)), Visit(1, Changing(DISH)) + (Visit(1, Changing(Submit)) + rest))
         == RunAll(OneWaits([Ticket(1)], SecondRound()), rest)
  {
    hide Saved, AddItemTo, SubmitDraft;
    var s2, s3 := OneWaits([Ticket(1)], Confirmed1(1)), OneWaits([Ticket(1)], Refilled());
    SecondDish();
    SecondSubmit();
    VisitEffect(s2, 1, Changing(DISH));
    assert RunAll(s2, Visit(1, Changing(DISH))) == s3;
    VisitEffect(s3, 1, Changing(Submit));
    assert RunAll(s3, Visit(1, Changing(Submit))) == OneWaits([Ticket(1)], SecondRound());
    EventsConcat(s3, Visit(1, Changing(Submit)), rest);
    EventsConcat(s2, Visit(1, Changing(DISH)), Visit(1, Changing(Submit)) + rest);
  }

  lemma OverlapEffect()
    ensures RunAll(Running([], FirstRound(), map[]), Overlapping())
        == Running([Ticket(1), Ticket(2)], Confirmed2(), map[])
  {
    hide RunAll, Visit, Confirmation;
    var s0, s1 := Running([], FirstRound(), map[]),
        Running([], FirstRound(), map[2 := Begun(0, None), 3 := Begun(0, None)]);
    var rest := Visit(1, Changing(DISH)) + (Visit(1, Changing(Submit)) + Confirmation(3));
    EventsConcat(s0, [Begin(2, 0)] + ([Begin(3, 0)] + []), Confirmation(2) + rest);
    BothRead();
    EventsConcat(s1, Confirmation(2), rest);
    FirstOfTwo();
    RefillEffect(Confirmation(3));
    SecondOfTwo();
  }

  /** Overlapping confirmations leave one session with two orders that still take lines. */
  lemma OverlappingConfirmations()
    ensures var end := RunAll(Fresh([PLACE], []), Submitted() + Overlapping()).db;
            && |end.orders| == 2 && |end.sessions| == 1
            && Appendable(end.orders[0]) && Produced(end.sessions[0], 0)
            && Appendable(end.orders[1]) && Produced(end.sessions[0], 1)
  {
    hide RunAll, Submitted, Overlapping;
    EventsConcat(Fresh([PLACE], []), Submitted(), Overlapping());
    SubmittedEffect();
    OverlapEffect();
    assert Confirmed2().rounds[0].order == Some(0) && Confirmed2().rounds[1].order == Some(1);
  }

  // ---- Closing with a debt ----

  function Serve(): seq<Event> {
    [Whole(Call(SetStatus(0, 1, Preparing)))] +
    ([Whole(Call(SetStatus(0, 2, Ready)))] + ([Whole(Call(SetStatus(0, 3, Delivered)))] + []))
  }

  function Served(): Order {
    Ticket(1).(status := Delivered, version := 4,
      history := [Change(None, Confirmed), Change(Some(Confirmed), Preparing), Change(Some(Preparing), Ready),
          Change(Some(Ready), Delivered)])
  }

  function Cooked(): Order {
    Ticket(1).(status := Ready, version := 3,
      history := [Change(None, Confirmed), Change(Some(Confirmed), Preparing), Change(Some(Preparing), Ready)])
  }

  /** The first order is delivered and not paid, a second one is opened and paid, and the session
      is closed. */
  function Unsettled(): seq<Event> {
    ([Begin(3, 0)] + Confirmation(3)) +
    (Serve() +
    ((Visit(1, Changing(DISH)) + (Visit(1, Changing(Submit)) + ([Begin(3, 0)] + Confirmation(3)))) +
    ([Whole(Call(Pay(1, 1, 100)))] + [Check(1, 0, Closing), Save(1)])))
  }

  lemma FirstAlone()
    ensures RunAll(Running([], FirstRound(), map[]), [Begin(3, 0)] + Confirmation(3))
        == Running([Ticket(1)], Confirmed1(1), map[])
  {
    hide CommitTx, Linked, RoundLines, IndexOfRound;
    FirstLoads();
    FirstCommit(1);
    assert FirstRound().(items := [Item(0, Some(0), 1)]) == FirstRound();
    var s1 := Running([], FirstRound(), map[3 := Begun(0, None)]);
    Next(Running([], FirstRound(), map[]), Begin(3, 0), Confirmation(3));
    assert Apply(Running([], FirstRound(), map[]), Begin(3, 0)) == s1;
    ConfirmationEffect(s1, 3, FirstLoaded());
  }

  lemma ServeEffect()
    ensures RunAll(Running([Ticket(1)], Confirmed1(1), map[]), Serve()) == Vacant([Served()], Confirmed1(1), map[])
  {
    var first := Ticket(1);
    var second := Moved(first, Confirmed, Preparing);
    var third := Moved(second, Preparing, Ready);
    var s0, s1, s2 := Running([first], Confirmed1(1), map[]), Running([second], Confirmed1(1), map[]),
        Running([third], Confirmed1(1), map[]);
    assert Apply(s0, Whole(Call(SetStatus(0, 1, Preparing)))) == s1;
    assert Apply(s1, Whole(Call(SetStatus(0, 2, Ready)))) == s2;
    assert third == Cooked();
    Next(s0, Whole(Call(SetStatus(0, 1, Preparing))),
        [Whole(Call(SetStatus(0, 2, Ready)))] + ([Whole(Call(SetStatus(0, 3, Delivered)))] + []));
    Next(s1, Whole(Call(SetStatus(0, 2, Ready))), [Whole(Call(SetStatus(0, 3, Delivered)))] + []);
    Next(s2, Whole(Call(SetStatus(0, 3, Delivered))), []);
    LastServed(s2);
  }

  lemma LastServed(s: Sys)
    requires s == Running([Cooked()], Confirmed1(1), map[])
    ensures Apply(s, Whole(Call(SetStatus(0, 3, Delivered)))) == Vacant([Served()], Confirmed1(1), map[])
  {
    var o := s.db.orders[0];
    assert Moved(o, Ready, Delivered) == Served();
    assert s.db.orders[0 := Served()] == [Served()];
    assert SetTable(s.db.tables, Some(0), Available) == [PLACE];
  }

  lemma RefillServed(rest: seq<Event>)
    ensures RunAll(Vacant([Served()], Confirmed1(1), map[]),
        Visit(1, Changing(DISH)) + (Visit(1, Changing(Submit)) + rest))
         == RunAll(Vacant([Served()], SecondRound(), map[]), rest)
  {
    hide Saved, AddItemTo, SubmitDraft, Visit;
    var s0, s1 := Vacant([Served()], Confirmed1(1), map[]), Vacant([Served()], Refilled(), map[]);
    SecondDish();
    SecondSubmit();
    VisitEffect(s0, 1, Changing(DISH));
    VisitEffect(s1, 1, Changing(Submit));
    assert RunAll(s0, Visit(1, Changing(DISH))) == s1;
    assert RunAll(s1, Visit(1, Changing(Submit))) == Vacant([Served()], SecondRound(), map[]);
    EventsConcat(s0, Visit(1, Changing(DISH)), Visit(1, Changing(Submit)) + rest);
    EventsConcat(s1, Visit(1, Changing(Submit)), rest);
  }

  lemma SecondAlone()
    ensures RunAll(Vacant([Served()], Confirmed1(1), map[]),
                   Visit(1, Changing(DISH)) + (Visit(1, Changing(Submit)) + ([Begin(3, 0)] + Confirmation(3))))
         == Running([Served(), Ticket(2)], Confirmed2(), map[])
  {
    hide CommitTx, Linked, RoundLines, IndexOfRound, Visit;
    RefillServed([Begin(3, 0)] + Confirmation(3));
    var s2, s3 := Vacant([Served()], SecondRound(), map[]),
        Vacant([Served()], SecondRound(), map[3 := Begun(0, Some(0))]);
    Next(s2, Begin(3, 0), Confirmation(3));
    assert Apply(s2, Begin(3, 0)) == s3;
    SecondLoads();
    SecondCommit(s3.db, Some(0));
    assert [Served()] + [Ticket(2)] == [Served(), Ticket(2)];
    ConfirmationEffect(s3, 3, SecondLoaded(Some(0)));
  }

  lemma PaidAndClosed()
    ensures var end := RunAll(Running([Served(), Ticket(2)], Confirmed2(), map[]),
                              [Whole(Call(Pay(1, 1, 100)))] + [Check(1, 0, Closing), Save(1)]).db;
            && end.orders == [Served(), WithPayment(Ticket(2), Paid)]
            && end.sessions == [Ended(Confirmed2())]
  {
    var s0 := Running([Served(), Ticket(2)], Confirmed2(), map[]);
    var pay := Whole(Call(Pay(1, 1, 100)));
    var s1 := Apply(s0, pay);
    assert s1.db.orders == [Served(), WithPayment(Ticket(2), Paid)] && s1.db.sessions == [Confirmed2()];
    Next(s0, pay, [Check(1, 0, Closing), Save(1)]);
    Two(s1, Check(1, 0, Closing), Save(1));
    var s2 := Apply(s1, Check(1, 0, Closing));
    assert s2.pending == map[1 := Visited(0, Closing, Confirmed2())];
  }

  /** A session is closed although an order it produced was delivered and never paid. */
  lemma ClosedWithDebt()
    ensures var end := RunAll(Fresh([PLACE], []), Submitted() + Unsettled()).db;
            && |end.sessions| == 1 && end.sessions[0].status.Closed?
            && Produced(end.sessions[0], 0) && StillOwes(end, Some(0))
  {
    hide RunAll, Submitted, Visit, Confirmation, Serve;
    var s0, s1 := Running([], FirstRound(), map[]), Running([Ticket(1)], Confirmed1(1), map[]);
    var second := Visit(1, Changing(DISH)) + (Visit(1, Changing(Submit)) + ([Begin(3, 0)] + Confirmation(3)));
    var last := [Whole(Call(Pay(1, 1, 100)))] + [Check(1, 0, Closing), Save(1)];
    EventsConcat(Fresh([PLACE], []), Submitted(), Unsettled());
    SubmittedEffect();
    EventsConcat(s0, [Begin(3, 0)] + Confirmation(3), Serve() + (second + last));
    FirstAlone();
    EventsConcat(s1, Serve(), second + last);
    ServeEffect();
    EventsConcat(Vacant([Served()], Confirmed1(1), map[]), second, last);
    SecondAlone();
    PaidAndClosed();
    assert Ended(Confirmed2()).rounds[0].order == Some(0);
  }

  // ---- Closing over a busy table ----

  function PaidAndLeft(): seq<Event> {
    ([Begin(3, 0)] + Confirmation(3)) + ([Whole(Call(Pay(0, 1, 100)))] + [Check(1, 0, Closing), Save(1)])
  }

  lemma PaidAtOnce()
    ensures var s := Apply(Running([Ticket(1)], Confirmed1(1), map[]), Whole(Call(Pay(0, 1, 100))));
            && s.db == Running([WithPayment(Ticket(1), Paid)], Confirmed1(1), map[]).db && s.pending == map[]
  {
    assert [Ticket(1)][0 := WithPayment(Ticket(1), Paid)] == [WithPayment(Ticket(1), Paid)];
  }

  lemma LeftEffect()
    ensures var end := RunAll(Running([Ticket(1)], Confirmed1(1), map[]),
                              [Whole(Call(Pay(0, 1, 100)))] + [Check(1, 0, Closing), Save(1)]).db;
            end.orders == [WithPayment(Ticket(1), Paid)] && end.tables == [PLACE]
  {
    hide Try;
    var s0 := Running([Ticket(1)], Confirmed1(1), map[]);
    var pay := Whole(Call(Pay(0, 1, 100)));
    var s1 := Apply(s0, pay);
    PaidAtOnce();
    Next(s0, pay, [Check(1, 0, Closing), Save(1)]);
    Two(s1, Check(1, 0, Closing), Save(1));
    var s2 := Apply(s1, Check(1, 0, Closing));
    assert s2.pending == map[1 := Visited(0, Closing, Confirmed1(1))];
    assert Vacated(s1.db.tables, 0) == [PLACE];
  }

  /** The order is paid as soon as it is confirmed and the session closed at once: the table is
      offered as available while the kitchen is still at work for it. */
  lemma ClosedOverBusyTable()
    ensures !OccupiedOk(RunAll(Fresh([PLACE], []), Submitted() + PaidAndLeft()).db)
  {
    hide RunAll, Submitted, Confirmation;
    var s0 := Running([], FirstRound(), map[]);
    EventsConcat(Fresh([PLACE], []), Submitted(), PaidAndLeft());
    SubmittedEffect();
    EventsConcat(s0, [Begin(3, 0)] + Confirmation(3), [Whole(Call(Pay(0, 1, 100)))] + [Check(1, 0, Closing), Save(1)]);
    FirstAlone();
    LeftEffect();
    BusyTable(RunAll(Fresh([PLACE], []), Submitted() + PaidAndLeft()).db);
  }

  // ---- A closing that comes after the confirmation ----

  function CloseAfter(): seq<Event> {
    Opening(Closing) + (Confirmation(3) + ([Save(2)] + []))
  }

  /** A closing was checked while the round waited and is written after it was confirmed: the
      session is closed, its order is unpaid, and its table is available. */
  lemma ClosedAfterConfirmation()
    ensures var end := RunAll(Fresh([PLACE], []), Submitted() + CloseAfter()).db;
            && |end.sessions| == 1 && end.sessions[0].status.Closed?
            && StillOwes(end, end.sessions[0].confirmedOrder) && !OccupiedOk(end)
  {
    hide RunAll, Submitted, Confirmation, TryCall;
    var s0, s1 := Running([], FirstRound(), map[]), Opened(Closing);
    var s2 := Running([Ticket(1)], Confirmed1(1), map[2 := Visited(0, Closing, FirstRound())]);
    ClosingPasses();
    OpeningEffect(Closing);
    ConfirmedBeside(Closing);
    SubmittedEffect();
    EventsConcat(Fresh([PLACE], []), Submitted(), CloseAfter());
    EventsConcat(s0, Opening(Closing), Confirmation(3) + ([Save(2)] + []));
    EventsConcat(s1, Confirmation(3), [Save(2)] + []);
    LateClosing(s2);
    Next(s2, Save(2), []);
    NoMore(Apply(s2, Save(2)));
    BusyTable(Apply(s2, Save(2)).db);
  }

  lemma BusyTable(db: Db)
    requires |db.orders| == 1 && Sits(db.orders[0], 0) && db.tables == [PLACE]
    ensures !OccupiedOk(db)
  {
    assert !db.tables[0].deleted && !db.tables[0].status.Occupied?;
  }

  lemma NoMore(sys: Sys)
    ensures RunAll(sys, []) == sys
  {
  }

  lemma ClosingPasses()
    ensures TryCall(Running([], FirstRound(), map[]).db, 0, Closing).Ok?
  {
  }

  lemma LateClosing(s: Sys)
    requires s == Running([Ticket(1)], Confirmed1(1), map[2 := Visited(0, Closing, FirstRound())])
    ensures var end := Apply(s, Save(2)).db;
            end.orders == [Ticket(1)] && end.sessions == [Ended(Confirmed1(1))] && end.tables == [PLACE]
  {
    assert Vacated(s.db.tables, 0) == [PLACE];
  }

  // ---- A coupon above 100 percent, an event marked without its message ----

  /** A coupon over ten percent is patched to 150 percent of everything: an order of one unit of
      money is discounted by one and a half. */
  lemma OversizedCoupon()
    ensures var c := Coupon(Percentage, 1000, 0, None, [], None, 0, true, false, None, None);
            var db := Do(NewDb([], [c]), PatchCoupon(0, c.(value := 15000)));
            |db.coupons| == 1 && Coupons.ValidateCoupon(db.coupons[0], 100, [], 0) == Ok(150)
  {
    assert Coupons.NearestCent(100 * 15000) == 150;
  }

  /** The message of a first delivery could not be stored; a second payload with the same event id
      and another message is stored, and the event counts as processed without the first. */
  lemma MarkedWithoutMessage()
    ensures var first := Webhook.Deliver(Webhook.Store(map[], [], [], []), Webhook.Payload(1, Some(10)),
        Webhook.AtCreateMessage);
            var second := Webhook.Deliver(first.0, Webhook.Payload(1, Some(11)), Webhook.Flawless);
            && first.1.Failure? && second.1.Success?
            && second.0.events == map[1 := Webhook.Stored(Webhook.Processed, Some(10))] && second.0.messages == [11]
  {
  }
}
