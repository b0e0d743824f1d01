/** Requests whose steps interleave. An order request reads and checks outside its transaction
    and writes later (order.service.js:293-311, 485-512); a session call checks the session it
    has read and writes later (table-session.service.js:169-254, 359-382, 518-543, 564-589); a
    confirmation reads its session, locks the pending round, loads its items and only then
    writes (384-502). Here: the machine, and what no interleaving can disturb. */
module Interleaving {
  import opened Data
  import opened OrderTx
  import opened OrderInvariants
  import opened SessionTx
  import opened SessionShape
  import opened System

  /** Where a request stands. A session is held while a request is Locked or Loaded. */
  datatype Pending =
    | Checked(request: Request, seen: Order)
    | Visited(sid: nat, call: SessionCall, session: Session)
    | Begun(sid: nat, target: Option<nat>)
    | Locked(sid: nat, target: Option<nat>, round: nat)
    | Loaded(sid: nat, target: Option<nat>, round: nat, items: seq<CartItem>, lines: seq<Line>, append: bool,
        menu: Menu)

  /** `receipts` records, per order, the amount the last accepted payment was checked for. */
  datatype Sys = Sys(db: Db, pending: map<nat, Pending>, receipts: map<nat, nat>)

  datatype Event =
    | Whole(act: Act)
    | Read(pid: nat, request: Request)
    | Write(pid: nat)
    | Check(pid: nat, sid: nat, call: SessionCall)
    | Save(pid: nat)
    | Begin(pid: nat, sid: nat)
    | Lock(pid: nat)
    | Load(pid: nat, menu: Menu)
    | Commit(pid: nat)
    | Drop(pid: nat)

  predicate Holds(p: Pending, sid: nat) {
    (p.Locked? || p.Loaded?) && p.sid == sid
  }

  predicate LockedBySome(pending: map<nat, Pending>, sid: nat) {
    exists pid :: pid in pending && Holds(pending[pid], sid)
  }

  predicate RoundHeld(pending: map<nat, Pending>, sid: nat, round: nat) {
    exists pid :: pid in pending && Holds(pending[pid], sid) && pending[pid].round == round
  }

  /** The writes that meet the row lock of a confirmation: closing updates the pending round, a
      rejection deletes the round it had found. An edit, a new item or a new round does not. */
  predicate SaveWaits(pending: map<nat, Pending>, p: Pending)
    requires p.Visited?
  {
    || (p.call.Closing? && LockedBySome(pending, p.sid))
    || (p.call == Changing(Reject) && PendingId(p.session).Some? &&
        RoundHeld(pending, p.sid, PendingId(p.session).value))
  }

  /** The calls that are one step; those on an existing session go through steps of their own. */
  predicate Undivided(act: Act) {
    !act.Confirm? && !act.Edit? && !act.Close?
  }

  function Receipt(receipts: map<nat, nat>, r: Request): map<nat, nat> {
    if r.Pay? then receipts[r.id := r.amount] else receipts
  }

  function Forget(pending: map<nat, Pending>, pid: nat): map<nat, Pending> {
    pending - {pid}
  }

  function IndexOfRound(rounds: seq<Round>, id: nat): nat {
    if rounds == [] || (rounds[0].id == id && rounds[0].status.RoundPending?) then 0
    else 1 + IndexOfRound(rounds[1..], id)
  }

  /** The last step of a confirmation: emit the lines loaded before, then mark the round if it
      is still pending; otherwise everything is rolled back. */
  function CommitTx(db: Db, p: Pending): Result<Db>
    requires p.Loaded?
  {
    if p.sid >= |db.sessions| then Err(NotFound)
    else
      var s := db.sessions[p.sid];
      match Emit(db, s.table, p.target, p.append, p.lines)
      case Err(e) => Err(e)
      case Ok(out) =>
        var k := IndexOfRound(s.rounds, p.round);
        if k >= |s.rounds| then Err(Conflict)
        else
          var round := s.rounds[k].(status := RoundConfirmed, order := Some(out.1), total := Value(p.items));
          Ok(out.0.(sessions := out.0.sessions[p.sid :=
            s.(status := Open, confirmedOrder := Some(out.1), rounds := s.rounds[k := round])]))
  }

  /** Takes the row lock: blocked while another request holds it, refused without a pending
      round (the wait re-evaluates the status of the row). */
  function LockStep(sys: Sys, pid: nat, p: Pending): Sys
    requires p.Begun?
  {
    if LockedBySome(sys.pending, p.sid) then sys
    else if p.sid >= |sys.db.sessions| || PendingIndex(sys.db.sessions[p.sid].rounds) == |sys.db.sessions[p.sid].rounds|
    then sys.(pending := Forget(sys.pending, pid))
    else
      var s := sys.db.sessions[p.sid];
      sys.(pending := sys.pending[pid := Locked(p.sid, p.target, s.rounds[PendingIndex(s.rounds)].id)])
  }

  function LoadStep(sys: Sys, pid: nat, p: Pending, menu: Menu): Sys
    requires p.Locked?
  {
    if p.sid >= |sys.db.sessions| then sys.(pending := Forget(sys.pending, pid))
    else
      var s := sys.db.sessions[p.sid];
      var items := Linked(s.items, Some(p.round));
      var k := IndexOfRound(s.rounds, p.round);
      if |items| == 0 || k >= |s.rounds| then sys.(pending := Forget(sys.pending, pid))
      else
        match RoundLines(items, menu, s.rounds[k].number)
        case Err(_) => sys.(pending := Forget(sys.pending, pid))
        case Ok(lines) =>
          sys.(pending := sys.pending[pid := Loaded(p.sid, p.target, p.round, items, lines,
              CanAppend(sys.db, p.target), menu)])
  }

  function WriteStep(sys: Sys, pid: nat, p: Pending): Sys
    requires p.Checked?
  {
    var rest := Forget(sys.pending, pid);
    match WriteTx(sys.db, p.request, p.seen)
    case Err(_) => sys.(pending := rest)
    case Ok(d) => Sys(d, rest, Receipt(sys.receipts, p.request))
  }

  function CommitStep(sys: Sys, pid: nat, p: Pending): Sys
    requires p.Loaded?
  {
    var rest := Forget(sys.pending, pid);
    match CommitTx(sys.db, p)
    case Err(_) => sys.(pending := rest)
    case Ok(d) => sys.(db := d, pending := rest)
  }

  /** The writes of a session call, whatever has become of the session since its check. */
  function SaveStep(sys: Sys, pid: nat, p: Pending): Sys
    requires p.Visited?
  {
    if p.sid >= |sys.db.sessions| || SaveWaits(sys.pending, p) then sys
    else sys.(db := SaveTx(sys.db, p.sid, p.session, p.call), pending := Forget(sys.pending, pid))
  }

  function WholeStep(sys: Sys, act: Act): Sys {
    if !Undivided(act) then sys
    else
      match Try(sys.db, act)
      case Err(_) => sys
      case Ok(d) => sys.(db := d, receipts := if act.Call? then Receipt(sys.receipts, act.request) else sys.receipts)
  }

  /** One step; an event that does not apply changes nothing. */
  function Apply(sys: Sys, event: Event): Sys {
    match event
    case Whole(act) => WholeStep(sys, act)
    case Read(pid, r) =>
      if pid !in sys.pending && r.id < |sys.db.orders| && Accepts(sys.db.orders[r.id], r)
      then sys.(pending := sys.pending[pid := Checked(r, sys.db.orders[r.id])]) else sys
    case Check(pid, sid, call) =>
      if pid !in sys.pending && sid < |sys.db.sessions| && TryCall(sys.db, sid, call).Ok?
      then sys.(pending := sys.pending[pid := Visited(sid, call, sys.db.sessions[sid])]) else sys
    case Begin(pid, sid) =>
      if pid !in sys.pending && sid < |sys.db.sessions| && !sys.db.sessions[sid].status.Closed?
      then sys.(pending := sys.pending[pid := Begun(sid, sys.db.sessions[sid].confirmedOrder)]) else sys
    case Write(pid) =>
      if pid in sys.pending && sys.pending[pid].Checked? then WriteStep(sys, pid, sys.pending[pid]) else sys
    case Save(pid) =>
      if pid in sys.pending && sys.pending[pid].Visited? then SaveStep(sys, pid, sys.pending[pid]) else sys
    case Lock(pid) =>
      if pid in sys.pending && sys.pending[pid].Begun? then LockStep(sys, pid, sys.pending[pid]) else sys
    case Load(pid, menu) =>
      if pid in sys.pending && sys.pending[pid].Locked? then LoadStep(sys, pid, sys.pending[pid], menu) else sys
    case Commit(pid) =>
      if pid in sys.pending && sys.pending[pid].Loaded? then CommitStep(sys, pid, sys.pending[pid]) else sys
    case Drop(pid) => sys.(pending := Forget(sys.pending, pid))
  }

  function RunAll(sys: Sys, events: seq<Event>): Sys
    decreases |events|
  {
    if events == [] then sys else RunAll(Apply(sys, events[0]), events[1..])
  }

  /** The expected version of a request was observed no later than the service's own read. */
  predicate Observed(sys: Sys, event: Event) {
    event.Read? && event.request.id < |sys.db.orders| ==>
        event.request.expected <= sys.db.orders[event.request.id].version
  }

  ghost predicate ObservedRun(sys: Sys, events: seq<Event>)
    decreases |events|
  {
    events == [] || (Observed(sys, events[0]) && ObservedRun(Apply(sys, events[0]), events[1..]))
  }

  // ---- Orders, coupons and payments under any interleaving ----

  ghost predicate RequestOk(db: Db, r: Request, seen: Order) {
    r.id < |db.orders| && Accepts(seen, r) && r.expected <= seen.version && Evolves(seen, db.orders[r.id])
  }

  ghost predicate RequestsOk(sys: Sys) {
    forall pid :: pid in sys.pending && sys.pending[pid].Checked? ==>
      RequestOk(sys.db, sys.pending[pid].request, sys.pending[pid].seen)
  }

  /** What an order was paid for is its total, for good. */
  ghost predicate ReceiptsOk(sys: Sys) {
    forall i :: 0 <= i < |sys.db.orders| && !sys.db.orders[i].payment.Unpaid? ==>
      i in sys.receipts && sys.receipts[i] == sys.db.orders[i].total
  }

  ghost predicate OrdersInv(sys: Sys) {
    Books(sys.db) && RequestsOk(sys) && ReceiptsOk(sys)
  }

  /** A write that passes the version check found the row exactly as the service had read it. */
  lemma WriteIsCall(db: Db, r: Request, seen: Order)
    requires RequestOk(db, r, seen) && WriteTx(db, r, seen).Ok?
    ensures db.orders[r.id] == seen && CallTx(db, r) == WriteTx(db, r, seen)
  {
  }

  lemma CommitBooks(db: Db, p: Pending)
    requires Books(db) && p.Loaded? && CommitTx(db, p).Ok?
    ensures Books(CommitTx(db, p).value) && OrdersEvolve(db.orders, CommitTx(db, p).value.orders)
  {
    hide Books;
    var s := db.sessions[p.sid];
    EmitStep(db, s.table, p.target, p.append, p.lines);
    SameBooks(Emit(db, s.table, p.target, p.append, p.lines).value.0, CommitTx(db, p).value);
  }

  lemma StepKeepsOrders(sys: Sys, event: Event)
    requires Books(sys.db) && RequestsOk(sys)
    ensures Books(Apply(sys, event).db) && OrdersEvolve(sys.db.orders, Apply(sys, event).db.orders)
  {
    hide Books, OrdersEvolve, RequestOk, WriteTx, CallTx, CommitTx, SaveTx;
    OrdersEvolveSelf(sys.db.orders);
    match event
    case Whole(act) => StepKeepsBooks(sys.db, act);
    case Write(pid) =>
      if pid in sys.pending && sys.pending[pid].Checked? &&
          WriteTx(sys.db, sys.pending[pid].request, sys.pending[pid].seen).Ok? {
        WriteIsCall(sys.db, sys.pending[pid].request, sys.pending[pid].seen);
        CallBooks(sys.db, sys.pending[pid].request);
      }
    case Commit(pid) =>
      if pid in sys.pending && sys.pending[pid].Loaded? && CommitTx(sys.db, sys.pending[pid]).Ok? {
        CommitBooks(sys.db, sys.pending[pid]);
      }
    case Save(pid) => SaveSparesOrders(sys, pid);
    case _ =>
  }

  lemma SaveSparesOrders(sys: Sys, pid: nat)
    ensures Apply(sys, Save(pid)).db.orders == sys.db.orders
    ensures Books(sys.db) ==> Books(Apply(sys, Save(pid)).db)
  {
  }

  lemma StepKeepsRequests(sys: Sys, event: Event)
    requires RequestsOk(sys) && Observed(sys, event) && OrdersEvolve(sys.db.orders, Apply(sys, event).db.orders)
    ensures RequestsOk(Apply(sys, event))
  {
    var after := Apply(sys, event);
    forall pid | pid in after.pending && after.pending[pid].Checked?
      ensures RequestOk(after.db, after.pending[pid].request, after.pending[pid].seen)
    {
      if pid in sys.pending && sys.pending[pid] == after.pending[pid] {
        var p := sys.pending[pid];
        EvolvesTransitive(p.seen, sys.db.orders[p.request.id], after.db.orders[p.request.id]);
      } else {
        RequestIsNew(sys, event, pid);
      }
    }
  }

  /** A request that has just been checked has seen the order as it is. */
  lemma RequestIsNew(sys: Sys, event: Event, pid: nat)
    requires pid in Apply(sys, event).pending && Apply(sys, event).pending[pid].Checked?
    requires pid !in sys.pending || sys.pending[pid] != Apply(sys, event).pending[pid]
    requires Observed(sys, event)
    ensures var p := Apply(sys, event).pending[pid]; RequestOk(Apply(sys, event).db, p.request, p.seen)
  {
    hide Try, WriteTx, CommitTx, SaveTx, Linked, RoundLines;
  }

  // ---- Receipts ----

  /** The order call a step makes, if it makes one that goes through. */
  function MadeCall(sys: Sys, event: Event): Option<Request> {
    match event
    case Whole(act) => if act.Call? && Try(sys.db, act).Ok? then Some(act.request) else None
    case Write(pid) =>
      if pid in sys.pending && sys.pending[pid].Checked? &&
          WriteTx(sys.db, sys.pending[pid].request, sys.pending[pid].seen).Ok?
      then Some(sys.pending[pid].request) else None
    case _ => None
  }

  lemma MadeCallIsCall(sys: Sys, event: Event)
    requires RequestsOk(sys) && MadeCall(sys, event).Some?
    ensures var r := MadeCall(sys, event).value;
            CallTx(sys.db, r) == Ok(Apply(sys, event).db) && Apply(sys, event).receipts == Receipt(sys.receipts, r)
  {
    hide WriteTx, CallTx, RequestOk;
    if event.Write? {
      WriteIsCall(sys.db, sys.pending[event.pid].request, sys.pending[event.pid].seen);
    }
  }

  /** A call settles no other order, and a payment settles its order for the amount checked. */
  lemma CallSettles(db: Db, r: Request, i: nat)
    requires CallTx(db, r).Ok? && i < |CallTx(db, r).value.orders| && !CallTx(db, r).value.orders[i].payment.Unpaid?
    ensures i < |db.orders|
    ensures !(r.Pay? && r.id == i) ==> !db.orders[i].payment.Unpaid?
    ensures r.Pay? && r.id == i ==> CallTx(db, r).value.orders[i].total == r.amount
  {
    hide CallTx;
    RequestEffect(db, r);
  }

  /** Any other step settles no order at all. */
  lemma OthersSettleNothing(sys: Sys, event: Event, i: nat)
    requires MadeCall(sys, event).None?
    requires i < |Apply(sys, event).db.orders| && !Apply(sys, event).db.orders[i].payment.Unpaid?
    ensures i < |sys.db.orders| && !sys.db.orders[i].payment.Unpaid? && Apply(sys, event).receipts == sys.receipts
  {
    match event
    case Whole(act) => if Undivided(act) { WholeSettlesNothing(sys.db, act, i); }
    case Commit(pid) =>
      if pid in sys.pending && sys.pending[pid].Loaded? && CommitTx(sys.db, sys.pending[pid]).Ok? {
        var p := sys.pending[pid];
        EmitSettlesNothing(sys.db, sys.db.sessions[p.sid].table, p.target, p.append, p.lines, i);
      }
    case Save(pid) => SaveSparesOrders(sys, pid);
    case _ =>
  }

  lemma WholeSettlesNothing(db: Db, act: Act, i: nat)
    requires Undivided(act) && !(act.Call? && Try(db, act).Ok?)
    requires i < |Do(db, act).orders| && !Do(db, act).orders[i].payment.Unpaid?
    ensures i < |db.orders| && !db.orders[i].payment.Unpaid?
  {
  }

  lemma EmitSettlesNothing(db: Db, table: nat, target: Option<nat>, append: bool, lines: seq<Line>, i: nat)
    requires Emit(db, table, target, append, lines).Ok? && i < |Emit(db, table, target, append, lines).value.0.orders|
    requires !Emit(db, table, target, append, lines).value.0.orders[i].payment.Unpaid?
    ensures i < |db.orders| && !db.orders[i].payment.Unpaid?
  {
  }

  lemma StepKeepsReceipts(sys: Sys, event: Event)
    requires OrdersInv(sys)
    ensures ReceiptsOk(Apply(sys, event))
  {
    hide Books, RequestsOk, OrdersEvolve, MadeCall, Apply, CallTx;
    StepKeepsOrders(sys, event);
    var after := Apply(sys, event);
    forall i | 0 <= i < |after.db.orders| && !after.db.orders[i].payment.Unpaid?
      ensures i in after.receipts && after.receipts[i] == after.db.orders[i].total
    {
      if MadeCall(sys, event).None? {
        OthersSettleNothing(sys, event, i);
        SettledTotalStays(sys.db.orders, after.db.orders, i);
      } else {
        var r := MadeCall(sys, event).value;
        MadeCallIsCall(sys, event);
        CallSettles(sys.db, r, i);
        if !(r.Pay? && r.id == i) {
          SettledTotalStays(sys.db.orders, after.db.orders, i);
        }
      }
    }
  }

  lemma SettledTotalStays(orders: seq<Order>, orders': seq<Order>, i: nat)
    requires OrdersEvolve(orders, orders') && i < |orders| && !orders[i].payment.Unpaid?
    ensures orders'[i].total == orders[i].total
  {
    assert Evolves(orders[i], orders'[i]);
  }

  /** In any interleaving at all, with edits, rejections and closings wherever they fall, every
      order keeps an unbroken history of legal changes whose length is its version, the coupon
      ledger stays right, and a settled order's total is the amount that was checked for it. */
  lemma {:induction false} RunKeepsOrders(sys: Sys, events: seq<Event>)
    requires OrdersInv(sys) && ObservedRun(sys, events)
    ensures OrdersInv(RunAll(sys, events)) && OrdersEvolve(sys.db.orders, RunAll(sys, events).db.orders)
    decreases |events|
  {
    hide Books, RequestsOk, ReceiptsOk, Apply, OrdersEvolve, Observed;
    OrdersEvolveSelf(sys.db.orders);
    if events != [] {
      StepKeepsOrders(sys, events[0]);
      StepKeepsRequests(sys, events[0]);
      StepKeepsReceipts(sys, events[0]);
      RunKeepsOrders(Apply(sys, events[0]), events[1..]);
      OrdersEvolveTransitive(sys.db.orders, Apply(sys, events[0]).db.orders, RunAll(sys, events).db.orders);
    }
  }

  /** In plain numbers, for every order of every state that an interleaving reaches: the subtotal is
      the sum of the lines, and what there is to pay is the subtotal less the discount, or nothing
      when the discount is larger. */
  lemma MoneyIsRight(sys: Sys, events: seq<Event>, i: nat)
    requires OrdersInv(sys) && ObservedRun(sys, events) && i < |RunAll(sys, events).db.orders|
    ensures var o := RunAll(sys, events).db.orders[i];
            && o.subtotal == Sum(o.lines)
            && (o.discount <= o.subtotal ==> o.total + o.discount == o.subtotal)
            && (o.subtotal < o.discount ==> o.total == 0)
  {
    hide RunAll, ObservedRun;
    RunKeepsOrders(sys, events);
    assert OrderOk(RunAll(sys, events).db.orders[i]);
  }

  // ---- A round is emitted once, under any interleaving ----

  ghost predicate IdsOk(s: Session) {
    RoundIdsUnique(s.rounds) && forall k :: 0 <= k < |s.rounds| ==> s.rounds[k].id < s.nextRound
  }

  /** The round was there once and does not wait for confirmation any more. */
  ghost predicate Over(s: Session, id: nat) {
    id < s.nextRound && forall k :: 0 <= k < |s.rounds| && s.rounds[k].id == id ==> !s.rounds[k].status.RoundPending?
  }

  ghost predicate AllIdsOk(db: Db) {
    forall i :: 0 <= i < |db.sessions| ==> IdsOk(db.sessions[i])
  }

  ghost predicate OverAt(db: Db, sid: nat, id: nat) {
    sid < |db.sessions| && Over(db.sessions[sid], id)
  }

  lemma {:induction false} DroppedRounds(rounds: seq<Round>, id: nat)
    ensures forall k :: 0 <= k < |DropRound(rounds, id)| ==> DropRound(rounds, id)[k] in rounds
    ensures RoundIdsUnique(rounds) ==> RoundIdsUnique(DropRound(rounds, id))
  {
    if rounds != [] {
      DroppedRounds(rounds[..|rounds| - 1], id);
    }
  }

  lemma SavedKeepsIds(s: Session, seen: Session, call: SessionCall)
    requires IdsOk(s)
    ensures IdsOk(Saved(s, seen, call))
    ensures forall id :: Over(s, id) ==> Over(Saved(s, seen, call), id)
  {
    hide Linked, Value, NextNumber;
    if PendingId(seen).Some? {
      DroppedRounds(s.rounds, PendingId(seen).value);
    }
  }

  lemma {:induction false} IndexFinds(rounds: seq<Round>, id: nat)
    ensures IndexOfRound(rounds, id) <= |rounds|
    ensures var k := IndexOfRound(rounds, id); k < |rounds| ==> rounds[k].id == id && rounds[k].status.RoundPending?
  {
    if rounds != [] {
      IndexFinds(rounds[1..], id);
    }
  }

  lemma CommitKeepsIds(db: Db, p: Pending)
    requires p.Loaded? && CommitTx(db, p).Ok? && AllIdsOk(db)
    ensures AllIdsOk(CommitTx(db, p).value) && OverAt(CommitTx(db, p).value, p.sid, p.round)
    ensures forall sid, id :: OverAt(db, sid, id) ==> OverAt(CommitTx(db, p).value, sid, id)
  {
    hide Emit;
    var s := db.sessions[p.sid];
    IndexFinds(s.rounds, p.round);
    EmitSparesSessions(db, s.table, p.target, p.append, p.lines);
    assert IdsOk(s);
    var db' := CommitTx(db, p).value;
    assert db'.sessions == db.sessions[p.sid := db'.sessions[p.sid]];
    assert IdsOk(db'.sessions[p.sid]);
  }

  lemma EmitSparesSessions(db: Db, table: nat, target: Option<nat>, append: bool, lines: seq<Line>)
    requires Emit(db, table, target, append, lines).Ok?
    ensures Emit(db, table, target, append, lines).value.0.sessions == db.sessions
  {
  }

  lemma WholeKeepsIds(db: Db, act: Act)
    requires AllIdsOk(db) && Undivided(act)
    ensures AllIdsOk(Do(db, act)) && forall sid, id :: OverAt(db, sid, id) ==> OverAt(Do(db, act), sid, id)
  {
    assert |db.sessions| <= |Do(db, act).sessions|;
    assert forall i :: 0 <= i < |db.sessions| ==> Do(db, act).sessions[i] == db.sessions[i];
    assert forall i :: |db.sessions| <= i < |Do(db, act).sessions| ==> Do(db, act).sessions[i].rounds == [];
  }

  lemma WriteSparesSessions(db: Db, r: Request, seen: Order)
    ensures WriteTx(db, r, seen).Ok? ==> WriteTx(db, r, seen).value.sessions == db.sessions
  {
  }

  lemma StepKeepsIds(sys: Sys, event: Event)
    requires AllIdsOk(sys.db)
    ensures AllIdsOk(Apply(sys, event).db)
    ensures forall sid, id :: OverAt(sys.db, sid, id) ==> OverAt(Apply(sys, event).db, sid, id)
  {
    hide IdsOk, Over, Try, WriteTx, CommitTx, Saved;
    match event
    case Whole(act) => if Undivided(act) { WholeKeepsIds(sys.db, act); }
    case Write(pid) =>
      if pid in sys.pending && sys.pending[pid].Checked? {
        WriteSparesSessions(sys.db, sys.pending[pid].request, sys.pending[pid].seen);
      }
    case Save(pid) =>
      if pid in sys.pending && sys.pending[pid].Visited? && sys.pending[pid].sid < |sys.db.sessions| {
        var p := sys.pending[pid];
        SavedKeepsIds(sys.db.sessions[p.sid], p.session, p.call);
      }
    case Commit(pid) =>
      if pid in sys.pending && sys.pending[pid].Loaded? && CommitTx(sys.db, sys.pending[pid]).Ok? {
        CommitKeepsIds(sys.db, sys.pending[pid]);
      }
    case _ =>
  }

  lemma {:induction false} RunKeepsOver(sys: Sys, events: seq<Event>, sid: nat, id: nat)
    requires AllIdsOk(sys.db) && OverAt(sys.db, sid, id)
    ensures OverAt(RunAll(sys, events).db, sid, id)
    decreases |events|
  {
    hide AllIdsOk, OverAt, Apply;
    if events != [] {
      StepKeepsIds(sys, events[0]);
      RunKeepsOver(Apply(sys, events[0]), events[1..], sid, id);
    }
  }

  lemma {:induction false} RunKeepsIds(sys: Sys, events: seq<Event>)
    requires AllIdsOk(sys.db)
    ensures AllIdsOk(RunAll(sys, events).db)
    decreases |events|
  {
    hide AllIdsOk, OverAt, Apply;
    if events != [] {
      StepKeepsIds(sys, events[0]);
      RunKeepsIds(Apply(sys, events[0]), events[1..]);
    }
  }

  /** A round is emitted once: after one commit of it, whatever else happens, no request that has
      loaded the same round ever commits, even one the row lock would not have kept out. */
  lemma RoundEmittedOnce(sys: Sys, pid: nat, events: seq<Event>, q: Pending)
    requires AllIdsOk(sys.db) && pid in sys.pending && sys.pending[pid].Loaded? &&
        CommitTx(sys.db, sys.pending[pid]).Ok?
    requires q.Loaded? && q.sid == sys.pending[pid].sid && q.round == sys.pending[pid].round
    ensures CommitTx(RunAll(Apply(sys, Commit(pid)), events).db, q).Err?
  {
    hide AllIdsOk;
    CommitKeepsIds(sys.db, sys.pending[pid]);
    RunKeepsOver(Apply(sys, Commit(pid)), events, q.sid, q.round);
    var later := RunAll(Apply(sys, Commit(pid)), events).db;
    IndexFinds(later.sessions[q.sid].rounds, q.round);
  }
}
