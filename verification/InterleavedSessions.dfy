/** What interleaving does to sessions. The writes of a session call are not kept out by the lock
    of a confirmation and look at nothing again, so sessions and orders agree exactly as long as
    no write comes too late: the condition, its converse, and the serial order behind a run. */
module InterleavedSessions {
  import opened Data
  import opened OrderTx
  import opened OrderInvariants
  import opened SessionTx
  import opened SessionShape
  import opened SessionSaves
  import opened Conservation
  import opened System
  import opened Interleaving

  // ---- The invariant of a running system ----

  predicate IsPendingRound(rounds: seq<Round>, id: nat) {
    HasPending(rounds) && rounds[|rounds| - 1].id == id
  }

  ghost predicate PendingOk(db: Db, p: Pending) {
    match p
    case Checked(r, seen) => RequestOk(db, r, seen)
    case Visited(sid, call, seen) => sid < |db.sessions| && Checks(seen, call)
    case Begun(sid, target) => sid < |db.sessions| && TargetOk(db.sessions[sid], target)
    case Locked(sid, target, round) =>
      && sid < |db.sessions| && TargetOk(db.sessions[sid], target)
      && IsPendingRound(db.sessions[sid].rounds, round)
    case Loaded(sid, target, round, items, lines, append, menu) =>
      && sid < |db.sessions| && TargetOk(db.sessions[sid], target)
      && IsPendingRound(db.sessions[sid].rounds, round)
      && items == Linked(db.sessions[sid].items, Some(round)) && |items| > 0
      && RoundLines(items, menu, |db.sessions[sid].rounds|) == Ok(lines)
      && (append ==> target.Some?) && (!append ==> !CanAppend(db, target))
  }

  /** No session is held by two requests. */
  ghost predicate OneHolder(pending: map<nat, Pending>) {
    forall p, q, sid :: p in pending && q in pending && Holds(pending[p], sid) && Holds(pending[q], sid) ==> p == q
  }

  ghost predicate AllPendingOk(sys: Sys) {
    forall pid :: pid in sys.pending ==> PendingOk(sys.db, sys.pending[pid])
  }

  ghost predicate SysInv(sys: Sys) {
    Inv(sys.db) && AllPendingOk(sys) && OneHolder(sys.pending) && ReceiptsOk(sys)
  }

  lemma SysIsOrders(sys: Sys)
    requires SysInv(sys)
    ensures OrdersInv(sys)
  {
  }

  // ---- When a write is in time ----

  /** The edit changes an item of a round that a confirmation has loaded. */
  predicate HitsLoaded(pending: map<nat, Pending>, items: seq<CartItem>, sid: nat, call: SessionCall) {
    && call.Changing? && (call.step.UpdateItem? || call.step.RemoveItem?)
    && exists q :: q in pending && pending[q].Loaded? && pending[q].sid == sid &&
        Hits(items, call.step, Some(pending[q].round))
  }

  /** The event is the write of a session call, and it goes ahead. */
  predicate Saves(sys: Sys, event: Event) {
    && event.Save? && event.pid in sys.pending && sys.pending[event.pid].Visited?
    && sys.pending[event.pid].sid < |sys.db.sessions| && !SaveWaits(sys.pending, sys.pending[event.pid])
  }

  /** No write comes too late: what it was checked for is still so, and no edit touches an item
      that a confirmation has loaded. */
  predicate Timely(sys: Sys, event: Event) {
    Saves(sys, event) ==>
      var p := sys.pending[event.pid];
      var s := sys.db.sessions[p.sid];
      SafeSave(s, p.session, p.call) && !HitsLoaded(sys.pending, s.items, p.sid, p.call)
  }

  ghost predicate TimelyRun(sys: Sys, events: seq<Event>)
    decreases |events|
  {
    events == [] || (Timely(sys, events[0]) && TimelyRun(Apply(sys, events[0]), events[1..]))
  }

  // ---- Pending requests survive the steps of others ----

  lemma CannotAppendStays(db: Db, db': Db, sid: nat, target: Option<nat>)
    requires SessionsOk(db) && sid < |db.sessions| && TargetOk(db.sessions[sid], target)
    requires OrdersEvolve(db.orders, db'.orders) && !CanAppend(db, target)
    ensures !CanAppend(db', target)
  {
    if target.Some? {
      ProducedExists(db, sid, target.value);
      assert Evolves(db.orders[target.value], db'.orders[target.value]);
    }
  }

  /** A held session may change, but not the round that is held, nor its items once loaded. */
  ghost predicate HeldStays(db: Db, db': Db, p: Pending) {
    (p.Locked? || p.Loaded?) && p.sid < |db.sessions| && p.sid < |db'.sessions| ==>
      && db'.sessions[p.sid].rounds == db.sessions[p.sid].rounds
      && (p.Loaded? ==>
            Linked(db'.sessions[p.sid].items, Some(p.round)) == Linked(db.sessions[p.sid].items, Some(p.round)))
  }

  lemma PendingStays(db: Db, db': Db, p: Pending)
    requires SessionsOk(db) && PendingOk(db, p) && Extends(db, db') && HeldStays(db, db', p)
    ensures PendingOk(db', p)
  {
    hide SessionsOk;
    if p.Checked? {
      EvolvesTransitive(p.seen, db.orders[p.request.id], db'.orders[p.request.id]);
    } else if !p.Visited? {
      TargetStays(db.sessions[p.sid], db'.sessions[p.sid], p.target);
      if p.Loaded? && !p.append {
        CannotAppendStays(db, db', p.sid, p.target);
      }
    }
  }

  // ---- A commit is a whole confirmation ----

  lemma {:induction false} IndexOfLast(rounds: seq<Round>, id: nat)
    requires RoundIdsUnique(rounds) && IsPendingRound(rounds, id)
    ensures IndexOfRound(rounds, id) == |rounds| - 1
  {
    if |rounds| > 1 {
      assert RoundIdsUnique(rounds[1..]);
      IndexOfLast(rounds[1..], id);
    }
  }

  /** A commit that succeeds does what the whole confirmation would do at that moment. */
  lemma CommitIsConfirm(db: Db, p: Pending)
    requires Inv(db) && p.Loaded? && PendingOk(db, p) && CommitTx(db, p).Ok?
    ensures CommitTx(db, p) == ConfirmTx(db, p.sid, p.target, p.menu)
  {
    hide Inv, Linked, RoundLines, Value, CommitTx, ConfirmTx, Shape, Conserves, Produced, CanAppend;
    var s := db.sessions[p.sid];
    InvShape(db, p.sid);
    ShapeIds(s);
    IndexOfLast(s.rounds, p.round);
    PendingLast(s);
    CanAppendSome(db, p.target);
    SameConfirm(db, p);
  }

  lemma CanAppendSome(db: Db, target: Option<nat>)
    ensures CanAppend(db, target) ==> target.Some?
  {
  }

  /** With the round that waits, its items and its lines as loaded, the last steps are the same,
      whether an append is decided on now or was before: a refused one commits nothing. */
  lemma SameConfirm(db: Db, p: Pending)
    requires p.Loaded? && p.sid < |db.sessions| && CommitTx(db, p).Ok?
    requires var s := db.sessions[p.sid];
             var k := PendingIndex(s.rounds);
             && k < |s.rounds| && IndexOfRound(s.rounds, p.round) == k && s.rounds[k].id == p.round
             && p.items == Linked(s.items, Some(p.round)) && |p.items| > 0
             && RoundLines(p.items, p.menu, s.rounds[k].number) == Ok(p.lines)
    requires (p.append ==> p.target.Some?) && (!p.append ==> !CanAppend(db, p.target))
    ensures CommitTx(db, p) == ConfirmTx(db, p.sid, p.target, p.menu)
  {
    hide Linked, RoundLines, Value, PendingIndex, IndexOfRound, CanAppend, Emit;
    var s := db.sessions[p.sid];
    AppendNow(db, s.table, p.target, p.append, p.lines);
    EmitSparesSessions(db, s.table, p.target, p.append, p.lines);
  }

  /** An append that goes through could still be decided on. */
  lemma AppendNow(db: Db, table: nat, target: Option<nat>, append: bool, lines: seq<Line>)
    requires Emit(db, table, target, append, lines).Ok? && (append ==> target.Some?)
    ensures append ==> CanAppend(db, target)
  {
  }

  lemma InvShape(db: Db, sid: nat)
    requires Inv(db) && sid < |db.sessions|
    ensures Shape(db.sessions[sid]) && Conserves(db.orders, db.sessions[sid]) && SessionsOk(db)
  {
  }

  lemma PendingLast(s: Session)
    requires Shape(s) && HasPending(s.rounds)
    ensures PendingIndex(s.rounds) == |s.rounds| - 1 && s.rounds[|s.rounds| - 1].number == |s.rounds|
  {
    PendingIsLast(s);
  }

  lemma HeldRoundIsLast(db: Db, sid: nat, round: nat)
    requires Inv(db) && sid < |db.sessions| && IsPendingRound(db.sessions[sid].rounds, round)
    ensures var rounds := db.sessions[sid].rounds;
            IndexOfRound(rounds, round) == |rounds| - 1 && rounds[|rounds| - 1].number == |rounds|
  {
    hide Inv;
    InvShape(db, sid);
    IndexOfLast(db.sessions[sid].rounds, round);
    PendingLast(db.sessions[sid]);
  }

  // ---- Each step ----

  lemma SavedConfirmsNothing(s: Session, seen: Session, call: SessionCall)
    requires Shape(s) && SafeSave(s, seen, call)
    ensures ConfirmsNothing(s, Saved(s, seen, call))
  {
    hide Linked, Value, TotalsOk, ItemsOk, CheckEdit;
    match call
    case Closing => CloseKeeps(s);
    case Changing(step) =>
      if step.Reject? && PendingId(seen).Some? {
        var id := PendingId(seen).value;
        FindRoundSome(s.rounds, id);
        if FindRound(s.rounds, id).None? {
          DropNone(s.rounds, id);
        } else {
          PendingIsLast(s);
        }
      }
  }

  lemma SaveStepKeepsDb(sys: Sys, event: Event)
    requires SysInv(sys) && Saves(sys, event)
    requires var p := sys.pending[event.pid]; SafeSave(sys.db.sessions[p.sid], p.session, p.call)
    ensures Inv(Apply(sys, event).db) && Extends(sys.db, Apply(sys, event).db)
  {
    hide Inv, Shape, SafeSave, Saved, Extends, OneHolder, ReceiptsOk, Checks;
    var p := sys.pending[event.pid];
    var s := sys.db.sessions[p.sid];
    InvShape(sys.db, p.sid);
    assert PendingOk(sys.db, p);
    SaveKeepsIff(s, p.session, p.call);
    SavedConfirmsNothing(s, p.session, p.call);
    SessionStep(sys.db, Apply(sys, event).db, p.sid, Saved(s, p.session, p.call));
  }

  /** The whole call a step other than a session write stands for, if it changes the database. */
  function Linearized(sys: Sys, event: Event): Option<Act> {
    match event
    case Whole(act) => if Undivided(act) then Some(act) else None
    case Write(pid) =>
      if pid in sys.pending && sys.pending[pid].Checked? &&
          WriteTx(sys.db, sys.pending[pid].request, sys.pending[pid].seen).Ok?
      then Some(Call(sys.pending[pid].request)) else None
    case Commit(pid) =>
      if pid in sys.pending && sys.pending[pid].Loaded? && CommitTx(sys.db, sys.pending[pid]).Ok?
      then Some(Confirm(sys.pending[pid].sid, sys.pending[pid].target, sys.pending[pid].menu)) else None
    case _ => None
  }

  lemma StepIsCall(sys: Sys, event: Event)
    requires SysInv(sys) && !Saves(sys, event)
    ensures match Linearized(sys, event)
            case None => Apply(sys, event).db == sys.db
            case Some(act) => Apply(sys, event).db == Do(sys.db, act) && Sound(sys.db, act)
  {
    hide Inv, WriteTx, CallTx, CommitTx, ConfirmTx, Evolves, Produced, Linked, RoundLines, SaveTx, TryCall, CanAppend;
    match event
    case Write(pid) =>
      if Linearized(sys, event).Some? {
        assert PendingOk(sys.db, sys.pending[pid]);
        WriteIsCall(sys.db, sys.pending[pid].request, sys.pending[pid].seen);
      }
    case Commit(pid) =>
      if Linearized(sys, event).Some? {
        CommitIsConfirm(sys.db, sys.pending[pid]);
      }
    case _ =>
  }

  lemma StepKeepsDb(sys: Sys, event: Event)
    requires SysInv(sys) && Timely(sys, event)
    ensures Inv(Apply(sys, event).db) && Extends(sys.db, Apply(sys, event).db)
  {
    hide Inv, Linearized, Apply, Sound, Do, Extends, SafeSave;
    if Saves(sys, event) {
      SaveStepKeepsDb(sys, event);
    } else {
      StepIsCall(sys, event);
      match Linearized(sys, event)
      case None => ExtendsSelf(sys.db);
      case Some(act) => StepKeepsInv(sys.db, act);
    }
  }

  lemma ExtendsSelf(db: Db)
    ensures Extends(db, db)
  {
  }

  /** A timely write leaves the round a confirmation holds as it is, and its items once loaded. */
  lemma SaveSparesHeld(sys: Sys, event: Event, pid: nat)
    requires SysInv(sys) && Saves(sys, event) && Timely(sys, event)
    requires pid in sys.pending && (sys.pending[pid].Locked? || sys.pending[pid].Loaded?)
    requires sys.pending[pid].sid == sys.pending[event.pid].sid
    ensures HeldStays(sys.db, Apply(sys, event).db, sys.pending[pid])
  {
    hide Inv, ReceiptsOk, OneHolder, Linked, Value, Shape;
    var p, held := sys.pending[event.pid], sys.pending[pid];
    var s := sys.db.sessions[p.sid];
    assert Holds(held, p.sid);
    assert PendingOk(sys.db, held);
    InvShape(sys.db, p.sid);
    HeldIsAwaiting(s, held.round);
    ShapeIds(s);
    match p.call
    case Closing =>
    case Changing(step) =>
      if step.Reject? {
        assert PendingOk(sys.db, p);
        HeldRejectWaits(sys, p, pid, s);
      } else if step.UpdateItem? || step.RemoveItem? {
        if held.Loaded? {
          HitChanges(s.items, step, Some(held.round));
        }
      }
  }

  lemma HeldIsAwaiting(s: Session, round: nat)
    requires Shape(s) && IsPendingRound(s.rounds, round)
    ensures s.status.Awaiting?
  {
  }

  /** While the pending round is held, the only rejection in time is the one that waits for it. */
  lemma HeldRejectWaits(sys: Sys, p: Pending, pid: nat, s: Session)
    requires p.Visited? && p.call == Changing(Reject) && Checks(p.session, p.call)
    requires Shape(s) && s.status.Awaiting? && SafeSave(s, p.session, p.call)
    requires pid in sys.pending && Holds(sys.pending[pid], p.sid) && IsPendingRound(s.rounds, sys.pending[pid].round)
    ensures SaveWaits(sys.pending, p)
  {
    hide TotalsOk, ItemsOk;
    var id := PendingId(p.session).value;
    FindRoundSome(s.rounds, id);
    assert RoundHeld(sys.pending, p.sid, id);
  }

  /** While a request holds a session, every other step leaves what it holds as it is. */
  lemma HeldSessionStays(sys: Sys, event: Event, pid: nat)
    requires SysInv(sys) && Timely(sys, event)
    requires pid in sys.pending && (sys.pending[pid].Locked? || sys.pending[pid].Loaded?)
    requires pid in Apply(sys, event).pending
    ensures HeldStays(sys.db, Apply(sys, event).db, sys.pending[pid])
  {
    hide Inv, PendingOk, ReceiptsOk, CommitTx, ConfirmTx, SafeSave, HitsLoaded, Linked;
    var sid := sys.pending[pid].sid;
    assert Holds(sys.pending[pid], sid);
    if Saves(sys, event) && sys.pending[event.pid].sid == sid {
      SaveSparesHeld(sys, event, pid);
    } else if sid < |sys.db.sessions| {
      match event {
        case Whole(act) => if Undivided(act) { OtherSessionStays(sys.db, act, sid); }
        case Write(q) =>
          if q in sys.pending && sys.pending[q].Checked? {
            WriteSparesSessions(sys.db, sys.pending[q].request, sys.pending[q].seen);
          }
        case Commit(q) =>
          if q in sys.pending && sys.pending[q].Loaded? && q != pid {
            assert Holds(sys.pending[q], sys.pending[q].sid);
            CommitSparesOthers(sys.db, sys.pending[q], sid);
          }
        case _ =>
      }
    }
  }

  lemma OtherSessionStays(db: Db, act: Act, sid: nat)
    requires Undivided(act) && sid < |db.sessions|
    ensures sid < |Do(db, act).sessions| && Do(db, act).sessions[sid] == db.sessions[sid]
  {
  }

  lemma CommitSparesOthers(db: Db, p: Pending, sid: nat)
    requires p.Loaded? && p.sid != sid && sid < |db.sessions|
    ensures CommitTx(db, p).Ok? ==>
              sid < |CommitTx(db, p).value.sessions| && CommitTx(db, p).value.sessions[sid] == db.sessions[sid]
  {
  }

  lemma LockAdvances(sys: Sys, pid: nat)
    requires Inv(sys.db) && pid in sys.pending && sys.pending[pid].Begun? && PendingOk(sys.db, sys.pending[pid])
    ensures var after := LockStep(sys, pid, sys.pending[pid]);
            pid in after.pending ==> after.db == sys.db && PendingOk(sys.db, after.pending[pid])
  {
    hide Inv, Shape, Conserves, Linked, RoundLines, Produced, IsPendingRound;
    var p := sys.pending[pid];
    InvShape(sys.db, p.sid);
    if PendingIndex(sys.db.sessions[p.sid].rounds) < |sys.db.sessions[p.sid].rounds| {
      LockFindsLast(sys.db.sessions[p.sid]);
    }
  }

  lemma LoadAdvances(sys: Sys, pid: nat, menu: Menu)
    requires Inv(sys.db) && pid in sys.pending && sys.pending[pid].Locked? && PendingOk(sys.db, sys.pending[pid])
    ensures var after := LoadStep(sys, pid, sys.pending[pid], menu);
            pid in after.pending ==> after.db == sys.db && PendingOk(sys.db, after.pending[pid])
  {
    hide Inv, Linked, RoundLines, TargetOk, IsPendingRound;
    var p := sys.pending[pid];
    HeldRoundIsLast(sys.db, p.sid, p.round);
  }

  lemma BeginAdvances(db: Db, sid: nat)
    requires Inv(db) && sid < |db.sessions|
    ensures PendingOk(db, Begun(sid, db.sessions[sid].confirmedOrder))
  {
    hide Inv;
    InvShape(db, sid);
    CurrentIsProduced(db.sessions[sid]);
  }

  /** The request a step has just advanced. */
  lemma AdvancedOk(sys: Sys, event: Event, pid: nat)
    requires SysInv(sys) && Observed(sys, event)
    requires pid in Apply(sys, event).pending
    requires pid !in sys.pending || Apply(sys, event).pending[pid] != sys.pending[pid]
    ensures PendingOk(Apply(sys, event).db, Apply(sys, event).pending[pid])
  {
    hide Inv, ReceiptsOk, WriteTx, CommitTx, OneHolder, LockStep, LoadStep, TargetOk, IsPendingRound, Try;
    match event
    case Read(_, r) =>
    case Check(_, sid, call) =>
    case Begin(_, sid) => BeginAdvances(sys.db, sid);
    case Lock(q) => LockTouchesOne(sys, q); LockAdvances(sys, pid);
    case Load(q, menu) => LoadTouchesOne(sys, q, menu); LoadAdvances(sys, pid, menu);
  }

  lemma LockTouchesOne(sys: Sys, pid: nat)
    requires pid in sys.pending && sys.pending[pid].Begun?
    ensures forall q :: q != pid && q in LockStep(sys, pid, sys.pending[pid]).pending ==>
              q in sys.pending && LockStep(sys, pid, sys.pending[pid]).pending[q] == sys.pending[q]
  {
  }

  lemma LoadTouchesOne(sys: Sys, pid: nat, menu: Menu)
    requires pid in sys.pending && sys.pending[pid].Locked?
    ensures forall q :: q != pid && q in LoadStep(sys, pid, sys.pending[pid], menu).pending ==>
              q in sys.pending && LoadStep(sys, pid, sys.pending[pid], menu).pending[q] == sys.pending[q]
  {
  }

  lemma LockFindsLast(s: Session)
    requires Shape(s) && PendingIndex(s.rounds) < |s.rounds|
    ensures IsPendingRound(s.rounds, s.rounds[PendingIndex(s.rounds)].id)
  {
    PendingIsLast(s);
  }

  lemma StepKeepsPending(sys: Sys, event: Event)
    requires SysInv(sys) && Observed(sys, event) && Timely(sys, event)
    ensures AllPendingOk(Apply(sys, event))
  {
    hide Inv, PendingOk, Apply, Extends, Timely;
    StepKeepsDb(sys, event);
    forall pid | pid in Apply(sys, event).pending
        ensures PendingOk(Apply(sys, event).db, Apply(sys, event).pending[pid]) {
      if pid in sys.pending && Apply(sys, event).pending[pid] == sys.pending[pid] {
        UntouchedOk(sys, event, pid);
      } else {
        AdvancedOk(sys, event, pid);
      }
    }
  }

  lemma UntouchedOk(sys: Sys, event: Event, pid: nat)
    requires SysInv(sys) && Timely(sys, event) && Extends(sys.db, Apply(sys, event).db)
    requires pid in sys.pending && pid in Apply(sys, event).pending &&
        Apply(sys, event).pending[pid] == sys.pending[pid]
    ensures PendingOk(Apply(sys, event).db, sys.pending[pid])
  {
    hide PendingOk, Apply, OrdersEvolve, ReceiptsOk, OneHolder, Timely;
    var p := sys.pending[pid];
    if (p.Locked? || p.Loaded?) && p.sid < |sys.db.sessions| {
      HeldSessionStays(sys, event, pid);
    }
    PendingStays(sys.db, Apply(sys, event).db, p);
  }

  lemma StepKeepsHolder(sys: Sys, event: Event)
    requires SysInv(sys)
    ensures OneHolder(Apply(sys, event).pending)
  {
    hide Inv, PendingOk, ReceiptsOk, WriteTx, CommitTx, Try, RoundLines, Linked, Accepts;
    var pending := Apply(sys, event).pending;
    forall p, q, sid | p in pending && q in pending && Holds(pending[p], sid) && Holds(pending[q], sid) ensures p == q {
      if event.Lock? && !LockedBySome(sys.pending, sid) {
      } else {
        assert p in sys.pending && q in sys.pending;
        assert Holds(sys.pending[p], sid) && Holds(sys.pending[q], sid);
      }
    }
  }

  // ---- Exactly when a step keeps the invariant ----

  lemma StepKeepsSys(sys: Sys, event: Event)
    requires SysInv(sys) && Observed(sys, event) && Timely(sys, event)
    ensures SysInv(Apply(sys, event)) && Extends(sys.db, Apply(sys, event).db)
  {
    hide Inv, AllPendingOk, OneHolder, ReceiptsOk, Extends, Apply, Observed, Timely, OrdersInv;
    StepKeepsDb(sys, event);
    StepKeepsPending(sys, event);
    StepKeepsHolder(sys, event);
    SysIsOrders(sys);
    StepKeepsReceipts(sys, event);
  }

  /** Any step of a system in order leaves it in order, with all that was recorded, exactly when
      it is not a session write that comes too late. */
  lemma StepKeepsSysIff(sys: Sys, event: Event)
    requires SysInv(sys) && Observed(sys, event)
    ensures SysInv(Apply(sys, event)) && Extends(sys.db, Apply(sys, event).db) <==> Timely(sys, event)
  {
    hide Inv, AllPendingOk, OneHolder, ReceiptsOk, Apply, Extends, Observed, SafeSave, HitsLoaded;
    if Timely(sys, event) {
      StepKeepsSys(sys, event);
    } else {
      var p := sys.pending[event.pid];
      if SafeSave(sys.db.sessions[p.sid], p.session, p.call) {
        LoadedHitBreaks(sys, event);
      } else {
        LateSaveBreaks(sys, event);
      }
    }
  }

  lemma LateSaveBreaks(sys: Sys, event: Event)
    requires SysInv(sys) && Saves(sys, event)
    requires var p := sys.pending[event.pid]; !SafeSave(sys.db.sessions[p.sid], p.session, p.call)
    ensures !(Inv(Apply(sys, event).db) && Extends(sys.db, Apply(sys, event).db))
  {
    hide Shape, SafeSave, Saved, OneHolder, ReceiptsOk, Checks, Books, Separate, OneSessionPerTable, Conserves,
        SessionEvolves;
    var p := sys.pending[event.pid];
    assert PendingOk(sys.db, p);
    SaveKeepsIff(sys.db.sessions[p.sid], p.session, p.call);
    assert Apply(sys, event).db.sessions[p.sid] == Saved(sys.db.sessions[p.sid], p.session, p.call);
  }

  lemma LoadedHitBreaks(sys: Sys, event: Event)
    requires SysInv(sys) && Saves(sys, event)
    requires var p := sys.pending[event.pid]; HitsLoaded(sys.pending, sys.db.sessions[p.sid].items, p.sid, p.call)
    ensures !AllPendingOk(Apply(sys, event))
  {
    hide Inv, OneHolder, ReceiptsOk, Linked, RoundLines, Hits, Shape, IsPendingRound, TargetOk, CanAppend, ItemEntries;
    var p := sys.pending[event.pid];
    var s := sys.db.sessions[p.sid];
    var q :| q in sys.pending && sys.pending[q].Loaded? && sys.pending[q].sid == p.sid &&
        Hits(s.items, p.call.step, Some(sys.pending[q].round));
    assert PendingOk(sys.db, sys.pending[q]);
    InvShape(sys.db, p.sid);
    ShapeIds(s);
    HitChanges(s.items, p.call.step, Some(sys.pending[q].round));
    var after := Apply(sys, event);
    assert after.pending[q] == sys.pending[q];
    assert after.db.sessions[p.sid].items == EditedItems(s.items, p.call.step);
    assert !PendingOk(after.db, after.pending[q]);
  }

  // ---- Runs ----

  /** In any interleaving whose session writes come in time, sessions and orders agree: every
      confirmed round is on its order line by line, rounds and carts keep their shape, and all
      that was recorded is still there. */
  lemma {:induction false} RunKeepsSys(sys: Sys, events: seq<Event>)
    requires SysInv(sys) && ObservedRun(sys, events) && TimelyRun(sys, events)
    ensures SysInv(RunAll(sys, events)) && Extends(sys.db, RunAll(sys, events).db)
    decreases |events|
  {
    hide SysInv, Apply, Extends, Observed, Timely;
    if events == [] {
      ExtendsSelf(sys.db);
    } else {
      StepKeepsSys(sys, events[0]);
      RunKeepsSys(Apply(sys, events[0]), events[1..]);
      ExtendsTransitive(sys.db, Apply(sys, events[0]).db, RunAll(sys, events).db);
    }
  }

  /** A new restaurant, with no request under way. */
  function Fresh(tables: seq<Table>, coupons: seq<Coupon>): Sys {
    Sys(NewDb(tables, coupons), map[], map[])
  }

  lemma FreshRun(tables: seq<Table>, coupons: seq<Coupon>, events: seq<Event>)
    requires ObservedRun(Fresh(tables, coupons), events)
    ensures OrdersInv(RunAll(Fresh(tables, coupons), events)) && AllIdsOk(RunAll(Fresh(tables, coupons), events).db)
    ensures TimelyRun(Fresh(tables, coupons), events) ==> SysInv(RunAll(Fresh(tables, coupons), events))
  {
    NewDbInv(tables, coupons);
    RunKeepsOrders(Fresh(tables, coupons), events);
    RunKeepsIds(Fresh(tables, coupons), events);
    if TimelyRun(Fresh(tables, coupons), events) {
      RunKeepsSys(Fresh(tables, coupons), events);
    }
  }

  /** From a new restaurant, in any interleaving whose session writes come in time, an order that a
      session has produced is never without lines. */
  lemma NoEmptyOrders(tables: seq<Table>, coupons: seq<Coupon>, events: seq<Event>, sid: nat, o: nat)
    requires ObservedRun(Fresh(tables, coupons), events) && TimelyRun(Fresh(tables, coupons), events)
    requires var db := RunAll(Fresh(tables, coupons), events).db; sid < |db.sessions| && Produced(db.sessions[sid], o)
    ensures var db := RunAll(Fresh(tables, coupons), events).db; o < |db.orders| && db.orders[o].lines != []
  {
    hide RunAll, ObservedRun, TimelyRun, Produced;
    FreshRun(tables, coupons, events);
    ProducedHasLines(RunAll(Fresh(tables, coupons), events).db, sid, o);
  }

  // ---- The serial order ----

  /** The write does what the whole call would do at its moment, or nothing. */
  predicate Passing(sys: Sys, event: Event) {
    Timely(sys, event) &&
    (Saves(sys, event) ==>
      var p := sys.pending[event.pid]; StillPasses(sys.db, p.sid, p.session, p.call))
  }

  ghost predicate PassingRun(sys: Sys, events: seq<Event>)
    decreases |events|
  {
    events == [] || (Passing(sys, events[0]) && PassingRun(Apply(sys, events[0]), events[1..]))
  }

  function ActOf(sid: nat, call: SessionCall): Act {
    match call
    case Changing(step) => Edit(sid, step)
    case Closing => Close(sid)
  }

  lemma SavesDb(sys: Sys, event: Event)
    requires Saves(sys, event)
    ensures var p := sys.pending[event.pid]; Apply(sys, event).db == SaveTx(sys.db, p.sid, p.session, p.call)
  {
    hide SaveTx;
  }

  lemma TriedCall(db: Db, sid: nat, call: SessionCall)
    ensures Try(db, ActOf(sid, call)) == TryCall(db, sid, call)
  {
    hide StepTx, CloseTx;
  }

  lemma SaveIsAct(sys: Sys, event: Event)
    requires SysInv(sys) && Saves(sys, event) && Passing(sys, event)
    ensures var p := sys.pending[event.pid];
            Apply(sys, event).db == sys.db || Apply(sys, event).db == Do(sys.db, ActOf(p.sid, p.call))
  {
    hide Inv, Shape, SafeSave, SaveTx, OneHolder, ReceiptsOk, Checks, StillPasses, Apply, Try, TryCall, Timely,
        SaveWaits;
    var p := sys.pending[event.pid];
    InvShape(sys.db, p.sid);
    assert PendingOk(sys.db, p);
    SaveIsCallIff(sys.db, p.sid, p.session, p.call);
    SavesDb(sys, event);
    TriedCall(sys.db, p.sid, p.call);
  }

  /** Any interleaving whose writes would pass their checks again ends in the database of some
      sequence of whole calls. */
  lemma {:induction false} RunIsSerial(sys: Sys, events: seq<Event>) returns (acts: seq<Act>)
    requires SysInv(sys) && ObservedRun(sys, events) && PassingRun(sys, events)
    ensures SoundRun(sys.db, acts) && RunAll(sys, events).db == DoAll(sys.db, acts)
    decreases |events|
  {
    hide SysInv, Apply, Observed, Sound, Do, Linearized, Timely, StillPasses, Saves;
    if events == [] {
      acts := [];
    } else {
      StepKeepsSys(sys, events[0]);
      var rest := RunIsSerial(Apply(sys, events[0]), events[1..]);
      var first := StepAct(sys, events[0]);
      acts := if first.None? then rest else [first.value] + rest;
    }
  }

  lemma StepAct(sys: Sys, event: Event) returns (act: Option<Act>)
    requires SysInv(sys) && Passing(sys, event)
    ensures match act
            case None => Apply(sys, event).db == sys.db
            case Some(a) => Apply(sys, event).db == Do(sys.db, a) && Sound(sys.db, a)
  {
    hide SysInv, Apply, Do, Linearized, Timely, StillPasses;
    if Saves(sys, event) {
      SaveIsAct(sys, event);
      var p := sys.pending[event.pid];
      act := if Apply(sys, event).db == sys.db then None else Some(ActOf(p.sid, p.call));
    } else {
      StepIsCall(sys, event);
      act := Linearized(sys, event);
    }
  }

  // ---- An edit between the load and the commit ----

  /** An order a session produced holds only lines of that session's confirmed rounds. */
  lemma ProducedLines(db: Db, sid: nat, o: nat)
    requires SessionsOk(db) && sid < |db.sessions| && Produced(db.sessions[sid], o)
    ensures o < |db.orders|
    ensures forall j :: 0 <= j < |db.orders[o].lines| ==>
        ConfirmedOn(db.sessions[sid].rounds, db.orders[o].lines[j].round, o)
  {
    var s := db.sessions[sid];
    var k :| 0 <= k < |s.rounds| && s.rounds[k].status.RoundConfirmed? && s.rounds[k].order == Some(o);
    assert Delivers(db.orders, s, k);
  }

  /** The last round of the session is on its order, product by product. */
  ghost predicate LastDelivered(orders: seq<Order>, s: Session) {
    && |s.rounds| > 0
    && (var r := s.rounds[|s.rounds| - 1];
        && r.order.Some? && r.order.value < |orders|
        && LineEntries(LinesOfRound(orders[r.order.value].lines, |s.rounds|))
            == ItemEntries(Linked(s.items, Some(r.id))))
  }

  ghost predicate CommitDelivers(db: Db, p: Pending)
    requires p.Loaded?
  {
    match CommitTx(db, p)
    case Ok(after) => p.sid < |after.sessions| && LastDelivered(after.orders, after.sessions[p.sid])
    case Err(_) => true
  }

  /** What a commit of the last round leaves: the order `o` that took its lines, and the session. */
  ghost predicate CommitLeaves(db: Db, p: Pending, after: Db, o: nat)
    requires p.Loaded? && p.sid < |db.sessions| && |db.sessions[p.sid].rounds| > 0
  {
    var s := db.sessions[p.sid];
    var n := |s.rounds| - 1;
    var round := s.rounds[n].(status := RoundConfirmed, order := Some(o), total := Value(p.items));
    && Takes(db.orders, after.orders, o, p.lines)
    && (o < |db.orders| ==> p.target == Some(o))
    && after.sessions == db.sessions[p.sid := s.(status := Open, confirmedOrder := Some(o),
        rounds := s.rounds[n := round])]
  }

  lemma CommitParts(db: Db, p: Pending) returns (o: nat)
    requires Books(db) && p.Loaded? && p.sid < |db.sessions| && CommitTx(db, p).Ok?
    requires var rounds := db.sessions[p.sid].rounds; |rounds| > 0 && IndexOfRound(rounds, p.round) == |rounds| - 1
    ensures CommitLeaves(db, p, CommitTx(db, p).value, o)
  {
    hide IndexOfRound, Value, Books, Takes, Emit;
    var s := db.sessions[p.sid];
    EmitStep(db, s.table, p.target, p.append, p.lines);
    o := Emit(db, s.table, p.target, p.append, p.lines).value.1;
  }

  /** A commit delivers what it had loaded: its round is right exactly when that is still what the
      round holds. */
  lemma CommitDeliversIff(db: Db, p: Pending)
    requires Inv(db) && p.Loaded? && p.sid < |db.sessions| && TargetOk(db.sessions[p.sid], p.target)
    requires IsPendingRound(db.sessions[p.sid].rounds, p.round)
    requires RoundLines(p.items, p.menu, |db.sessions[p.sid].rounds|) == Ok(p.lines) && CommitTx(db, p).Ok?
    ensures CommitDelivers(db, p)
       <==> ItemEntries(p.items) == ItemEntries(Linked(db.sessions[p.sid].items, Some(p.round)))
  {
    hide Inv, Conserves, Linked, LinesOfRound, RoundLines, CommitTx, LineEntries, ItemEntries, Books;
    var s := db.sessions[p.sid];
    HeldRoundIsLast(db, p.sid, p.round);
    InvBooks(db);
    InvShape(db, p.sid);
    var o := CommitParts(db, p);
    if o < |db.orders| {
      ProducedLines(db, p.sid, o);
    }
    RoundLinesMatch(p.items, p.menu, |s.rounds|);
    NewRoundLines(db.orders, CommitTx(db, p).value.orders, s, o, p.lines);
  }

  /** An edit that is in time for its session but hits the round that waits. */
  lemma EditHitsPending(s: Session, step: Step, round: nat)
    requires Shape(s) && IsPendingRound(s.rounds, round) && (step.UpdateItem? || step.RemoveItem?)
    requires !Idle(s.items, step) && CheckEdit(s, step.id).None?
    ensures Hits(s.items, step, Some(round))
  {
    hide Linked, TotalsOk;
    var item := FindItem(s.items, step.id).value;
    FindItemFinds(s.items, step.id);
    NoOpenItems(s.items);
    FindRoundSome(s.rounds, item.round.value);
    var i :| 0 <= i < |s.items| && s.items[i] == item;
    assert IsRound(s.rounds, item.round.value);
  }

  lemma UndeliveredBreaks(orders: seq<Order>, s: Session)
    requires !LastDelivered(orders, s) && |s.rounds| > 0
    requires var r := s.rounds[|s.rounds| - 1]; r.status.RoundConfirmed? && r.number == |s.rounds|
    ensures !Conserves(orders, s)
  {
    assert !Delivers(orders, s, |s.rounds| - 1);
  }

  lemma EditKeepsInv(db: Db, sid: nat, seen: Session, step: Step)
    requires Inv(db) && sid < |db.sessions| && (step.UpdateItem? || step.RemoveItem?)
    requires CheckEdit(db.sessions[sid], step.id).None?
    ensures Inv(SaveTx(db, sid, seen, Changing(step)))
  {
    EditStep(db, sid, step);
  }

  /** A commit of this confirmation leaves its session in agreement with the orders. */
  ghost predicate CommitsWell(db: Db, p: Pending)
    requires p.Loaded?
  {
    match CommitTx(db, p)
    case Ok(after) => p.sid < |after.sessions| && Conserves(after.orders, after.sessions[p.sid])
    case Err(_) => true
  }

  /** Exactly when a confirmation is right although an item that was still editable was edited
      after it had loaded them: the edit changed nothing. */
  lemma EditUnderCommitIff(db: Db, p: Pending, seen: Session, step: Step)
    requires Inv(db) && p.Loaded? && PendingOk(db, p) && (step.UpdateItem? || step.RemoveItem?)
    requires SafeSave(db.sessions[p.sid], seen, Changing(step))
    requires CommitTx(SaveTx(db, p.sid, seen, Changing(step)), p).Ok?
    ensures CommitsWell(SaveTx(db, p.sid, seen, Changing(step)), p) <==> Idle(db.sessions[p.sid].items, step)
  {
    hide Inv, Shape, Linked, RoundLines, IsPendingRound, Conserves, Idle, Hits, CommitTx, CheckEdit, LinesOfRound;
    var s := db.sessions[p.sid];
    var edited := SaveTx(db, p.sid, seen, Changing(step));
    InvShape(db, p.sid);
    ShapeIds(s);
    if Idle(s.items, step) {
      IdleChangesNothing(s.items, step);
      assert edited == db;
      CommitIsConfirm(db, p);
      ConfirmStep(db, p.sid, p.target, p.menu);
      InvShape(CommitTx(db, p).value, p.sid);
    } else {
      EditHitsPending(s, step, p.round);
      HitChanges(s.items, step, Some(p.round));
      EditKeepsInv(db, p.sid, seen, step);
      CommitUndelivered(edited, p);
    }
  }

  lemma CommitUndelivered(db: Db, p: Pending)
    requires Inv(db) && p.Loaded? && p.sid < |db.sessions| && TargetOk(db.sessions[p.sid], p.target)
    requires IsPendingRound(db.sessions[p.sid].rounds, p.round)
    requires RoundLines(p.items, p.menu, |db.sessions[p.sid].rounds|) == Ok(p.lines) && CommitTx(db, p).Ok?
    requires ItemEntries(p.items) != ItemEntries(Linked(db.sessions[p.sid].items, Some(p.round)))
    ensures !CommitsWell(db, p)
  {
    hide Linked, LinesOfRound, RoundLines, Conserves, Inv, LineEntries, ItemEntries, CommitTx, Books, LastDelivered,
        Takes;
    CommitDeliversIff(db, p);
    HeldRoundIsLast(db, p.sid, p.round);
    InvBooks(db);
    var _ := CommitParts(db, p);
    var after := CommitTx(db, p).value;
    UndeliveredBreaks(after.orders, after.sessions[p.sid]);
  }

  lemma EmitTarget(db: Db, table: nat, target: Option<nat>, append: bool, lines: seq<Line>)
    requires Emit(db, table, target, append, lines).Ok?
    ensures Emit(db, table, target, append, lines).value.1 < |Emit(db, table, target, append, lines).value.0.orders|
  {
  }
}
