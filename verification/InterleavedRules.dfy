/** Rules of tables, coupon limits, closed sessions and payments under any interleaving of requests,
    with session writes wherever they fall. */
module InterleavedRules {
  import opened Data
  import opened OrderTx
  import opened OrderInvariants
  import opened SessionTx
  import opened System
  import opened RunProperties
  import opened StaleWrites
  import opened Interleaving
  import opened InterleavedSessions

  // ---- Tables ----

  /** The event writes the closing of a session. */
  predicate Closes(sys: Sys, event: Event) {
    Saves(sys, event) && sys.pending[event.pid].call.Closing?
  }

  /** The table of the session that is closed is live and an active order sits on it. */
  predicate ClosesBusyTable(sys: Sys, event: Event) {
    Closes(sys, event) &&
    var t := sys.db.sessions[sys.pending[event.pid].sid].table;
    && t < |sys.db.tables| && !sys.db.tables[t].deleted
    && exists i :: 0 <= i < |sys.db.orders| && Sits(sys.db.orders[i], t)
  }

  lemma CommitKeepsTables(db: Db, p: Pending)
    requires TablesOk(db) && p.Loaded? && CommitTx(db, p).Ok?
    ensures TablesOk(CommitTx(db, p).value)
  {
    var s := db.sessions[p.sid];
    EmitKeepsTables(db, s.table, p.target, p.append, p.lines);
  }

  lemma SaveKeepsTablesIff(sys: Sys, pid: nat)
    requires TablesOk(sys.db)
    ensures TablesOk(Apply(sys, Save(pid)).db) <==> !ClosesBusyTable(sys, Save(pid))
  {
    if Closes(sys, Save(pid)) {
      var t := sys.db.sessions[sys.pending[pid].sid].table;
      var db' := Apply(sys, Save(pid)).db;
      assert db'.orders == sys.db.orders && db'.tables == Vacated(sys.db.tables, t);
      if ClosesBusyTable(sys, Save(pid)) {
        var i :| 0 <= i < |sys.db.orders| && Sits(sys.db.orders[i], t);
        assert Sits(db'.orders[i], t) && !db'.tables[t].status.Occupied?;
      }
    }
  }

  /** Exactly when a step keeps the table rules (a live table with an active order is occupied, and
      has one active order that did not come from a QR code): it does not close a session over a
      table that an active order sits on. */
  lemma StepKeepsTablesIff(sys: Sys, event: Event)
    requires Books(sys.db) && RequestsOk(sys) && TablesOk(sys.db)
    ensures TablesOk(Apply(sys, event).db) <==> !ClosesBusyTable(sys, event)
  {
    hide Books, TablesOk, ClosesBusyTable, RequestOk, WriteTx, CallTx, CommitTx, SaveTx;
    match event
    case Whole(act) =>
      NotClosing(sys, event);
      if Undivided(act) {
        StepKeepsTables(sys.db, act);
      }
    case Write(pid) =>
      NotClosing(sys, event);
      if MadeCall(sys, event).Some? {
        WriteIsCall(sys.db, sys.pending[pid].request, sys.pending[pid].seen);
        StepKeepsTables(sys.db, Call(sys.pending[pid].request));
      }
    case Commit(pid) =>
      NotClosing(sys, event);
      if pid in sys.pending && sys.pending[pid].Loaded? && CommitTx(sys.db, sys.pending[pid]).Ok? {
        CommitKeepsTables(sys.db, sys.pending[pid]);
      }
    case Save(pid) => SaveKeepsTablesIff(sys, pid);
    case _ => NotClosing(sys, event);
  }

  lemma NotClosing(sys: Sys, event: Event)
    requires !event.Save?
    ensures !ClosesBusyTable(sys, event)
  {
  }

  // ---- Coupon limits ----

  /** A PATCH does not put a limit below what is already used. */
  predicate SparesLimits(sys: Sys, event: Event) {
    event.Whole? ==> KeepsLimit(sys.db, event.act)
  }

  lemma StepKeepsLimitsToo(sys: Sys, event: Event)
    requires Books(sys.db) && RequestsOk(sys) && WithinLimits(sys.db.coupons) && SparesLimits(sys, event)
    ensures WithinLimits(Apply(sys, event).db.coupons)
  {
    hide Books, WithinLimits, RequestOk, WriteTx, CallTx, CommitTx, SaveTx;
    match event
    case Whole(act) =>
      if Undivided(act) {
        StepKeepsLimits(sys.db, act);
      }
    case Write(pid) =>
      if MadeCall(sys, event).Some? {
        WriteIsCall(sys.db, sys.pending[pid].request, sys.pending[pid].seen);
        StepKeepsLimits(sys.db, Call(sys.pending[pid].request));
      }
    case Commit(pid) =>
      if pid in sys.pending && sys.pending[pid].Loaded? {
        CommitSparesCoupons(sys.db, sys.pending[pid]);
      }
    case Save(pid) => SaveSparesCoupons(sys, pid);
    case _ =>
  }

  lemma CommitSparesCoupons(db: Db, p: Pending)
    requires p.Loaded?
    ensures CommitTx(db, p).Ok? ==> CommitTx(db, p).value.coupons == db.coupons
  {
  }

  lemma SaveSparesCoupons(sys: Sys, pid: nat)
    ensures Apply(sys, Save(pid)).db.coupons == sys.db.coupons
  {
  }

  // ---- Closed sessions ----

  predicate OrderKnown(db: Db, s: Session) {
    s.confirmedOrder.Some? ==> s.confirmedOrder.value < |db.orders|
  }

  /** The current order of a closed session is not owed any more. */
  predicate SessionSettled(db: Db, s: Session) {
    OrderKnown(db, s) && (s.status.Closed? ==> !StillOwes(db, s.confirmedOrder))
  }

  ghost predicate AllSettled(db: Db) {
    forall sid :: 0 <= sid < |db.sessions| ==> SessionSettled(db, db.sessions[sid])
  }

  /** The session that is closed owes its current order. */
  predicate ClosesOwing(sys: Sys, event: Event) {
    Closes(sys, event) && StillOwes(sys.db, sys.db.sessions[sys.pending[event.pid].sid].confirmedOrder)
  }

  /** An order that is not owed never is again. */
  lemma SettledStays(db: Db, db': Db, s: Session)
    requires SessionSettled(db, s) && OrdersEvolve(db.orders, db'.orders)
    requires forall i :: 0 <= i < |db.orders| && !db.orders[i].payment.Unpaid? ==> !db'.orders[i].payment.Unpaid?
    ensures SessionSettled(db', s)
  {
    if s.confirmedOrder.Some? {
      assert Evolves(db.orders[s.confirmedOrder.value], db'.orders[s.confirmedOrder.value]);
    }
  }

  lemma PaymentsStay(orders: seq<Order>, orders': seq<Order>)
    requires OrdersEvolve(orders, orders')
    ensures forall i :: 0 <= i < |orders| && !orders[i].payment.Unpaid? ==> !orders'[i].payment.Unpaid?
  {
    forall i | 0 <= i < |orders| && !orders[i].payment.Unpaid? ensures !orders'[i].payment.Unpaid? {
      assert Evolves(orders[i], orders'[i]);
    }
  }

  /** What a step can make of a session: itself, a new one, one whose writes have just been saved,
      or one that a commit has given an order and reopened. */
  lemma SessionAfter(sys: Sys, event: Event, sid: nat)
    requires sid < |Apply(sys, event).db.sessions|
    ensures var db, db' := sys.db, Apply(sys, event).db;
            || (sid < |db.sessions| && db'.sessions[sid] == db.sessions[sid])
            || (!db'.sessions[sid].status.Closed? && OrderKnown(db', db'.sessions[sid]))
            || (Saves(sys, event) && sys.pending[event.pid].sid == sid
                && db'.sessions[sid] == Saved(db.sessions[sid], sys.pending[event.pid].session,
                    sys.pending[event.pid].call))
  {
    hide Saved, TryCall, Linked;
    match event
    case Whole(act) => if Undivided(act) && sid < |sys.db.sessions| { OtherSessionStays(sys.db, act, sid); }
    case Write(pid) =>
      if pid in sys.pending && sys.pending[pid].Checked? {
        WriteSparesSessions(sys.db, sys.pending[pid].request, sys.pending[pid].seen);
      }
    case Commit(pid) =>
      if pid in sys.pending && sys.pending[pid].Loaded? && CommitTx(sys.db, sys.pending[pid]).Ok? {
        CommitReopens(sys.db, sys.pending[pid]);
      }
    case _ =>
  }

  lemma CommitReopens(db: Db, p: Pending)
    requires p.Loaded? && CommitTx(db, p).Ok?
    ensures var db' := CommitTx(db, p).value;
            && p.sid < |db.sessions| && db'.sessions == db.sessions[p.sid := db'.sessions[p.sid]]
            && db'.sessions[p.sid].status.Open? && OrderKnown(db', db'.sessions[p.sid])
  {
    hide Emit;
    var s := db.sessions[p.sid];
    EmitSparesSessions(db, s.table, p.target, p.append, p.lines);
    EmitTarget(db, s.table, p.target, p.append, p.lines);
  }

  /** The writes of a call keep the session's order, and close it only when that is their purpose. */
  lemma SavedOrder(s: Session, seen: Session, call: SessionCall)
    ensures Saved(s, seen, call).confirmedOrder == s.confirmedOrder
    ensures call.Closing? ==> Saved(s, seen, call).status.Closed?
    ensures !call.Closing? && Saved(s, seen, call).status.Closed? ==> s.status.Closed?
  {
  }

  /** Exactly when a step leaves a closed session owing its current order: it writes the closing of
      one whose order is still owed then, whatever the check of the closing had seen. */
  lemma StepKeepsSettledIff(sys: Sys, event: Event)
    requires Books(sys.db) && RequestsOk(sys) && AllSettled(sys.db)
    ensures AllSettled(Apply(sys, event).db) <==> !ClosesOwing(sys, event)
  {
    hide Books, RequestsOk, Apply, Saved, StillOwes, OrdersEvolve, SessionSettled;
    StepKeepsOrders(sys, event);
    var db' := Apply(sys, event).db;
    PaymentsStay(sys.db.orders, db'.orders);
    if ClosesOwing(sys, event) {
      OwingIsUnsettled(sys, event);
    } else {
      forall sid | 0 <= sid < |db'.sessions| ensures SessionSettled(db', db'.sessions[sid]) {
        SettledAfter(sys, event, sid);
      }
    }
  }

  lemma OwingIsUnsettled(sys: Sys, event: Event)
    requires ClosesOwing(sys, event)
    ensures !AllSettled(Apply(sys, event).db)
  {
    hide Saved;
    var p := sys.pending[event.pid];
    SavedOrder(sys.db.sessions[p.sid], p.session, p.call);
    var after := Apply(sys, event).db;
    assert !SessionSettled(after, after.sessions[p.sid]);
  }

  lemma SettledAfter(sys: Sys, event: Event, sid: nat)
    requires AllSettled(sys.db) && OrdersEvolve(sys.db.orders, Apply(sys, event).db.orders) && !ClosesOwing(sys, event)
    requires sid < |Apply(sys, event).db.sessions|
    ensures SessionSettled(Apply(sys, event).db, Apply(sys, event).db.sessions[sid])
  {
    hide Saved, OrdersEvolve;
    var db' := Apply(sys, event).db;
    SessionAfter(sys, event, sid);
    PaymentsStay(sys.db.orders, db'.orders);
    if sid < |sys.db.sessions| {
      SettledStays(sys.db, db', sys.db.sessions[sid]);
    }
    if Saves(sys, event) && sys.pending[event.pid].sid == sid {
      var p := sys.pending[event.pid];
      SavedOrder(sys.db.sessions[sid], p.session, p.call);
      SaveSparesOrders(sys, event.pid);
    }
  }

  // ---- Runs ----

  predicate KeepsRules(sys: Sys, event: Event) {
    Observed(sys, event) && SparesLimits(sys, event) && !ClosesBusyTable(sys, event) && !ClosesOwing(sys, event)
  }

  ghost predicate RuleRun(sys: Sys, events: seq<Event>)
    decreases |events|
  {
    events == [] || (KeepsRules(sys, events[0]) && RuleRun(Apply(sys, events[0]), events[1..]))
  }

  ghost predicate RulesInv(sys: Sys) {
    OrdersInv(sys) && TablesOk(sys.db) && WithinLimits(sys.db.coupons) && AllSettled(sys.db)
  }

  lemma StepKeepsRules(sys: Sys, event: Event)
    requires RulesInv(sys) && KeepsRules(sys, event)
    ensures RulesInv(Apply(sys, event))
  {
    hide Books, RequestsOk, ReceiptsOk, TablesOk, WithinLimits, AllSettled, Apply, OrdersEvolve;
    hide Observed, SparesLimits, ClosesBusyTable, ClosesOwing;
    StepKeepsOrders(sys, event);
    StepKeepsRequests(sys, event);
    StepKeepsReceipts(sys, event);
    StepKeepsTablesIff(sys, event);
    StepKeepsLimitsToo(sys, event);
    StepKeepsSettledIff(sys, event);
  }

  /** In any interleaving in which no closing is written over a busy table or an order still owed and
      no PATCH undercuts a limit: tables with active orders are occupied, with one active order that
      did not come from a QR code; no coupon is used beyond its limit; no closed session owes. */
  lemma {:induction false} RunKeepsRules(sys: Sys, events: seq<Event>)
    requires RulesInv(sys) && RuleRun(sys, events)
    ensures RulesInv(RunAll(sys, events))
    decreases |events|
  {
    hide RulesInv, KeepsRules, Apply;
    if events != [] {
      StepKeepsRules(sys, events[0]);
      RunKeepsRules(Apply(sys, events[0]), events[1..]);
    }
  }

  lemma FreshKeepsRules(tables: seq<Table>, coupons: seq<Coupon>, events: seq<Event>)
    requires RuleRun(Fresh(tables, coupons), events)
    ensures RulesInv(RunAll(Fresh(tables, coupons), events))
  {
    hide RuleRun, RunAll;
    NewDbInv(tables, coupons);
    RunKeepsRules(Fresh(tables, coupons), events);
  }

  // ---- Payments ----

  /** A session refers to the order as its current one, or a confirmation under way has read it. */
  ghost predicate Billable(sys: Sys, id: nat) {
    || (exists sid :: 0 <= sid < |sys.db.sessions| && sys.db.sessions[sid].confirmedOrder == Some(id))
    || (exists pid :: pid in sys.pending && Targets(sys.pending[pid], id))
  }

  predicate Targets(p: Pending, id: nat) {
    (p.Begun? || p.Locked? || p.Loaded?) && p.target == Some(id)
  }

  lemma CommitAvoids(db: Db, p: Pending, id: nat)
    requires p.Loaded? && CommitTx(db, p).Ok? && id < |db.orders| && p.target != Some(id)
    ensures var db' := CommitTx(db, p).value;
            && id < |db'.orders| && db'.orders[id] == db.orders[id] && p.sid < |db.sessions|
            && db'.sessions == db.sessions[p.sid := db'.sessions[p.sid]]
            && db'.sessions[p.sid].confirmedOrder != Some(id)
  {
    hide IndexOfRound, Value;
    EmitSparesSessions(db, db.sessions[p.sid].table, p.target, p.append, p.lines);
  }

  lemma WriteKeepsTotal(db: Db, r: Request, seen: Order, id: nat)
    requires WriteTx(db, r, seen).Ok? && id < |db.orders|
    ensures var db' := WriteTx(db, r, seen).value;
            && id < |db'.orders| && db'.orders[id].total == db.orders[id].total && db'.sessions == db.sessions
  {
  }

  lemma WholeKeepsTotal(db: Db, act: Act, id: nat)
    requires Undivided(act) && id < |db.orders|
    ensures var db' := Do(db, act);
            && id < |db'.orders| && db'.orders[id].total == db.orders[id].total
            && |db'.sessions| >= |db.sessions|
            && (forall sid :: 0 <= sid < |db.sessions| ==> db'.sessions[sid] == db.sessions[sid])
            && (forall sid :: |db.sessions| <= sid < |db'.sessions| ==> db'.sessions[sid].confirmedOrder.None?)
  {
  }

  /** An order that no session can bill keeps its total under every step, and no step makes it one
      that a session can bill. */
  lemma UnbillableStep(sys: Sys, event: Event, id: nat)
    requires id < |sys.db.orders| && !Billable(sys, id)
    ensures id < |Apply(sys, event).db.orders| && Apply(sys, event).db.orders[id].total == sys.db.orders[id].total
    ensures !Billable(Apply(sys, event), id)
  {
    hide WriteTx, CommitTx, Try, TryCall, Saved, Linked, RoundLines, IndexOfRound, Accepts, CanAppend, PendingIndex,
        Vacated, SaveWaits;
    match event
    case Whole(act) => if Undivided(act) { WholeKeepsTotal(sys.db, act, id); }
    case Write(pid) =>
      if MadeCall(sys, event).Some? {
        WriteKeepsTotal(sys.db, sys.pending[pid].request, sys.pending[pid].seen, id);
      }
    case Commit(pid) =>
      if pid in sys.pending && sys.pending[pid].Loaded? && CommitTx(sys.db, sys.pending[pid]).Ok? {
        CommitAvoids(sys.db, sys.pending[pid], id);
      }
    case Save(pid) =>
      if Saves(sys, event) {
        SavedOrder(sys.db.sessions[sys.pending[pid].sid], sys.pending[pid].session, sys.pending[pid].call);
      }
    case _ =>
  }

  lemma {:induction false} UnbillableStays(sys: Sys, events: seq<Event>, id: nat)
    requires id < |sys.db.orders| && !Billable(sys, id)
    ensures id < |RunAll(sys, events).db.orders| && RunAll(sys, events).db.orders[id].total == sys.db.orders[id].total
    decreases |events|
  {
    hide Billable, Apply;
    if events != [] {
      UnbillableStep(sys, events[0], id);
      UnbillableStays(Apply(sys, events[0]), events[1..], id);
    }
  }

  /** Over any interleaving, late session writes included, a payment that passed its check settles
      the amount checked if its version was observed no later than the read, or the order could not
      take lines any more, or no session can bill it. */
  lemma InterleavedPayment(sys: Sys, events: seq<Event>, r: Request)
    requires OrdersInv(sys) && ObservedRun(sys, events)
    requires r.Pay? && r.id < |sys.db.orders| && Accepts(sys.db.orders[r.id], r)
    requires r.expected <= sys.db.orders[r.id].version || !Appendable(sys.db.orders[r.id]) || !Billable(sys, r.id)
    ensures SettlesIfWritten(RunAll(sys, events).db, r, sys.db.orders[r.id])
  {
    hide RunAll, ObservedRun, Books, ReceiptsOk, RequestsOk, Billable;
    RunKeepsOrders(sys, events);
    assert Evolves(sys.db.orders[r.id], RunAll(sys, events).db.orders[r.id]);
    if !Billable(sys, r.id) {
      UnbillableStays(sys, events, r.id);
    }
  }
}
