/** The whole system as a state machine whose steps are service calls, each one transaction.
    Every reachable database meets one invariant and every later database extends it. */
module System {
  import opened Data
  import opened OrderTx
  import opened OrderInvariants
  import opened SessionTx
  import opened SessionShape
  import opened Conservation

  datatype Act =
    | Create(order: NewOrder, lines: seq<Line>, now: int)
    | Call(request: Request)
    | AddCoupon(coupon: Coupon)
    | PatchCoupon(id: nat, patched: Coupon)
    | Start(table: nat)
    | Edit(sid: nat, step: Step)
    | Confirm(sid: nat, target: Option<nat>, menu: Menu)
    | Close(sid: nat)

  /** createOrder after pricing: the table must exist, the order starts out pending and its
      subtotal is the sum of its lines. */
  function CreateCall(db: Db, p: NewOrder, lines: seq<Line>, now: int): Result<Db> {
    if p.table.Some? && (p.table.value >= |db.tables| || db.tables[p.table.value].deleted) then Err(NotFound)
    else CreateTx(db, p.(status := Pending, subtotal := Sum(lines)), lines, now)
  }

  /** A PATCH or a soft delete may change anything of a live coupon but its use count. */
  function PatchTx(db: Db, id: nat, patched: Coupon): Result<Db> {
    if id >= |db.coupons| || db.coupons[id].deleted then Err(NotFound)
    else Ok(db.(coupons := db.coupons[id := patched.(timesUsed := db.coupons[id].timesUsed)]))
  }

  function Try(db: Db, act: Act): Result<Db> {
    match act
    case Create(p, lines, now) => CreateCall(db, p, lines, now)
    case Call(r) => CallTx(db, r)
    case AddCoupon(c) => Ok(db.(coupons := db.coupons + [c.(timesUsed := 0)]))
    case PatchCoupon(id, c) => PatchTx(db, id, c)
    case Start(t) => StartTx(db, t)
    case Edit(sid, step) => StepTx(db, sid, step)
    case Confirm(sid, target, menu) => ConfirmTx(db, sid, target, menu)
    case Close(sid) => CloseTx(db, sid)
  }

  /** A refused call leaves the database as it was. */
  function Do(db: Db, act: Act): Db {
    match Try(db, act)
    case Ok(d) => d
    case Err(_) => db
  }

  // ---- The invariant ----

  ghost predicate CouponsKnown(db: Db) {
    forall i :: 0 <= i < |db.orders| && db.orders[i].coupon.Some? ==> db.orders[i].coupon.value < |db.coupons|
  }

  ghost predicate SessionsOk(db: Db) {
    forall i :: 0 <= i < |db.sessions| ==> Shape(db.sessions[i]) && Conserves(db.orders, db.sessions[i])
  }

  /** No order was produced by two sessions. */
  ghost predicate Separate(sessions: seq<Session>) {
    forall i, j, o: nat :: 0 <= i < j < |sessions| ==> !(Produced(sessions[i], o) && Produced(sessions[j], o))
  }

  ghost predicate OneSessionPerTable(sessions: seq<Session>) {
    forall i, j :: 0 <= i < j < |sessions| && sessions[i].table == sessions[j].table ==>
      sessions[i].status.Closed? || sessions[j].status.Closed?
  }

  /** Orders and coupons, whatever the sessions do. */
  ghost predicate Books(db: Db) {
    OrdersOk(db.orders) && LedgerOk(db) && CouponsKnown(db)
  }

  ghost predicate Inv(db: Db) {
    && Books(db)
    && SessionsOk(db) && Separate(db.sessions) && OneSessionPerTable(db.sessions)
  }

  lemma InvBooks(db: Db)
    requires Inv(db)
    ensures Books(db)
  {
  }

  /** Nothing recorded is lost: orders and sessions only move forward. */
  ghost predicate Extends(db: Db, db': Db) {
    && OrdersEvolve(db.orders, db'.orders)
    && |db.sessions| <= |db'.sessions|
    && forall i :: 0 <= i < |db.sessions| ==> SessionEvolves(db.sessions[i], db'.sessions[i])
  }

  /** The one thing the calls of a run must respect: the order id a confirmation brings from
      its earlier read of the session was at some time an order of that session. */
  ghost predicate Sound(db: Db, act: Act) {
    act.Confirm? && act.sid < |db.sessions| ==> TargetOk(db.sessions[act.sid], act.target)
  }

  // ---- Steps on orders and coupons ----

  lemma SessionsSurvive(db: Db, db': Db)
    requires SessionsOk(db) && db'.sessions == db.sessions && |db.orders| <= |db'.orders|
    requires forall i :: 0 <= i < |db.orders| ==> db'.orders[i].lines == db.orders[i].lines
    ensures SessionsOk(db')
    ensures forall i :: 0 <= i < |db.sessions| ==> SessionEvolves(db.sessions[i], db'.sessions[i])
  {
    forall i | 0 <= i < |db.sessions| ensures Conserves(db'.orders, db.sessions[i]) {
      ConservesFrame(db.orders, db'.orders, db.sessions[i]);
    }
  }

  lemma CreateBooks(db: Db, p: NewOrder, lines: seq<Line>, now: int)
    requires Books(db) && CreateTx(db, p, lines, now).Ok? && p.subtotal == Sum(lines) && Starts(p.status)
    ensures var db' := CreateTx(db, p, lines, now).value; Books(db') && OrdersEvolve(db.orders, db'.orders)
  {
    hide Uses;
    CreateKeepsOrders(db, p, lines, now);
    CreateKeepsLedger(db, p, lines, now);
    CreateKnown(db, p, lines, now);
  }

  lemma CreateKnown(db: Db, p: NewOrder, lines: seq<Line>, now: int)
    requires CouponsKnown(db) && CreateTx(db, p, lines, now).Ok?
    ensures CouponsKnown(CreateTx(db, p, lines, now).value)
  {
  }

  lemma CallBooks(db: Db, r: Request)
    requires Books(db) && CallTx(db, r).Ok?
    ensures var db' := CallTx(db, r).value; Books(db') && OrdersEvolve(db.orders, db'.orders)
  {
    hide Uses;
    CalledRow(db, r);
    CallKeepsOrders(db, r);
    CallKeepsLedger(db, r);
  }

  lemma {:induction false} UsesNone(orders: seq<Order>, c: nat)
    requires forall i :: 0 <= i < |orders| ==> orders[i].coupon != Some(c)
    ensures Uses(orders, c) == 0
  {
    if orders != [] {
      UsesNone(orders[..|orders| - 1], c);
    }
  }

  lemma CouponBooks(db: Db, act: Act)
    requires Books(db) && (act.AddCoupon? || act.PatchCoupon?)
    ensures Books(Do(db, act)) && Do(db, act).orders == db.orders
  {
    if act.AddCoupon? {
      UsesNone(db.orders, |db.coupons|);
    }
  }

  /** Orders and coupons stay right whatever state the sessions are in. */
  lemma StepKeepsBooks(db: Db, act: Act)
    requires Books(db)
    ensures Books(Do(db, act)) && OrdersEvolve(db.orders, Do(db, act).orders)
  {
    hide Books;
    if Try(db, act).Ok? {
      match act
      case Create(p, lines, now) => CreateBooks(db, p.(status := Pending, subtotal := Sum(lines)), lines, now);
      case Call(r) => CallBooks(db, r);
      case AddCoupon(_) => CouponBooks(db, act);
      case PatchCoupon(_, _) => CouponBooks(db, act);
      case Confirm(sid, target, menu) => ConfirmBooks(db, sid, target, menu);
      case _ => SameBooks(db, Do(db, act));
    }
  }

  lemma SameBooks(db: Db, db': Db)
    requires Books(db) && db'.orders == db.orders && db'.coupons == db.coupons
    ensures Books(db')
  {
  }

  lemma ConfirmBooks(db: Db, sid: nat, target: Option<nat>, menu: Menu)
    requires Books(db) && ConfirmTx(db, sid, target, menu).Ok?
    ensures var db' := ConfirmTx(db, sid, target, menu).value; Books(db') && OrdersEvolve(db.orders, db'.orders)
  {
    hide Books;
    var s := db.sessions[sid];
    var k := PendingIndex(s.rounds);
    var lines := RoundLines(Linked(s.items, Some(s.rounds[k].id)), menu, s.rounds[k].number).value;
    EmitStep(db, s.table, target, CanAppend(db, target), lines);
    SameBooks(Emit(db, s.table, target, CanAppend(db, target), lines).value.0, ConfirmTx(db, sid, target, menu).value);
  }

  lemma CreateStep(db: Db, p: NewOrder, lines: seq<Line>, now: int)
    requires Inv(db) && CreateTx(db, p, lines, now).Ok? && p.subtotal == Sum(lines) && Starts(p.status)
    ensures Inv(CreateTx(db, p, lines, now).value) && Extends(db, CreateTx(db, p, lines, now).value)
  {
    hide Shape, Conserves, Produced, Uses;
    CreateBooks(db, p, lines, now);
    SessionsSurvive(db, CreateTx(db, p, lines, now).value);
  }

  lemma CallStep(db: Db, r: Request)
    requires Inv(db) && CallTx(db, r).Ok?
    ensures Inv(CallTx(db, r).value) && Extends(db, CallTx(db, r).value)
  {
    hide Shape, Conserves, Produced, Uses;
    CalledRow(db, r);
    CallBooks(db, r);
    SessionsSurvive(db, CallTx(db, r).value);
  }

  lemma CouponStep(db: Db, act: Act)
    requires Inv(db) && (act.AddCoupon? || act.PatchCoupon?)
    ensures Inv(Do(db, act)) && Extends(db, Do(db, act))
  {
    hide Shape, Conserves, Produced, Uses;
    CouponBooks(db, act);
    SessionsSurvive(db, Do(db, act));
  }

  // ---- Steps on sessions ----

  lemma ProducedNothing(s: Session, o: nat)
    requires s.rounds == []
    ensures !Produced(s, o)
  {
  }

  lemma EmptySession(db: Db, t: nat)
    ensures Shape(Session(t, Open, None, [], [], 0, 0)) && Conserves(db.orders, Session(t, Open, None, [], [], 0, 0))
  {
  }

  lemma StartStep(db: Db, t: nat)
    requires Inv(db) && StartTx(db, t).Ok?
    ensures Inv(StartTx(db, t).value) && Extends(db, StartTx(db, t).value)
  {
    hide Shape, Conserves, Produced, Books;
    var db' := StartTx(db, t).value;
    SameBooks(db, db');
    EmptySession(db, t);
    forall i, j, o: nat | 0 <= i < j < |db'.sessions|
        ensures !(Produced(db'.sessions[i], o) && Produced(db'.sessions[j], o)) {
      if j == |db.sessions| {
        ProducedNothing(db'.sessions[j], o);
      }
    }
  }

  /** Replacing a session by a later self that confirmed nothing new. */
  lemma SessionStep(db: Db, db': Db, sid: nat, s': Session)
    requires Inv(db) && sid < |db.sessions|
    requires db'.orders == db.orders && db'.coupons == db.coupons && db'.sessions == db.sessions[sid := s']
    requires Shape(s') && SessionEvolves(db.sessions[sid], s') && ConfirmsNothing(db.sessions[sid], s')
    ensures Inv(db') && Extends(db, db')
  {
    hide Shape, Conserves, Produced, OrderOk, Uses;
    ConservesLater(db.orders, db.sessions[sid], s');
  }

  lemma EditStep(db: Db, sid: nat, step: Step)
    requires Inv(db) && StepTx(db, sid, step).Ok?
    ensures Inv(StepTx(db, sid, step).value) && Extends(db, StepTx(db, sid, step).value)
  {
    StepKeepsShape(db.sessions[sid], step);
    StepConfirmsNothing(db.sessions[sid], step);
    SessionStep(db, StepTx(db, sid, step).value, sid, StepOf(db.sessions[sid], step).value);
  }

  lemma CloseStep(db: Db, sid: nat)
    requires Inv(db) && CloseTx(db, sid).Ok?
    ensures Inv(CloseTx(db, sid).value) && Extends(db, CloseTx(db, sid).value)
  {
    CloseKeepsShape(db.sessions[sid]);
    SessionStep(db, CloseTx(db, sid).value, sid, CloseTx(db, sid).value.sessions[sid]);
  }

  /** Where a confirmed round goes. */
  lemma EmitStep(db: Db, table: nat, target: Option<nat>, append: bool, lines: seq<Line>)
    requires Books(db)
    requires Emit(db, table, target, append, lines).Ok?
    ensures var (db', o) := Emit(db, table, target, append, lines).value;
            && Books(db')
            && OrdersEvolve(db.orders, db'.orders) && db'.sessions == db.sessions
            && Takes(db.orders, db'.orders, o, lines)
            && o == (if append && target.Some? then target.value else |db.orders|)
  {
    if append && target.Some? {
      AppendKeepsOrders(db, target.value, lines);
      AppendKeepsLedger(db, target.value, lines);
    } else {
      CreateKeepsOrders(db, SessionOrder(table, lines), lines, 0);
      CreateKeepsLedger(db, SessionOrder(table, lines), lines, 0);
    }
  }

  /** An order a session refers to exists. */
  lemma ProducedExists(db: Db, sid: nat, o: nat)
    requires SessionsOk(db) && sid < |db.sessions| && Produced(db.sessions[sid], o)
    ensures o < |db.orders|
  {
    var s := db.sessions[sid];
    var k :| 0 <= k < |s.rounds| && s.rounds[k].status.RoundConfirmed? && s.rounds[k].order == Some(o);
    assert Delivers(db.orders, s, k);
  }

  lemma OthersSurviveConfirm(db: Db, orders': seq<Order>, sid: nat, o: nat, lines: seq<Line>, i: nat)
    requires SessionsOk(db) && Separate(db.sessions)
    requires sid < |db.sessions| && i < |db.sessions| && i != sid
    requires Takes(db.orders, orders', o, lines) && (o < |db.orders| ==> Produced(db.sessions[sid], o))
    ensures Conserves(orders', db.sessions[i]) && !Produced(db.sessions[i], o)
  {
    if Produced(db.sessions[i], o) {
      ProducedExists(db, i, o);
    }
    ConservesFrame(db.orders, orders', db.sessions[i]);
  }

  /** What a confirmation does: order `o` takes the priced lines of the session's last round,
      and the session records it. */
  ghost predicate Confirms(db: Db, db': Db, sid: nat, o: nat, lines: seq<Line>)
    requires sid < |db.sessions|
  {
    var s := db.sessions[sid];
    && HasPending(s.rounds) && lines != []
    && (forall j :: 0 <= j < |lines| ==> lines[j].round == |s.rounds|)
    && LineEntries(lines) == ItemEntries(Linked(s.items, Some(s.rounds[|s.rounds| - 1].id)))
    && Takes(db.orders, db'.orders, o, lines)
    && db'.sessions == db.sessions[sid := MarkConfirmed(s, |s.rounds| - 1, o)]
  }

  lemma ConfirmParts(db: Db, sid: nat, target: Option<nat>, menu: Menu) returns (lines: seq<Line>, o: nat)
    requires Books(db)
    requires ConfirmTx(db, sid, target, menu).Ok? && Shape(db.sessions[sid])
    ensures var db' := ConfirmTx(db, sid, target, menu).value;
            && Confirms(db, db', sid, o, lines)
            && o == (if CanAppend(db, target) then target.value else |db.orders|)
            && Books(db') && OrdersEvolve(db.orders, db'.orders)
    ensures !db.sessions[sid].status.Closed?
  {
    var s := db.sessions[sid];
    PendingIsLast(s);
    var items := Linked(s.items, Some(s.rounds[|s.rounds| - 1].id));
    RoundLinesMatch(items, menu, |s.rounds|);
    lines := RoundLines(items, menu, |s.rounds|).value;
    EmitStep(db, s.table, target, CanAppend(db, target), lines);
    o := Emit(db, s.table, target, CanAppend(db, target), lines).value.1;
    var rest := ConfirmTx(db, sid, target, menu).value.(sessions := db.sessions);
    assert rest == Emit(db, s.table, target, CanAppend(db, target), lines).value.0;
  }

  /** The confirmed session itself. */
  lemma ConfirmedSession(db: Db, db': Db, sid: nat, o: nat, lines: seq<Line>)
    requires sid < |db.sessions| && Confirms(db, db', sid, o, lines)
    requires Shape(db.sessions[sid]) && Conserves(db.orders, db.sessions[sid])
    requires o < |db.orders| ==> Produced(db.sessions[sid], o)
    ensures Shape(db'.sessions[sid]) && Conserves(db'.orders, db'.sessions[sid])
    ensures SessionEvolves(db.sessions[sid], db'.sessions[sid])
  {
    var s := db.sessions[sid];
    ConfirmConserves(db.orders, db'.orders, s, o, lines);
    PendingIsLast(s);
    assert |LineEntries(lines)| == |ItemEntries(Linked(s.items, Some(s.rounds[|s.rounds| - 1].id)))|;
    ConfirmKeepsShape(s, o);
  }

  lemma ConfirmedSessions(db: Db, db': Db, sid: nat, o: nat, lines: seq<Line>)
    requires SessionsOk(db) && Separate(db.sessions) && OneSessionPerTable(db.sessions)
    requires sid < |db.sessions| && !db.sessions[sid].status.Closed? && Confirms(db, db', sid, o, lines)
    requires o < |db.orders| ==> Produced(db.sessions[sid], o)
    ensures SessionsOk(db') && Separate(db'.sessions) && OneSessionPerTable(db'.sessions)
    ensures forall i :: 0 <= i < |db.sessions| ==> SessionEvolves(db.sessions[i], db'.sessions[i])
  {
    hide Shape, Conserves, Produced;
    ConfirmedSession(db, db', sid, o, lines);
    forall i | 0 <= i < |db.sessions| && i != sid ensures Conserves(db'.orders, db.sessions[i]) {
      OthersSurviveConfirm(db, db'.orders, sid, o, lines, i);
    }
    forall i, j, p: nat | 0 <= i < j < |db'.sessions|
        ensures !(Produced(db'.sessions[i], p) && Produced(db'.sessions[j], p)) {
      if i == sid || j == sid {
        OthersSurviveConfirm(db, db'.orders, sid, o, lines, if i == sid then j else i);
        ProducedAfterConfirm(db.sessions[sid], o, p);
      }
    }
  }

  lemma ConfirmHasSession(db: Db, sid: nat, target: Option<nat>, menu: Menu)
    requires ConfirmTx(db, sid, target, menu).Ok?
    ensures sid < |db.sessions|
  {
  }

  lemma ConfirmStep(db: Db, sid: nat, target: Option<nat>, menu: Menu)
    requires Inv(db) && ConfirmTx(db, sid, target, menu).Ok? && TargetOk(db.sessions[sid], target)
    ensures Inv(ConfirmTx(db, sid, target, menu).value) && Extends(db, ConfirmTx(db, sid, target, menu).value)
  {
    hide Shape, Conserves, Produced, Confirms, OrderOk, Uses, Evolves, SessionEvolves, Takes;
    var lines, o := ConfirmParts(db, sid, target, menu);
    ConfirmedSessions(db, ConfirmTx(db, sid, target, menu).value, sid, o, lines);
  }

  // ---- Runs ----

  lemma StepKeepsInv(db: Db, act: Act)
    requires Inv(db) && Sound(db, act)
    ensures Inv(Do(db, act)) && Extends(db, Do(db, act))
  {
    if Try(db, act).Ok? {
      match act
      case Create(p, lines, now) => CreateStep(db, p.(status := Pending, subtotal := Sum(lines)), lines, now);
      case Call(r) => CallStep(db, r);
      case AddCoupon(_) => CouponStep(db, act);
      case PatchCoupon(_, _) => CouponStep(db, act);
      case Start(t) => StartStep(db, t);
      case Edit(sid, step) => EditStep(db, sid, step);
      case Confirm(sid, target, menu) => ConfirmStep(db, sid, target, menu);
      case Close(sid) => CloseStep(db, sid);
    }
  }

  /** An order that a session has produced is never without lines. */
  lemma ProducedHasLines(db: Db, sid: nat, o: nat)
    requires Inv(db) && sid < |db.sessions| && Produced(db.sessions[sid], o)
    ensures o < |db.orders| && db.orders[o].lines != []
  {
    var s := db.sessions[sid];
    var k :| 0 <= k < |s.rounds| && s.rounds[k].status.RoundConfirmed? && s.rounds[k].order == Some(o);
    assert Delivers(db.orders, s, k);
    assert |ItemEntries(Linked(s.items, Some(s.rounds[k].id)))| > 0;
  }

  function DoAll(db: Db, acts: seq<Act>): Db
    decreases |acts|
  {
    if acts == [] then db else DoAll(Do(db, acts[0]), acts[1..])
  }

  ghost predicate SoundRun(db: Db, acts: seq<Act>)
    decreases |acts|
  {
    acts == [] || (Sound(db, acts[0]) && SoundRun(Do(db, acts[0]), acts[1..]))
  }

  lemma ExtendsTransitive(a: Db, b: Db, c: Db)
    requires Extends(a, b) && Extends(b, c)
    ensures Extends(a, c)
  {
    OrdersEvolveTransitive(a.orders, b.orders, c.orders);
    forall i | 0 <= i < |a.sessions| ensures SessionEvolves(a.sessions[i], c.sessions[i]) {
      SessionEvolvesTransitive(a.sessions[i], b.sessions[i], c.sessions[i]);
    }
  }

  /** Over any run the invariant holds and everything recorded at the start is still there:
      a paid order has the total it had, a terminal status stays, a confirmed round keeps its
      items, its order and its total, a closed session never changes. */
  lemma {:induction false} RunKeepsInv(db: Db, acts: seq<Act>)
    requires Inv(db) && SoundRun(db, acts)
    ensures Inv(DoAll(db, acts)) && Extends(db, DoAll(db, acts))
    decreases |acts|
  {
    hide Inv, Sound, Do;
    if acts != [] {
      StepKeepsInv(db, acts[0]);
      RunKeepsInv(Do(db, acts[0]), acts[1..]);
      ExtendsTransitive(db, Do(db, acts[0]), DoAll(db, acts));
    }
  }

  lemma {:induction false} RunConcat(db: Db, a: seq<Act>, b: seq<Act>)
    ensures DoAll(db, a + b) == DoAll(DoAll(db, a), b)
    ensures SoundRun(db, a + b) <==> SoundRun(db, a) && SoundRun(DoAll(db, a), b)
    decreases |a|
  {
    hide Do, Sound;
    if a == [] {
      assert a + b == b;
    } else {
      assert (a + b)[1..] == a[1..] + b;
      RunConcat(Do(db, a[0]), a[1..], b);
    }
  }

  /** A new restaurant: tables and unused coupons, no order and no session. */
  function NewDb(tables: seq<Table>, coupons: seq<Coupon>): Db {
    Db([], seq(|coupons|, i requires 0 <= i < |coupons| => coupons[i].(timesUsed := 0)), tables, [])
  }

  lemma NewDbInv(tables: seq<Table>, coupons: seq<Coupon>)
    ensures Inv(NewDb(tables, coupons))
  {
  }
}
