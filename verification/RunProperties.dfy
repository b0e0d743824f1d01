/** Properties of runs that need more than the common invariant: the one order a session may
    still extend, the use of tables, and coupon limits. */
module RunProperties {
  import opened Data
  import opened OrderTx
  import opened OrderInvariants
  import opened SessionTx
  import opened SessionShape
  import opened Conservation
  import opened System

  // ---- At most one order of a session can still take lines ----

  /** Of the orders the session produced, only its confirmedOrder may be appendable. */
  ghost predicate OneAppendable(orders: seq<Order>, s: Session) {
    forall o: nat :: Produced(s, o) && o < |orders| && Appendable(orders[o]) ==> s.confirmedOrder == Some(o)
  }

  ghost predicate OneAppendableAt(db: Db, sid: nat) {
    sid < |db.sessions| && OneAppendable(db.orders, db.sessions[sid])
  }

  ghost predicate AllOneAppendable(db: Db) {
    forall i :: 0 <= i < |db.sessions| ==> OneAppendableAt(db, i)
  }

  /** A confirmation carries the session's current order, as it does when calls do not overlap. */
  predicate Current(db: Db, act: Act) {
    act.Confirm? && act.sid < |db.sessions| ==> act.target == db.sessions[act.sid].confirmedOrder
  }

  /** An order that cannot take lines never can again. */
  lemma OneAppendableLater(orders: seq<Order>, orders': seq<Order>, s: Session, s': Session)
    requires OneAppendable(orders, s) && OrdersEvolve(orders, orders')
    requires s'.confirmedOrder == s.confirmedOrder
    requires forall o: nat :: Produced(s', o) ==> Produced(s, o) && o < |orders|
    ensures OneAppendable(orders', s')
  {
    hide Produced;
    forall o: nat | Produced(s', o) && o < |orders'| && Appendable(orders'[o]) ensures s'.confirmedOrder == Some(o) {
      assert Evolves(orders[o], orders'[o]);
    }
  }

  /** Exactly when a confirmation leaves at most one appendable order: it brought the session's
      current order, or that order could not take lines any more. A confirmation that read the
      session before another one committed can leave two. */
  lemma ConfirmOneAppendable(db: Db, sid: nat, target: Option<nat>, menu: Menu)
    requires Inv(db) && ConfirmTx(db, sid, target, menu).Ok? && TargetOk(db.sessions[sid], target)
    requires OneAppendable(db.orders, db.sessions[sid])
    ensures OneAppendableAt(ConfirmTx(db, sid, target, menu).value, sid)
       <==> target == db.sessions[sid].confirmedOrder || !CanAppend(db, db.sessions[sid].confirmedOrder)
  {
    hide Produced, Conserves, LedgerOk, ConfirmTx, Linked, RoundLines, OrderOk;
    ConfirmHasSession(db, sid, target, menu);
    var s := db.sessions[sid];
    var db' := ConfirmTx(db, sid, target, menu).value;
    var lines, o := ConfirmParts(db, sid, target, menu);
    forall p: nat ensures Produced(db'.sessions[sid], p) <==> Produced(s, p) || p == o {
      ProducedAfterConfirm(s, o, p);
    }
    CurrentIsProduced(s);
    if CanAppend(db, s.confirmedOrder) && target != s.confirmedOrder {
      StaysAppendable(db, sid, s.confirmedOrder.value, target, menu);
    } else {
      forall p: nat | Produced(s, p) ensures p < |db.orders| && Evolves(db.orders[p], db'.orders[p]) {
        ProducedExists(db, sid, p);
      }
    }
  }

  /** The order can take lines, and the session refers to another. */
  ghost predicate OpenBeside(db: Db, sid: nat, o: nat) {
    && o < |db.orders| && Appendable(db.orders[o])
    && sid < |db.sessions| && db.sessions[sid].confirmedOrder != Some(o)
  }

  /** A stale confirmation opens a second order and leaves the current one as it is. */
  lemma StaysAppendable(db: Db, sid: nat, o: nat, target: Option<nat>, menu: Menu)
    requires Inv(db) && ConfirmTx(db, sid, target, menu).Ok? && TargetOk(db.sessions[sid], target)
    requires OneAppendable(db.orders, db.sessions[sid]) && db.sessions[sid].confirmedOrder == Some(o)
    requires CanAppend(db, Some(o)) && target != Some(o)
    ensures OpenBeside(ConfirmTx(db, sid, target, menu).value, sid, o)
  {
    hide Linked, RoundLines, Shape, Conserves;
    ProducedCannotAppend(db, sid, o, target);
  }

  lemma ProducedCannotAppend(db: Db, sid: nat, o: nat, target: Option<nat>)
    requires sid < |db.sessions| && OneAppendable(db.orders, db.sessions[sid]) && TargetOk(db.sessions[sid], target)
    requires db.sessions[sid].confirmedOrder == Some(o) && target != Some(o)
    ensures !CanAppend(db, target)
  {
  }

  lemma StepKeepsOneAppendable(db: Db, act: Act)
    requires Inv(db) && Sound(db, act) && Current(db, act) && AllOneAppendable(db)
    ensures AllOneAppendable(Do(db, act))
  {
    if Try(db, act).Ok? {
      forall i | 0 <= i < |Do(db, act).sessions| ensures OneAppendableAt(Do(db, act), i) {
        SessionKeepsOneAppendable(db, act, i);
      }
    }
  }

  lemma SessionKeepsOneAppendable(db: Db, act: Act, i: nat)
    requires Inv(db) && Sound(db, act) && Current(db, act) && Try(db, act).Ok? && AllOneAppendable(db)
    requires i < |Do(db, act).sessions|
    ensures OneAppendableAt(Do(db, act), i)
  {
    hide Inv, Produced, OneAppendable;
    if i < |db.sessions| {
      assert OneAppendableAt(db, i);
      if act.Confirm? && act.sid == i {
        ConfirmOneAppendable(db, i, act.target, act.menu);
      } else {
        StepOnOther(db, act, i);
      }
    } else {
      NewSession(Do(db, act).orders, Do(db, act).sessions[i]);
    }
  }

  lemma NewSession(orders: seq<Order>, s: Session)
    requires s.rounds == []
    ensures OneAppendable(orders, s)
  {
  }

  lemma StepOnOther(db: Db, act: Act, i: nat)
    requires Inv(db) && Sound(db, act) && Try(db, act).Ok? && i < |db.sessions|
    requires act.Confirm? ==> act.sid != i
    requires OneAppendableAt(db, i)
    ensures OneAppendableAt(Do(db, act), i)
  {
    hide Produced, OneAppendable, Shape, Conserves, LedgerOk;
    var db' := Do(db, act);
    StepKeepsInv(db, act);
    UnconfirmedSession(db, act, i);
    forall o: nat | Produced(db'.sessions[i], o) ensures Produced(db.sessions[i], o) && o < |db.orders| {
      ConservesLater(db.orders, db.sessions[i], db'.sessions[i]);
      ProducedExists(db, i, o);
    }
    OneAppendableLater(db.orders, db'.orders, db.sessions[i], db'.sessions[i]);
  }

  /** Only a confirmation confirms a round or changes the order of its session. */
  lemma UnconfirmedSession(db: Db, act: Act, i: nat)
    requires SessionsOk(db) && Try(db, act).Ok? && i < |db.sessions| && i < |Do(db, act).sessions|
    requires act.Confirm? ==> act.sid != i
    ensures ConfirmsNothing(db.sessions[i], Do(db, act).sessions[i])
    ensures Do(db, act).sessions[i].confirmedOrder == db.sessions[i].confirmedOrder
  {
    hide Shape, Conserves;
    if act.Edit? && act.sid == i {
      StepConfirmsNothing(db.sessions[i], act.step);
    } else if act.Close? && act.sid == i {
      CloseKeepsShape(db.sessions[i]);
    } else {
      assert Do(db, act).sessions[i] == db.sessions[i];
    }
  }

  ghost predicate CurrentRun(db: Db, acts: seq<Act>)
    decreases |acts|
  {
    acts == [] || (Current(db, acts[0]) && CurrentRun(Do(db, acts[0]), acts[1..]))
  }

  /** When calls do not overlap, a session never has two orders that can take lines. */
  lemma {:induction false} RunKeepsOneAppendable(db: Db, acts: seq<Act>)
    requires Inv(db) && CurrentRun(db, acts) && AllOneAppendable(db)
    ensures Inv(DoAll(db, acts)) && AllOneAppendable(DoAll(db, acts))
    decreases |acts|
  {
    hide Inv, AllOneAppendable, Do;
    if acts != [] {
      CurrentIsSound(db, acts[0]);
      StepKeepsInv(db, acts[0]);
      StepKeepsOneAppendable(db, acts[0]);
      RunKeepsOneAppendable(Do(db, acts[0]), acts[1..]);
    }
  }

  lemma CurrentIsSound(db: Db, act: Act)
    requires Inv(db) && Current(db, act)
    ensures Sound(db, act)
  {
    if act.Confirm? && act.sid < |db.sessions| {
      CurrentIsProduced(db.sessions[act.sid]);
    }
  }

  // ---- Closing ----

  /** Closing looks only at the session's last order. Exactly when that leaves no order of the
      session that can still take lines: no other order of it could. */
  lemma CloseLeavesNothingOpen(db: Db, sid: nat)
    requires Inv(db) && CloseTx(db, sid).Ok?
    ensures CloseTx(db, sid).value.sessions[sid].status.Closed? && CloseTx(db, sid).value.orders == db.orders
    ensures (forall o: nat :: Produced(db.sessions[sid], o) ==> o < |db.orders| && !Appendable(db.orders[o]))
       <==> OneAppendable(db.orders, db.sessions[sid])
  {
    hide Produced;
    forall o: nat | Produced(db.sessions[sid], o) ensures o < |db.orders| {
      ProducedExists(db, sid, o);
    }
  }

  /** Exactly when closing leaves every order of the session paid, refunded or cancelled: the
      earlier ones already were. An earlier order that was delivered unpaid does not stop it. */
  lemma CloseSettlesIff(db: Db, sid: nat)
    requires Inv(db) && CloseTx(db, sid).Ok?
    ensures (forall o: nat :: Produced(CloseTx(db, sid).value.sessions[sid], o) ==>
        !StillOwes(CloseTx(db, sid).value, Some(o)))
       <==> forall o: nat :: Produced(db.sessions[sid], o) && db.sessions[sid].confirmedOrder != Some(o) ==>
           !StillOwes(db, Some(o))
  {
    hide Produced;
    var s, db' := db.sessions[sid], CloseTx(db, sid).value;
    CloseKeepsShape(s);
    ConservesLater(db.orders, s, db'.sessions[sid]);
    assert forall o: nat :: StillOwes(db', Some(o)) == StillOwes(db, Some(o));
  }

  // ---- Tables ----

  ghost predicate TablesOk(db: Db) {
    OccupiedOk(db) && OneOrderPerTable(db.orders)
  }

  lemma EmitKeepsTables(db: Db, table: nat, target: Option<nat>, append: bool, lines: seq<Line>)
    requires TablesOk(db) && Emit(db, table, target, append, lines).Ok?
    ensures TablesOk(Emit(db, table, target, append, lines).value.0)
  {
    if append && target.Some? {
      AppendKeepsTables(db, target.value, lines);
    } else {
      CreateKeepsTables(db, SessionOrder(table, lines), lines, 0);
    }
  }

  lemma ConfirmKeepsTables(db: Db, sid: nat, target: Option<nat>, menu: Menu)
    requires TablesOk(db) && ConfirmTx(db, sid, target, menu).Ok?
    ensures TablesOk(ConfirmTx(db, sid, target, menu).value)
  {
    var s := db.sessions[sid];
    var k := PendingIndex(s.rounds);
    var lines := RoundLines(Linked(s.items, Some(s.rounds[k].id)), menu, s.rounds[k].number).value;
    EmitKeepsTables(db, s.table, target, CanAppend(db, target), lines);
  }

  lemma StepKeepsTables(db: Db, act: Act)
    requires Books(db) && TablesOk(db) && !act.Close?
    ensures TablesOk(Do(db, act))
  {
    hide Books;
    if Try(db, act).Ok? {
      match act
      case Create(p, lines, now) => CreateKeepsTables(db, p.(status := Pending, subtotal := Sum(lines)), lines, now);
      case Call(r) => BooksOrders(db); CallKeepsOccupied(db, r); CallKeepsOneOrder(db, r);
      case Confirm(sid, target, menu) => ConfirmKeepsTables(db, sid, target, menu);
      case _ =>
    }
  }

  lemma BooksOrders(db: Db)
    requires Books(db)
    ensures OrdersOk(db.orders) && LedgerOk(db)
  {
  }

  lemma InvOrders(db: Db)
    requires Inv(db)
    ensures OrdersOk(db.orders)
  {
  }

  /** While no session is closed, a live table with an active order stays occupied (so it only
      becomes available when its last active order is gone) and holds at most one active order
      that did not come from a QR code. */
  lemma {:induction false} RunKeepsTables(db: Db, acts: seq<Act>)
    requires Inv(db) && SoundRun(db, acts) && TablesOk(db)
    requires forall i :: 0 <= i < |acts| ==> !acts[i].Close?
    ensures TablesOk(DoAll(db, acts))
    decreases |acts|
  {
    hide Inv, TablesOk, Do, Sound, Books;
    if acts != [] {
      InvBooks(db);
      StepKeepsInv(db, acts[0]);
      StepKeepsTables(db, acts[0]);
      RunKeepsTables(Do(db, acts[0]), acts[1..]);
    }
  }

  /** Exactly when closing a session is safe for its table: no active order sits on it. */
  lemma CloseKeepsOccupied(db: Db, sid: nat)
    requires OccupiedOk(db) && CloseTx(db, sid).Ok?
    requires var t := db.sessions[sid].table; t < |db.tables| && !db.tables[t].deleted
    ensures OccupiedOk(CloseTx(db, sid).value)
       <==> forall i :: 0 <= i < |db.orders| ==> !Sits(db.orders[i], db.sessions[sid].table)
  {
    var t := db.sessions[sid].table;
    var db' := CloseTx(db, sid).value;
    if i :| 0 <= i < |db.orders| && Sits(db.orders[i], t) {
      assert db.tables[t].status.Occupied?;
      assert Sits(db'.orders[i], t) && !db'.tables[t].status.Occupied?;
    }
  }

  // ---- Coupon limits ----

  /** A PATCH that does not put the limit below what is already used. */
  predicate KeepsLimit(db: Db, act: Act) {
    act.PatchCoupon? && act.id < |db.coupons| && act.patched.usageLimit.Some? ==>
      db.coupons[act.id].timesUsed <= act.patched.usageLimit.value
  }

  lemma ConfirmKeepsCoupons(db: Db, sid: nat, target: Option<nat>, menu: Menu)
    requires ConfirmTx(db, sid, target, menu).Ok?
    ensures ConfirmTx(db, sid, target, menu).value.coupons == db.coupons
  {
  }

  lemma StepKeepsLimits(db: Db, act: Act)
    requires Books(db) && WithinLimits(db.coupons) && KeepsLimit(db, act)
    ensures WithinLimits(Do(db, act).coupons)
  {
    if Try(db, act).Ok? {
      match act
      case Create(p, lines, now) => CreateKeepsLedger(db, p.(status := Pending, subtotal := Sum(lines)), lines, now);
      case Call(r) => CallKeepsLedger(db, r);
      case Confirm(sid, target, menu) => ConfirmKeepsCoupons(db, sid, target, menu);
      case _ =>
    }
  }

  ghost predicate LimitRun(db: Db, acts: seq<Act>)
    decreases |acts|
  {
    acts == [] || (KeepsLimit(db, acts[0]) && LimitRun(Do(db, acts[0]), acts[1..]))
  }

  lemma {:induction false} RunKeepsLimits(db: Db, acts: seq<Act>)
    requires Inv(db) && SoundRun(db, acts) && LimitRun(db, acts) && WithinLimits(db.coupons)
    ensures WithinLimits(DoAll(db, acts).coupons)
    decreases |acts|
  {
    hide Inv, WithinLimits, Do, Sound, KeepsLimit, Books;
    if acts != [] {
      InvBooks(db);
      StepKeepsInv(db, acts[0]);
      StepKeepsLimits(db, acts[0]);
      RunKeepsLimits(Do(db, acts[0]), acts[1..]);
    }
  }

  // ---- From a new restaurant ----

  /** What every run from a new restaurant keeps, each under its own condition on the run. */
  lemma NewRestaurant(tables: seq<Table>, coupons: seq<Coupon>, acts: seq<Act>)
    ensures var db := NewDb(tables, coupons);
            && (SoundRun(db, acts) ==> Inv(DoAll(db, acts)))
            && (SoundRun(db, acts) && (forall i :: 0 <= i < |acts| ==> !acts[i].Close?) ==> TablesOk(DoAll(db, acts)))
            && (SoundRun(db, acts) && LimitRun(db, acts) ==> WithinLimits(DoAll(db, acts).coupons))
            && (CurrentRun(db, acts) ==> Inv(DoAll(db, acts)) && AllOneAppendable(DoAll(db, acts)))
  {
    hide Inv, DoAll, SoundRun, LimitRun, CurrentRun;
    var db := NewDb(tables, coupons);
    NewDbInv(tables, coupons);
    assert TablesOk(db) && WithinLimits(db.coupons) && AllOneAppendable(db);
    hide TablesOk, WithinLimits, AllOneAppendable;
    if SoundRun(db, acts) {
      RunKeepsInv(db, acts);
      if forall i :: 0 <= i < |acts| ==> !acts[i].Close? {
        RunKeepsTables(db, acts);
      }
      if LimitRun(db, acts) {
        RunKeepsLimits(db, acts);
      }
    }
    if CurrentRun(db, acts) {
      RunKeepsOneAppendable(db, acts);
    }
  }
}
