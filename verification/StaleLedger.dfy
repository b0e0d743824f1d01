/** The coupon ledger under late versions: a request that names a version later than the one its
    service call has read can revive a cancelled order, or cancel it again. */
module StaleLedger {
  import opened Data
  import opened OrderTx
  import opened OrderInvariants
  import opened System
  import opened StaleWrites

  /** Whatever happens before the write, a write that goes through leaves every coupon's use count
      at the number of orders carrying it that were not cancelled. */
  ghost predicate AlwaysKeepsLedger(db: Db, r: Request)
    requires r.id < |db.orders|
  {
    forall acts :: SoundRun(db, acts) ==> LedgerIfWritten(DoAll(db, acts), r, db.orders[r.id])
  }

  ghost predicate LedgerIfWritten(db: Db, r: Request, seen: Order) {
    WriteTx(db, r, seen).Ok? ==> LedgerOk(WriteTx(db, r, seen).value)
  }

  /** The order is the last one that will ever carry its coupon. */
  predicate LastUse(db: Db, id: nat)
    requires id < |db.orders|
  {
    var c := db.orders[id].coupon;
    c.Some? && c.value < |db.coupons| && db.coupons[c.value].deleted && Uses(db.orders, c.value) == 1
  }

  /** Nothing comes between the read and the write that could matter. */
  predicate InTime(o: Order, r: Request) {
    r.Pay? || r.Refund? || r.expected <= o.version || Terminal(o.status)
  }

  /** Exactly when a request of any kind that passed its check leaves the coupon ledger right,
      whatever runs before its write: it is a payment or a refund, its version was observed no later
      than the read, the order had ended or has no coupon; or it is a cancellation of the only order
      carrying a coupon that has been deleted. */
  lemma LedgerKeptIff(db: Db, r: Request)
    requires Inv(db) && r.id < |db.orders| && Accepts(db.orders[r.id], r)
    ensures AlwaysKeepsLedger(db, r)
       <==> InTime(db.orders[r.id], r) || db.orders[r.id].coupon.None? || (r.Cancel? && LastUse(db, r.id))
  {
    hide AlwaysKeepsLedger, LastUse;
    var o := db.orders[r.id];
    if InTime(o, r) || o.coupon.None? || (r.Cancel? && LastUse(db, r.id)) {
      LedgerIsKept(db, r);
    } else {
      LedgerIsBroken(db, r);
    }
  }

  // ---- When it is kept ----

  /** No other order carries the coupon of this one. */
  ghost predicate SoleCarrier(orders: seq<Order>, id: nat)
    requires id < |orders|
  {
    orders[id].coupon.Some? ==>
      forall i :: 0 <= i < |orders| && i != id ==> !Carries(orders[i], orders[id].coupon.value)
  }

  lemma {:induction false} NoCarriers(orders: seq<Order>, c: nat)
    requires forall i :: 0 <= i < |orders| ==> !Carries(orders[i], c)
    ensures Uses(orders, c) == 0
  {
    if orders != [] {
      NoCarriers(orders[..|orders| - 1], c);
    }
  }

  /** A sole carrier is all there is to count, and the other way round. */
  lemma SoleCounts(orders: seq<Order>, id: nat, c: nat)
    requires id < |orders| && orders[id].coupon == Some(c)
    ensures SoleCarrier(orders, id) ==> Uses(orders, c) == if Carries(orders[id], c) then 1 else 0
    ensures Carries(orders[id], c) && Uses(orders, c) == 1 ==> SoleCarrier(orders, id)
  {
    hide Uses;
    var without := orders[id := orders[id].(coupon := None)];
    UsesAfterUpdate(orders, id, without[id], c);
    if SoleCarrier(orders, id) {
      NoCarriers(without, c);
    }
    if Carries(orders[id], c) && Uses(orders, c) == 1 {
      forall i | 0 <= i < |orders| && i != id ensures !Carries(orders[i], c) {
        if Carries(without[i], c) {
          CarrierCounts(without, i, c);
        }
      }
    }
  }

  /** While its coupon is deleted, an order that is the only one carrying it stays so. */
  ghost predicate LastCarrier(db: Db, id: nat) {
    && id < |db.orders| && db.orders[id].coupon.Some? && SoleCarrier(db.orders, id)
    && db.orders[id].coupon.value < |db.coupons| && db.coupons[db.orders[id].coupon.value].deleted
  }

  lemma StepKeepsLast(db: Db, act: Act, id: nat)
    requires Inv(db) && Sound(db, act) && LastCarrier(db, id)
    ensures LastCarrier(Do(db, act), id)
  {
    hide Inv, Do, Sound;
    StepKeepsInv(db, act);
    var db' := Do(db, act);
    var c := db.orders[id].coupon.value;
    DeletedStays(db, act, c);
    forall i | 0 <= i < |db'.orders| && i != id ensures !Carries(db'.orders[i], c) {
      if i < |db.orders| {
        assert Evolves(db.orders[i], db'.orders[i]);
      } else {
        NewOrdersAvoid(db, act, c, i);
      }
    }
    assert Evolves(db.orders[id], db'.orders[id]);
  }

  lemma DeletedStays(db: Db, act: Act, c: nat)
    requires c < |db.coupons| && db.coupons[c].deleted
    ensures c < |Do(db, act).coupons| && Do(db, act).coupons[c].deleted
  {
  }

  /** No new order gets a coupon that is deleted. */
  lemma NewOrdersAvoid(db: Db, act: Act, c: nat, i: nat)
    requires c < |db.coupons| && db.coupons[c].deleted
    requires |db.orders| <= i < |Do(db, act).orders|
    ensures Do(db, act).orders[i].coupon != Some(c)
  {
  }

  lemma {:induction false} RunKeepsLast(db: Db, acts: seq<Act>, id: nat)
    requires Inv(db) && SoundRun(db, acts) && LastCarrier(db, id)
    ensures LastCarrier(DoAll(db, acts), id)
    decreases |acts|
  {
    hide Inv, Sound, Do, LastCarrier;
    if acts != [] {
      StepKeepsInv(db, acts[0]);
      StepKeepsLast(db, acts[0], id);
      RunKeepsLast(Do(db, acts[0]), acts[1..], id);
    }
  }

  lemma LedgerIsKept(db: Db, r: Request)
    requires Inv(db) && r.id < |db.orders| && Accepts(db.orders[r.id], r)
    requires InTime(db.orders[r.id], r) || db.orders[r.id].coupon.None? || (r.Cancel? && LastUse(db, r.id))
    ensures AlwaysKeepsLedger(db, r)
  {
    hide Inv, DoAll, SoundRun, LedgerIfWritten, InTime, Accepts, Uses;
    var o := db.orders[r.id];
    forall acts | SoundRun(db, acts) ensures LedgerIfWritten(DoAll(db, acts), r, o) {
      RunKeepsInv(db, acts);
      InvBooks(DoAll(db, acts));
      assert Evolves(o, DoAll(db, acts).orders[r.id]);
      if !InTime(o, r) && o.coupon.Some? {
        LiveCarries(o, r);
        SoleCounts(db.orders, r.id, o.coupon.value);
        RunKeepsLast(db, acts, r.id);
      }
      WriteKeepsLedger(DoAll(db, acts), r, o);
    }
  }

  lemma LiveCarries(o: Order, r: Request)
    requires Accepts(o, r) && !InTime(o, r) && o.coupon.Some?
    ensures Carries(o, o.coupon.value)
  {
  }

  lemma WriteKeepsLedger(db: Db, r: Request, seen: Order)
    requires LedgerOk(db) && r.id < |db.orders| && Accepts(seen, r) && Evolves(seen, db.orders[r.id])
    requires InTime(seen, r) || seen.coupon.None? || (r.Cancel? && SoleCarrier(db.orders, r.id))
    ensures LedgerIfWritten(db, r, seen)
  {
    hide Uses;
    if WriteTx(db, r, seen).Ok? {
      var after := WriteTx(db, r, seen).value;
      forall c: nat | c < |db.coupons| ensures after.coupons[c].timesUsed == Uses(after.orders, c) {
        UsesAfterUpdate(db.orders, r.id, after.orders[r.id], c);
        if Carries(db.orders[r.id], c) {
          CarrierCounts(db.orders, r.id, c);
        }
        if db.orders[r.id].coupon == Some(c) {
          SoleCounts(db.orders, r.id, c);
        }
      }
    }
  }

  // ---- When it is not ----

  /** A late second cancellation goes through, and gives a coupon use back twice, unless the guard
      against counting below zero stops it: when the order is the only one carrying its coupon. */
  lemma LateCancelLedgerIff(db: Db, id: nat, expected: nat) returns (acts: seq<Act>)
    requires Inv(db) && id < |db.orders| && !Terminal(db.orders[id].status) && expected > db.orders[id].version
    ensures SoundRun(db, acts) && WriteTx(DoAll(db, acts), Cancel(id, expected), db.orders[id]).Ok?
    ensures LedgerOk(WriteTx(DoAll(db, acts), Cancel(id, expected), db.orders[id]).value)
       <==> db.orders[id].coupon.None? || Uses(db.orders, db.orders[id].coupon.value) == 1
  {
    hide OrderOk, HistoryOk, DoAll, SoundRun, SessionsOk, Separate, OneSessionPerTable;
    acts := CancelledAtVersion(db, id, expected - db.orders[id].version - 1);
    var late := DoAll(db, acts);
    CancelledTwice(db, late, id, db.orders[id]);
  }

  lemma CancelledTwice(db: Db, late: Db, id: nat, seen: Order)
    requires id < |db.orders| && |late.orders| == |db.orders| && LedgerOk(late) && CouponsKnown(late)
    requires !db.orders[id].status.Cancelled? && late.orders[id].status.Cancelled?
    requires late.orders[id].coupon == db.orders[id].coupon && late.orders == db.orders[id := late.orders[id]]
    ensures LedgerOk(StatusTx(late, id, late.orders[id].version, seen.status, Cancelled).value)
       <==> db.orders[id].coupon.None? || Uses(db.orders, db.orders[id].coupon.value) == 1
  {
    hide Uses;
    var after := StatusTx(late, id, late.orders[id].version, seen.status, Cancelled).value;
    assert |after.coupons| == |late.coupons|;
    forall c: nat ensures Uses(after.orders, c) == Uses(late.orders, c) {
      UsesAfterUpdate(late.orders, id, after.orders[id], c);
    }
    if db.orders[id].coupon.Some? {
      UsesAfterUpdate(db.orders, id, late.orders[id], db.orders[id].coupon.value);
    }
  }

  /** A late status update brings a cancelled order back to life, with no use of its coupon. */
  lemma RevivedLedger(db: Db, r: Request, seen: Order)
    requires r.SetStatus? && r.id < |db.orders| && LedgerOk(db) && CouponsKnown(db)
    requires db.orders[r.id].status.Cancelled? && db.orders[r.id].coupon.Some?
    requires r.expected == db.orders[r.id].version && !r.next.Cancelled?
    ensures WriteTx(db, r, seen).Ok? && !LedgerOk(WriteTx(db, r, seen).value)
  {
    hide Uses;
    var c := db.orders[r.id].coupon.value;
    var after := WriteTx(db, r, seen).value;
    UsesAfterUpdate(db.orders, r.id, after.orders[r.id], c);
    assert after.coupons == db.coupons;
  }

  /** A live coupon can be made to fit and be given to one more order. */
  lemma OneMoreCarrier(db: Db, c: nat) returns (acts: seq<Act>)
    requires Inv(db) && c < |db.coupons| && !db.coupons[c].deleted
    ensures SoundRun(db, acts) && Inv(DoAll(db, acts))
    ensures |DoAll(db, acts).orders| == |db.orders| + 1 && DoAll(db, acts).orders[..|db.orders|] == db.orders
    ensures Uses(DoAll(db, acts).orders, c) == Uses(db.orders, c) + 1
  {
    hide Inv;
    var patch := PatchCoupon(c, Coupon(Fixed, 0, 0, None, [], None, 0, true, false, None, None));
    var mid := Do(db, patch);
    var line := Line(0, 1, 1, 1, 1);
    assert Sum([line]) == 1 by {
      assert [line][1..] == [];
    }
    var p := NewOrder(Qr, Pickup, Pending, None, Some(c), 1, 0);
    var create := Create(p, [line], 0);
    StepKeepsInv(db, patch);
    StepKeepsInv(mid, create);
    assert CreateTx(mid, p, [line], 0).Ok?;
    CreateEffect(mid, p, [line], 0);
    OneAct(db, patch);
    OneAct(mid, create);
    RunConcat(db, [patch], [create]);
    acts := [patch] + [create];
    assert DoAll(db, acts) == CreateTx(mid, p, [line], 0).value;
  }

  lemma LedgerIsBroken(db: Db, r: Request)
    requires Inv(db) && r.id < |db.orders| && Accepts(db.orders[r.id], r)
    requires !InTime(db.orders[r.id], r) && db.orders[r.id].coupon.Some? && !(r.Cancel? && LastUse(db, r.id))
    ensures !AlwaysKeepsLedger(db, r)
  {
    hide Inv, DoAll, SoundRun, Uses, OrderOk;
    var o := db.orders[r.id];
    if r.SetStatus? {
      var acts := CancelledAtVersion(db, r.id, r.expected - o.version - 1);
      InvBooks(DoAll(db, acts));
      RevivedLedger(DoAll(db, acts), r, o);
      assert !LedgerIfWritten(DoAll(db, acts), r, o);
    } else {
      InvBooks(db);
      TwiceIsBroken(db, r.id, r.expected);
    }
  }

  lemma TwiceIsBroken(db: Db, id: nat, expected: nat)
    requires Inv(db) && id < |db.orders| && !Terminal(db.orders[id].status) && expected > db.orders[id].version
    requires db.orders[id].coupon.Some? && db.orders[id].coupon.value < |db.coupons| && !LastUse(db, id)
    ensures !AlwaysKeepsLedger(db, Cancel(id, expected))
  {
    hide Inv, DoAll, SoundRun, Uses, OrderOk;
    var o := db.orders[id];
    var c := o.coupon.value;
    if Uses(db.orders, c) != 1 {
      var acts := LateCancelLedgerIff(db, id, expected);
      assert !LedgerIfWritten(DoAll(db, acts), Cancel(id, expected), o);
    } else {
      var more := OneMoreCarrier(db, c);
      var mid := DoAll(db, more);
      assert mid.orders[id] == mid.orders[..|db.orders|][id] == o;
      var acts := LateCancelLedgerIff(mid, id, expected);
      RunConcat(db, more, acts);
      assert !LedgerIfWritten(DoAll(db, more + acts), Cancel(id, expected), o);
    }
  }
}
