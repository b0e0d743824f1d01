/** Creating orders at the same time: createOrderTransaction with its reads, its coupon lock, its
    insert, its commit and its retries as separate steps (src/modules/orders/order.repository.js:
    36-48, 174-336 and src/modules/coupons/coupon.service.js:165-187). Two keys do the work: the
    order number is unique per branch and day, and the coupon row is locked until commit. */
module CreateRace {
  import opened Data
  import OrderTx

  const MAX_RETRIES := OrderTx.MAX_RETRIES

  /** A committed order: its branch-day, its number, the request that made it. */
  datatype Row = Row(day: nat, number: nat, creator: nat, coupon: Option<nat>, cancelled: bool)

  datatype Stage =
    | Reading               // an attempt is about to begin
    | Numbered(next: nat)   // the next order number was read
    | Holding(next: nat)    // and the coupon row is locked
    | Counted(next: nat)    // and its use count is incremented
    | Inserted(next: nat)   // and the order is inserted, nothing of it committed yet
    | Done
    | Refused
    | GaveUp

  /** `begun` and `seen` record how many orders of the day were committed when the request began
      and when it last read the number. */
  datatype Creator = Creator(day: nat, coupon: Option<nat>, attempt: nat, stage: Stage, begun: nat, seen: nat)

  /** A coupon row: its committed use count, its limit, and the request that has it locked. */
  datatype CouponRow = CouponRow(used: nat, limit: Option<nat>, holder: Option<nat>)

  datatype Race = Race(start: nat, rows: seq<Row>, coupons: seq<CouponRow>, creators: map<nat, Creator>)

  datatype Event =
    | Begin(pid: nat, day: nat, coupon: Option<nat>)
    | ReadNumber(pid: nat)
    | LockCoupon(pid: nat)
    | Increment(pid: nat)
    | Insert(pid: nat)
    | Commit(pid: nat)
    | Fail(pid: nat)
    | CancelOrder(row: nat)
    | SetLimit(id: nat, limit: Option<nat>)

  function CountDay(rows: seq<Row>, day: nat): nat {
    if rows == [] then 0
    else CountDay(rows[..|rows| - 1], day) + if rows[|rows| - 1].day == day then 1 else 0
  }

  function CountLive(rows: seq<Row>, coupon: nat): nat {
    if rows == [] then 0
    else CountLive(rows[..|rows| - 1], coupon) + if Live(rows[|rows| - 1], coupon) then 1 else 0
  }

  predicate Live(row: Row, coupon: nat) { row.coupon == Some(coupon) && !row.cancelled }

  /** The highest number of the day, if it has any order. */
  function Highest(rows: seq<Row>, day: nat): Option<nat> {
    if rows == [] then None
    else
      var last, rest := rows[|rows| - 1], Highest(rows[..|rows| - 1], day);
      if last.day != day then rest
      else if rest.Some? && rest.value > last.number then rest
      else Some(last.number)
  }

  /** findNextOrderNumber */
  function NextNumber(r: Race, day: nat): nat {
    var last := Highest(r.rows, day);
    if last.Some? then last.value + 1 else r.start
  }

  predicate Taken(rows: seq<Row>, day: nat, number: nat) {
    exists i :: 0 <= i < |rows| && rows[i].day == day && rows[i].number == number
  }

  // ---- Steps ----

  predicate At(r: Race, pid: nat) { pid in r.creators }

  function Move(r: Race, pid: nat, stage: Stage): Race
    requires At(r, pid)
  {
    r.(creators := r.creators[pid := r.creators[pid].(stage := stage)])
  }

  /** The end of a transaction gives up its lock. */
  function Released(coupons: seq<CouponRow>, pid: nat): seq<CouponRow> {
    seq(|coupons|, k requires 0 <= k < |coupons| =>
      if coupons[k].holder == Some(pid) then coupons[k].(holder := None) else coupons[k])
  }

  predicate ReadyToInsert(c: Creator) {
    c.stage.Counted? || (c.stage.Numbered? && c.coupon.None?)
  }

  /** Another request has inserted the number and not committed it: the unique key makes an
      insert of the same number wait. */
  predicate Claimed(r: Race, pid: nat, day: nat, number: nat) {
    exists q :: q in r.creators && q != pid && r.creators[q].stage == Inserted(number) && r.creators[q].day == day
  }

  function InsertStep(r: Race, pid: nat): Race
    requires At(r, pid) && ReadyToInsert(r.creators[pid])
  {
    var c := r.creators[pid];
    if Taken(r.rows, c.day, c.stage.next) then
      var again := c.(attempt := c.attempt + 1, stage := if c.attempt < MAX_RETRIES - 1 then Reading else GaveUp);
      r.(creators := r.creators[pid := again], coupons := Released(r.coupons, pid))
    else if Claimed(r, pid, c.day, c.stage.next) then r
    else Move(r, pid, Inserted(c.stage.next))
  }

  function LockStep(r: Race, pid: nat): Race
    requires At(r, pid) && r.creators[pid].stage.Numbered? && r.creators[pid].coupon.Some?
  {
    var c := r.creators[pid];
    var k := c.coupon.value;
    if k >= |r.coupons| then Move(r, pid, Refused)
    else if r.coupons[k].holder.Some? then r
    else Move(r, pid, Holding(c.stage.next)).(coupons := r.coupons[k := r.coupons[k].(holder := Some(pid))])
  }

  predicate Full(row: CouponRow) {
    row.limit.Some? && row.used >= row.limit.value
  }

  function Stop(r: Race, pid: nat): Race
    requires At(r, pid)
  {
    Move(r, pid, Refused).(coupons := Released(r.coupons, pid))
  }

  function IncrementStep(r: Race, pid: nat): Race
    requires At(r, pid) && r.creators[pid].stage.Holding?
  {
    var c := r.creators[pid];
    if c.coupon.None? || c.coupon.value >= |r.coupons| || Full(r.coupons[c.coupon.value]) then Stop(r, pid)
    else Move(r, pid, Counted(c.stage.next))
  }

  /** Everything the attempt wrote becomes visible at once, and the lock is gone. */
  function CommitStep(r: Race, pid: nat): Race
    requires At(r, pid) && r.creators[pid].stage.Inserted?
  {
    var c := r.creators[pid];
    var used := if c.coupon.Some? && c.coupon.value < |r.coupons|
                then r.coupons[c.coupon.value := r.coupons[c.coupon.value].(used := r.coupons[c.coupon.value].used + 1)]
                else r.coupons;
    Move(r, pid, Done).(rows := r.rows + [Row(c.day, c.stage.next, pid, c.coupon, false)],
        coupons := Released(used, pid))
  }

  /** A cancellation waits for the lock on the coupon of its order. */
  function CancelStep(r: Race, i: nat): Race
    requires i < |r.rows| && !r.rows[i].cancelled
  {
    var rows := r.rows[i := r.rows[i].(cancelled := true)];
    var coupon := r.rows[i].coupon;
    if coupon.None? || coupon.value >= |r.coupons| then r.(rows := rows)
    else
      var row := r.coupons[coupon.value];
      if row.holder.Some? then r
      else
        var used := if row.used > 0 then row.used - 1 else 0;
        r.(rows := rows, coupons := r.coupons[coupon.value := row.(used := used)])
  }

  function Step(r: Race, e: Event): Race {
    match e
    case Begin(pid, day, coupon) =>
      if At(r, pid) then r
      else r.(creators := r.creators[pid := Creator(day, coupon, 0, Reading, CountDay(r.rows, day),
          CountDay(r.rows, day))])
    case ReadNumber(pid) =>
      if At(r, pid) && r.creators[pid].stage.Reading? then
        var c := r.creators[pid];
        r.(creators := r.creators[pid := c.(stage := Numbered(NextNumber(r, c.day)), seen := CountDay(r.rows, c.day))])
      else r
    case LockCoupon(pid) =>
      if At(r, pid) && r.creators[pid].coupon.Some? && r.creators[pid].stage.Numbered? then LockStep(r, pid) else r
    case Increment(pid) =>
      if At(r, pid) && r.creators[pid].stage.Holding? then IncrementStep(r, pid) else r
    case Insert(pid) =>
      if At(r, pid) && ReadyToInsert(r.creators[pid]) then InsertStep(r, pid) else r
    case Commit(pid) =>
      if At(r, pid) && r.creators[pid].stage.Inserted? then CommitStep(r, pid) else r
    case Fail(pid) =>
      if At(r, pid) && !r.creators[pid].stage.Done? && !r.creators[pid].stage.GaveUp? then Stop(r, pid) else r
    case CancelOrder(i) =>
      if i < |r.rows| && !r.rows[i].cancelled then CancelStep(r, i) else r
    case SetLimit(k, limit) =>
      if k < |r.coupons| && r.coupons[k].holder.None?
      then r.(coupons := r.coupons[k := r.coupons[k].(limit := limit)]) else r
  }

  // ---- The invariant ----

  /** The numbers of each day are start, start + 1, ... in commit order. */
  ghost predicate Gapless(start: nat, rows: seq<Row>) {
    forall i :: 0 <= i < |rows| ==> rows[i].number == start + CountDay(rows[..i], rows[i].day)
  }

  predicate HasLock(c: Creator) {
    c.coupon.Some? && (c.stage.Holding? || c.stage.Counted? || c.stage.Inserted?)
  }

  ghost predicate CreatorOk(r: Race, pid: nat)
    requires pid in r.creators
  {
    var c := r.creators[pid];
    var now := CountDay(r.rows, c.day);
    && (c.stage.Reading? ==> c.attempt < MAX_RETRIES && c.begun + c.attempt <= now)
    && (c.stage.Numbered? || c.stage.Holding? || c.stage.Counted? || c.stage.Inserted? ==>
          c.attempt < MAX_RETRIES && c.stage.next == r.start + c.seen && c.begun + c.attempt <= c.seen <= now)
    && (c.stage.Inserted? ==> c.seen == now)
    && (c.stage.GaveUp? ==> c.begun + MAX_RETRIES <= now)
    && (c.stage.Holding? || c.stage.Counted? ==> c.coupon.Some?)
  }

  ghost predicate CreatorsOk(r: Race) {
    forall pid :: pid in r.creators ==> CreatorOk(r, pid)
  }

  /** On no day do two requests have an order inserted and not committed. */
  ghost predicate OneClaim(creators: map<nat, Creator>) {
    forall p, q ::
      p in creators && q in creators && creators[p].stage.Inserted? && creators[q].stage.Inserted? &&
          creators[p].day == creators[q].day ==>
      p == q
  }

  /** A request that is past the lock of its coupon holds it, and there is room for one more. */
  ghost predicate LockOk(coupons: seq<CouponRow>, c: Creator, pid: nat) {
    HasLock(c) ==>
      && c.coupon.value < |coupons| && coupons[c.coupon.value].holder == Some(pid)
      && (!c.stage.Holding? ==> !Full(coupons[c.coupon.value]))
  }

  ghost predicate LocksOk(r: Race) {
    && (forall pid :: pid in r.creators ==> LockOk(r.coupons, r.creators[pid], pid))
    && (forall k :: 0 <= k < |r.coupons| && r.coupons[k].holder.Some? ==>
          var h := r.coupons[k].holder.value;
          h in r.creators && HasLock(r.creators[h]) && r.creators[h].coupon == Some(k))
  }

  /** The use count of a coupon is the number of live orders that carry it, within its limit. */
  ghost predicate CouponsOk(r: Race) {
    && (forall k :: 0 <= k < |r.coupons| ==>
          && r.coupons[k].used == CountLive(r.rows, k)
          && (r.coupons[k].limit.Some? ==> r.coupons[k].used <= r.coupons[k].limit.value))
    && (forall i :: 0 <= i < |r.rows| && r.rows[i].coupon.Some? ==> r.rows[i].coupon.value < |r.coupons|)
  }

  /** Only a request that is done has an order. */
  ghost predicate RowsOwned(r: Race) {
    forall i :: 0 <= i < |r.rows| ==> r.rows[i].creator in r.creators && r.creators[r.rows[i].creator].stage.Done?
  }

  ghost predicate RaceInv(r: Race) {
    && Gapless(r.start, r.rows)
    && CouponsOk(r) && LocksOk(r)
    && CreatorsOk(r) && OneClaim(r.creators) && RowsOwned(r)
  }

  /** A limit may be changed, but not below what is already used. */
  predicate Fair(r: Race, e: Event) {
    e.SetLimit? && e.id < |r.coupons| && e.limit.Some? ==> r.coupons[e.id].used <= e.limit.value
  }

  // ---- Counting ----

  lemma CountAppend(rows: seq<Row>, row: Row, day: nat)
    ensures CountDay(rows + [row], day) == CountDay(rows, day) + if row.day == day then 1 else 0
  {
    assert (rows + [row])[..|rows|] == rows;
  }

  lemma LiveAppend(rows: seq<Row>, row: Row, coupon: nat)
    ensures CountLive(rows + [row], coupon) == CountLive(rows, coupon) + if Live(row, coupon) then 1 else 0
  {
    assert (rows + [row])[..|rows|] == rows;
  }

  lemma {:induction false} CancelCounts(rows: seq<Row>, i: nat, day: nat, coupon: nat)
    requires i < |rows| && !rows[i].cancelled
    ensures CountDay(rows[i := rows[i].(cancelled := true)], day) == CountDay(rows, day)
    ensures CountLive(rows[i := rows[i].(cancelled := true)], coupon)
          + (if rows[i].coupon == Some(coupon) then 1 else 0)
         == CountLive(rows, coupon)
  {
    var n, row := |rows| - 1, rows[i].(cancelled := true);
    if i == n {
      assert rows[i := row][..n] == rows[..n];
    } else {
      assert rows[i := row][..n] == rows[..n][i := row];
      CancelCounts(rows[..n], i, day, coupon);
    }
  }

  lemma CancelKeepsGapless(start: nat, rows: seq<Row>, i: nat)
    requires Gapless(start, rows) && i < |rows| && !rows[i].cancelled
    ensures Gapless(start, rows[i := rows[i].(cancelled := true)])
  {
    var rows' := rows[i := rows[i].(cancelled := true)];
    forall j | 0 <= j < |rows'| ensures rows'[j].number == start + CountDay(rows'[..j], rows'[j].day) {
      if i < j {
        assert rows'[..j] == rows[..j][i := rows[..j][i].(cancelled := true)];
        CancelCounts(rows[..j], i, rows[j].day, 0);
      } else {
        assert rows'[..j] == rows[..j];
      }
    }
  }

  /** Without gaps, the next number is the start plus how many orders the day has. */
  lemma {:induction false} NextAfterAll(start: nat, rows: seq<Row>, day: nat)
    requires Gapless(start, rows)
    ensures Highest(rows, day) == if CountDay(rows, day) == 0 then None else Some(start + CountDay(rows, day) - 1)
  {
    if rows != [] {
      var init := rows[..|rows| - 1];
      forall i | 0 <= i < |init| ensures init[i].number == start + CountDay(init[..i], init[i].day) {
        assert init[..i] == rows[..i];
      }
      NextAfterAll(start, init, day);
    }
  }

  lemma {:induction false} NumbersBelow(start: nat, rows: seq<Row>, i: nat)
    requires Gapless(start, rows) && i < |rows|
    ensures rows[i].number < start + CountDay(rows, rows[i].day)
  {
    var n := |rows| - 1;
    if i < n {
      GaplessPrefix(start, rows, n);
      NumbersBelow(start, rows[..n], i);
    }
  }

  lemma GaplessPrefix(start: nat, rows: seq<Row>, n: nat)
    requires Gapless(start, rows) && n <= |rows|
    ensures Gapless(start, rows[..n])
  {
    forall i | 0 <= i < n ensures rows[..n][i].number == start + CountDay(rows[..n][..i], rows[..n][i].day) {
      assert rows[..n][..i] == rows[..i];
    }
  }

  lemma TakenByLast(rows: seq<Row>, n: nat, day: nat, number: nat)
    requires |rows| == n + 1
    ensures Taken(rows, day, number)
       <==> Taken(rows[..n], day, number) || (rows[n].day == day && rows[n].number == number)
  {
    if Taken(rows[..n], day, number) {
      var i :| 0 <= i < n && rows[..n][i].day == day && rows[..n][i].number == number;
      assert rows[i].day == day && rows[i].number == number;
    }
    if i :| 0 <= i < n && rows[i].day == day && rows[i].number == number {
      assert rows[..n][i] == rows[i];
    }
  }

  /** The numbers in use on a day are exactly the first ones from `start`. */
  lemma {:induction false} NumbersExactly(start: nat, rows: seq<Row>, day: nat, number: nat)
    requires Gapless(start, rows)
    ensures Taken(rows, day, number) <==> start <= number < start + CountDay(rows, day)
  {
    if rows != [] {
      var n := |rows| - 1;
      GaplessPrefix(start, rows, n);
      assert rows[n].number == start + CountDay(rows[..n], rows[n].day);
      hide Gapless, Taken;
      NumbersExactly(start, rows[..n], day, number);
      TakenByLast(rows, n, day, number);
    } else {
      assert !Taken(rows, day, number);
    }
  }

  // ---- Results ----

  /** What an insert comes to: it collides exactly when an order of the day was committed since
      the request read its number; otherwise it goes in, unless another request has the same
      number inserted and not yet committed, for which it waits. */
  lemma InsertSucceedsIff(r: Race, pid: nat)
    requires RaceInv(r) && pid in r.creators && ReadyToInsert(r.creators[pid])
    ensures var c, r' := r.creators[pid], Step(r, Insert(pid));
            && (r'.creators[pid].stage.Reading? || r'.creators[pid].stage.GaveUp? <==> CountDay(r.rows, c.day) > c.seen)
            && (r'.creators[pid].stage.Inserted?
                <==> CountDay(r.rows, c.day) == c.seen && !Claimed(r, pid, c.day, c.stage.next))
            && (r' == r <==> CountDay(r.rows, c.day) == c.seen && Claimed(r, pid, c.day, c.stage.next))
  {
    var c := r.creators[pid];
    assert CreatorOk(r, pid);
    NumbersExactly(r.start, r.rows, c.day, c.stage.next);
  }

  /** An order that is inserted has the number its day is waiting for, until it is committed. */
  lemma CommitFits(r: Race, pid: nat)
    requires RaceInv(r) && pid in r.creators && r.creators[pid].stage.Inserted?
    ensures var c, r' := r.creators[pid], Step(r, Commit(pid));
            && c.stage.next == r.start + CountDay(r.rows, c.day) && !Taken(r.rows, c.day, c.stage.next)
            && r'.creators[pid].stage.Done? && |r'.rows| == |r.rows| + 1
            && (c.coupon.Some? ==>
                  && c.coupon.value < |r.coupons|
                  && (var row := r.coupons[c.coupon.value];
                      r'.coupons[c.coupon.value] == row.(used := row.used + 1, holder := None)))
  {
    var c := r.creators[pid];
    assert CreatorOk(r, pid) && LockOk(r.coupons, c, pid);
    NumbersExactly(r.start, r.rows, c.day, c.stage.next);
  }

  /** An attempt that collides or fails leaves orders, use counts and limits as they were and
      frees the lock. */
  lemma CollisionChangesNothing(r: Race, pid: nat, e: Event)
    requires RaceInv(r) && pid in r.creators && ((e == Insert(pid) && ReadyToInsert(r.creators[pid])) || e == Fail(pid))
    requires !Step(r, e).creators[pid].stage.Inserted? && Step(r, e) != r
    ensures Step(r, e).rows == r.rows && |Step(r, e).coupons| == |r.coupons|
    ensures forall k :: 0 <= k < |r.coupons| ==>
              && Step(r, e).coupons[k].used == r.coupons[k].used && Step(r, e).coupons[k].limit == r.coupons[k].limit
              && Step(r, e).coupons[k].holder != Some(pid)
  {
  }

  /** A collision starts the request over, except on its third attempt, when it gives up. */
  lemma ThreeAttempts(r: Race, pid: nat)
    requires RaceInv(r) && pid in r.creators && ReadyToInsert(r.creators[pid])
    requires CountDay(r.rows, r.creators[pid].day) > r.creators[pid].seen
    ensures var c, c' := r.creators[pid], Step(r, Insert(pid)).creators[pid];
            && c'.attempt == c.attempt + 1 && c.attempt <= 2
            && (if c.attempt < 2 then c'.stage.Reading? else c'.stage.GaveUp?)
  {
    InsertSucceedsIff(r, pid);
    assert CreatorOk(r, pid);
  }

  /** A request that holds its coupon is refused exactly when the coupon is used up, and otherwise
      goes on; it gets the lock exactly when nobody has it. */
  lemma CouponStepsIff(r: Race, pid: nat)
    requires RaceInv(r) && pid in r.creators && r.creators[pid].coupon.Some?
    ensures r.creators[pid].stage.Holding? ==>
              var row := r.coupons[r.creators[pid].coupon.value];
              var c' := Step(r, Increment(pid)).creators[pid];
              if row.limit.Some? && row.used == row.limit.value then c'.stage.Refused? else c'.stage.Counted?
    ensures r.creators[pid].stage.Numbered? && r.creators[pid].coupon.value < |r.coupons| ==>
              (Step(r, LockCoupon(pid)).creators[pid].stage.Holding?
              <==> r.coupons[r.creators[pid].coupon.value].holder.None?)
  {
    hide CountDay, CountLive, Gapless, Taken;
    assert LockOk(r.coupons, r.creators[pid], pid);
  }

  /** A request that lost all its attempts saw at least three orders of its day committed since
      it began, none of them its own. */
  lemma GivingUpMeansThreeOthers(r: Race, pid: nat)
    requires RaceInv(r) && pid in r.creators && r.creators[pid].stage.GaveUp?
    ensures CountDay(r.rows, r.creators[pid].day) >= r.creators[pid].begun + 3
    ensures forall i :: 0 <= i < |r.rows| ==> r.rows[i].creator != pid
  {
    assert CreatorOk(r, pid);
  }

  // ---- The invariant is kept ----

  /** The other requests do not notice a step that commits no order of their day. */
  lemma OthersStay(r: Race, r': Race, pid: nat)
    requires CreatorsOk(r) && r'.start == r.start && pid in r'.creators
    requires forall q :: q in r'.creators && q != pid ==> q in r.creators && r'.creators[q] == r.creators[q]
    requires forall day :: CountDay(r.rows, day) <= CountDay(r'.rows, day)
    requires forall q :: q in r.creators && q != pid && r.creators[q].stage.Inserted? ==>
               CountDay(r'.rows, r.creators[q].day) == CountDay(r.rows, r.creators[q].day)
    requires CreatorOk(r', pid)
    ensures CreatorsOk(r')
  {
    forall q | q in r'.creators ensures CreatorOk(r', q) {
      assert q != pid ==> CreatorOk(r, q);
    }
  }

  lemma CommitCounts(rows: seq<Row>, row: Row)
    ensures forall day :: CountDay(rows, day) <= CountDay(rows + [row], day)
    ensures forall day :: day != row.day ==> CountDay(rows, day) == CountDay(rows + [row], day)
  {
    forall day ensures CountDay(rows, day) <= CountDay(rows + [row], day)
      && (day != row.day ==> CountDay(rows, day) == CountDay(rows + [row], day)) {
      CountAppend(rows, row, day);
    }
  }

  lemma CommitKeepsGapless(start: nat, rows: seq<Row>, row: Row)
    requires Gapless(start, rows) && row.number == start + CountDay(rows, row.day)
    ensures Gapless(start, rows + [row])
  {
    forall i | 0 <= i <= |rows| ensures (rows + [row])[i].number
        == start + CountDay((rows + [row])[..i], (rows + [row])[i].day) {
      assert (rows + [row])[..i] == rows[..i];
      assert rows[..|rows|] == rows;
    }
  }

  /** Giving up a lock keeps every other one, and is all that the former holder needs. */
  lemma ReleaseKeepsLocks(r: Race, r': Race, pid: nat)
    requires LocksOk(r) && pid in r'.creators && !HasLock(r'.creators[pid])
    requires r'.coupons == Released(r.coupons, pid)
    requires forall q :: q in r'.creators && q != pid ==> q in r.creators && r'.creators[q] == r.creators[q]
    requires forall q :: q in r.creators ==> q in r'.creators
    ensures LocksOk(r')
  {
    forall k | 0 <= k < |r'.coupons| && r'.coupons[k].holder.Some?
      ensures var h := r'.coupons[k].holder.value;
              h in r'.creators && HasLock(r'.creators[h]) && r'.creators[h].coupon == Some(k)
    {
      assert r.coupons[k].holder == r'.coupons[k].holder;
    }
    forall q | q in r'.creators ensures LockOk(r'.coupons, r'.creators[q], q) {
      assert q != pid ==> LockOk(r.coupons, r.creators[q], q);
    }
  }

  lemma ReleaseKeepsCoupons(r: Race, r': Race, pid: nat)
    requires CouponsOk(r) && r'.rows == r.rows && r'.coupons == Released(r.coupons, pid)
    ensures CouponsOk(r')
  {
  }

  lemma InsertKeepsInv(r: Race, pid: nat)
    requires RaceInv(r) && pid in r.creators && ReadyToInsert(r.creators[pid])
    ensures RaceInv(InsertStep(r, pid))
  {
    hide CountDay, CountLive, Gapless, Released, CouponsOk, LocksOk, RowsOwned;
    var c, r' := r.creators[pid], InsertStep(r, pid);
    assert CreatorOk(r, pid);
    NumbersExactly(r.start, r.rows, c.day, c.stage.next);
    InsertKeepsLocks(r, pid);
    if Taken(r.rows, c.day, c.stage.next) {
      OthersStay(r, r', pid);
    } else if !Claimed(r, pid, c.day, c.stage.next) {
      OthersStay(r, r', pid);
      ClaimIsOne(r, pid);
    }
  }

  lemma InsertKeepsLocks(r: Race, pid: nat)
    requires LocksOk(r) && CouponsOk(r) && RowsOwned(r) && pid in r.creators && ReadyToInsert(r.creators[pid])
    ensures LocksOk(InsertStep(r, pid)) && CouponsOk(InsertStep(r, pid)) && RowsOwned(InsertStep(r, pid))
  {
    hide CountLive, Released, Taken, Claimed;
    var c, r' := r.creators[pid], InsertStep(r, pid);
    assert LockOk(r.coupons, c, pid);
    if Taken(r.rows, c.day, c.stage.next) {
      ReleaseKeepsLocks(r, r', pid);
      ReleaseKeepsCoupons(r, r', pid);
    } else {
      forall q | q in r'.creators ensures LockOk(r'.coupons, r'.creators[q], q) {
        assert LockOk(r.coupons, r.creators[q], q);
      }
    }
  }

  /** A new claim meets no other: every claim of a day is for the number the day waits for. */
  lemma ClaimIsOne(r: Race, pid: nat)
    requires CreatorsOk(r) && OneClaim(r.creators) && pid in r.creators && ReadyToInsert(r.creators[pid])
    requires var c := r.creators[pid];
             !Claimed(r, pid, c.day, c.stage.next) && c.stage.next == r.start + CountDay(r.rows, c.day)
    ensures OneClaim(r.creators[pid := r.creators[pid].(stage := Inserted(r.creators[pid].stage.next))])
  {
    var c := r.creators[pid];
    forall q | q in r.creators && q != pid && r.creators[q].stage.Inserted? ensures r.creators[q].day != c.day {
      assert CreatorOk(r, q);
    }
  }

  lemma CommitKeepsInv(r: Race, pid: nat)
    requires RaceInv(r) && pid in r.creators && r.creators[pid].stage.Inserted?
    ensures RaceInv(CommitStep(r, pid))
  {
    hide CountDay, CountLive, Gapless, Released, CouponsOk, LocksOk;
    var c, r' := r.creators[pid], CommitStep(r, pid);
    assert CreatorOk(r, pid);
    var row := Row(c.day, c.stage.next, pid, c.coupon, false);
    CountAppend(r.rows, row, c.day);
    CommitCounts(r.rows, row);
    CommitKeepsGapless(r.start, r.rows, row);
    OthersStay(r, r', pid);
    CommitKeepsCoupons(r, pid);
  }

  lemma CommitKeepsCoupons(r: Race, pid: nat)
    requires CouponsOk(r) && LocksOk(r) && pid in r.creators && r.creators[pid].stage.Inserted?
    ensures CouponsOk(CommitStep(r, pid)) && LocksOk(CommitStep(r, pid))
  {
    hide CountLive;
    var c, r' := r.creators[pid], CommitStep(r, pid);
    assert LockOk(r.coupons, c, pid);
    forall k | 0 <= k < |r.coupons| ensures r'.coupons[k].used == CountLive(r'.rows, k) {
      LiveAppend(r.rows, Row(c.day, c.stage.next, pid, c.coupon, false), k);
    }
    forall q | q in r'.creators ensures LockOk(r'.coupons, r'.creators[q], q) {
      assert q != pid ==> LockOk(r.coupons, r.creators[q], q);
    }
  }

  lemma CancelKeepsInv(r: Race, i: nat)
    requires RaceInv(r) && i < |r.rows| && !r.rows[i].cancelled
    ensures RaceInv(CancelStep(r, i))
  {
    hide Gapless, CountDay, CountLive, CouponsOk, LocksOk;
    var r' := CancelStep(r, i);
    if r' != r {
      CancelKeepsGapless(r.start, r.rows, i);
      forall d ensures CountDay(r'.rows, d) == CountDay(r.rows, d) {
        CancelCounts(r.rows, i, d, 0);
      }
      forall q | q in r'.creators ensures CreatorOk(r', q) {
        assert CreatorOk(r, q);
      }
    }
    CancelKeepsCoupons(r, i);
  }

  lemma CancelKeepsCoupons(r: Race, i: nat)
    requires CouponsOk(r) && LocksOk(r) && i < |r.rows| && !r.rows[i].cancelled
    ensures CouponsOk(CancelStep(r, i)) && LocksOk(CancelStep(r, i))
  {
    hide CountLive;
    var r' := CancelStep(r, i);
    var rows := r.rows[i := r.rows[i].(cancelled := true)];
    forall k: nat ensures CountLive(rows, k) + (if r.rows[i].coupon == Some(k) then 1 else 0)
                  == CountLive(r.rows, k) {
      CancelCounts(r.rows, i, 0, k);
    }
    forall q | q in r'.creators ensures LockOk(r'.coupons, r'.creators[q], q) {
      assert LockOk(r.coupons, r.creators[q], q);
    }
  }

  /** A request without a lock may change as long as it does not need one. */
  lemma UnlockedMoves(r: Race, r': Race, pid: nat)
    requires pid in r.creators && pid in r'.creators && !HasLock(r.creators[pid]) && !r.creators[pid].stage.Done?
    requires r'.rows == r.rows && r'.coupons == r.coupons
    requires r'.creators == r.creators[pid := r'.creators[pid]] && !HasLock(r'.creators[pid])
    ensures LocksOk(r) ==> LocksOk(r')
    ensures RowsOwned(r) ==> RowsOwned(r')
    ensures CouponsOk(r) ==> CouponsOk(r')
  {
    hide CountLive;
    if LocksOk(r) {
      forall q | q in r'.creators ensures LockOk(r'.coupons, r'.creators[q], q) {
        assert q != pid ==> LockOk(r.coupons, r.creators[q], q);
      }
    }
  }

  lemma ReadKeepsInv(r: Race, pid: nat)
    requires RaceInv(r)
    ensures RaceInv(Step(r, ReadNumber(pid)))
  {
    hide CountDay, CountLive, Gapless, CouponsOk, LocksOk, RowsOwned;
    if pid in r.creators && r.creators[pid].stage.Reading? {
      assert CreatorOk(r, pid);
      NextAfterAll(r.start, r.rows, r.creators[pid].day);
      OthersStay(r, Step(r, ReadNumber(pid)), pid);
      UnlockedMoves(r, Step(r, ReadNumber(pid)), pid);
    }
  }

  lemma LockKeepsInv(r: Race, pid: nat)
    requires RaceInv(r) && pid in r.creators && r.creators[pid].stage.Numbered? && r.creators[pid].coupon.Some?
    ensures RaceInv(LockStep(r, pid))
  {
    hide CountDay, CountLive, Gapless, CouponsOk, LocksOk, RowsOwned;
    assert CreatorOk(r, pid);
    OthersStay(r, LockStep(r, pid), pid);
    LockKeepsLocks(r, pid);
  }

  lemma LockKeepsLocks(r: Race, pid: nat)
    requires pid in r.creators && r.creators[pid].stage.Numbered? && r.creators[pid].coupon.Some?
    ensures LocksOk(r) ==> LocksOk(LockStep(r, pid))
    ensures RowsOwned(r) ==> RowsOwned(LockStep(r, pid))
    ensures CouponsOk(r) ==> CouponsOk(LockStep(r, pid))
  {
    hide CountLive;
    var r' := LockStep(r, pid);
    if LocksOk(r) {
      forall q | q in r'.creators ensures LockOk(r'.coupons, r'.creators[q], q) {
        assert LockOk(r.coupons, r.creators[q], q);
      }
    }
  }

  lemma StopKeepsInv(r: Race, pid: nat)
    requires RaceInv(r) && pid in r.creators && !r.creators[pid].stage.Done?
    ensures RaceInv(Stop(r, pid))
  {
    hide CountDay, CountLive, Gapless, Released;
    assert CreatorOk(r, pid);
    ReleaseKeepsLocks(r, Stop(r, pid), pid);
    ReleaseKeepsCoupons(r, Stop(r, pid), pid);
    OthersStay(r, Stop(r, pid), pid);
  }

  lemma IncrementKeepsInv(r: Race, pid: nat)
    requires RaceInv(r) && pid in r.creators && r.creators[pid].stage.Holding?
    ensures RaceInv(IncrementStep(r, pid))
  {
    hide CountDay, CountLive, Gapless, Released;
    assert CreatorOk(r, pid) && LockOk(r.coupons, r.creators[pid], pid);
    if Full(r.coupons[r.creators[pid].coupon.value]) {
      StopKeepsInv(r, pid);
    } else {
      OthersStay(r, IncrementStep(r, pid), pid);
    }
  }

  lemma LimitKeepsInv(r: Race, k: nat, limit: Option<nat>)
    requires RaceInv(r) && Fair(r, SetLimit(k, limit))
    ensures RaceInv(Step(r, SetLimit(k, limit)))
  {
    hide CountDay, CountLive, Gapless;
    var r' := Step(r, SetLimit(k, limit));
    forall q | q in r.creators ensures CreatorOk(r', q) && LockOk(r'.coupons, r'.creators[q], q) {
      assert CreatorOk(r, q) && LockOk(r.coupons, r.creators[q], q);
    }
  }

  lemma BeginKeepsInv(r: Race, e: Event)
    requires RaceInv(r) && e.Begin? && e.pid !in r.creators
    ensures RaceInv(Step(r, e))
  {
    hide CountDay, CountLive, Gapless;
    OthersStay(r, Step(r, e), e.pid);
    forall q | q in r.creators ensures LockOk(r.coupons, r.creators[q], q) {
    }
  }

  lemma StepKeepsInv(r: Race, e: Event)
    requires RaceInv(r) && Fair(r, e)
    ensures RaceInv(Step(r, e))
  {
    hide RaceInv, LockStep, IncrementStep, InsertStep, CommitStep, Stop, CancelStep;
    match e
    case Begin(pid, _, _) => if pid !in r.creators { BeginKeepsInv(r, e); }
    case ReadNumber(pid) => ReadKeepsInv(r, pid);
    case LockCoupon(pid) =>
      if pid in r.creators && r.creators[pid].coupon.Some? && r.creators[pid].stage.Numbered? { LockKeepsInv(r, pid); }
    case Increment(pid) => if pid in r.creators && r.creators[pid].stage.Holding? { IncrementKeepsInv(r, pid); }
    case Insert(pid) => if pid in r.creators && ReadyToInsert(r.creators[pid]) { InsertKeepsInv(r, pid); }
    case Commit(pid) => if pid in r.creators && r.creators[pid].stage.Inserted? { CommitKeepsInv(r, pid); }
    case Fail(pid) => if pid in r.creators && !r.creators[pid].stage.Done? { StopKeepsInv(r, pid); }
    case CancelOrder(i) => if i < |r.rows| && !r.rows[i].cancelled { CancelKeepsInv(r, i); }
    case SetLimit(k, limit) => LimitKeepsInv(r, k, limit);
  }

  function Run(r: Race, es: seq<Event>): Race
    decreases |es|
  {
    if es == [] then r else Run(Step(r, es[0]), es[1..])
  }

  ghost predicate FairRun(r: Race, es: seq<Event>)
    decreases |es|
  {
    es == [] || (Fair(r, es[0]) && FairRun(Step(r, es[0]), es[1..]))
  }

  /** Whatever the interleaving, each day is numbered without gaps, the use count of each coupon is
      the number of live orders carrying it, and it never exceeds the limit. */
  lemma {:induction false} RunKeepsInv(r: Race, es: seq<Event>)
    requires RaceInv(r) && FairRun(r, es)
    ensures RaceInv(Run(r, es))
    decreases |es|
  {
    hide RaceInv, Step, Fair;
    if es != [] {
      StepKeepsInv(r, es[0]);
      RunKeepsInv(Step(r, es[0]), es[1..]);
    }
  }

  function NewDay(start: nat, limits: seq<Option<nat>>): Race {
    Race(start, [], seq(|limits|, k requires 0 <= k < |limits| => CouponRow(0, limits[k], None)), map[])
  }

  /** From no orders at all: the numbers of a day are exactly start, start + 1, ..., one for each
      committed order, and every coupon is used as often as live orders carry it. */
  lemma NumberedFromStart(start: nat, limits: seq<Option<nat>>, es: seq<Event>, day: nat, number: nat)
    requires FairRun(NewDay(start, limits), es)
    ensures var r := Run(NewDay(start, limits), es);
            && RaceInv(r) && r.start == start
            && (Taken(r.rows, day, number) <==> start <= number < start + CountDay(r.rows, day))
  {
    var r0 := NewDay(start, limits);
    assert RaceInv(r0);
    RunKeepsInv(r0, es);
    StartStays(r0, es);
    NumbersExactly(start, Run(r0, es).rows, day, number);
  }

  lemma {:induction false} StartStays(r: Race, es: seq<Event>)
    ensures Run(r, es).start == r.start
    decreases |es|
  {
    if es != [] {
      StartStays(Step(r, es[0]), es[1..]);
    }
  }
}
