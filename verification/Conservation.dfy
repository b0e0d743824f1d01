/** A confirmed round reaches the kitchen exactly once: its items are the lines of one real
    order, and every line a session produced belongs to one confirmed round. */
module Conservation {
  import opened Data
  import opened SessionTx
  import opened SessionShape

  datatype Entry = Entry(product: nat, quantity: nat)

  function LineEntries(lines: seq<Line>): seq<Entry> {
    seq(|lines|, i requires 0 <= i < |lines| => Entry(lines[i].product, lines[i].quantity))
  }

  function ItemEntries(items: seq<CartItem>): seq<Entry> {
    seq(|items|, i requires 0 <= i < |items| => Entry(items[i].product, items[i].quantity))
  }

  function LinesOfRound(lines: seq<Line>, number: nat): seq<Line> {
    if lines == [] then []
    else
      var last := lines[|lines| - 1];
      LinesOfRound(lines[..|lines| - 1], number) + if last.round == number then [last] else []
  }

  /** Round number `n` is confirmed on order `o`. */
  predicate ConfirmedOn(rounds: seq<Round>, n: nat, o: nat) {
    1 <= n <= |rounds| && rounds[n - 1].status.RoundConfirmed? && rounds[n - 1].order == Some(o)
  }

  /** Order `o` holds the items of round `k`, product by product, and nothing in it comes from
      anywhere but a confirmed round of the same session. */
  ghost predicate Delivers(orders: seq<Order>, s: Session, k: nat)
    requires k < |s.rounds|
  {
    var r := s.rounds[k];
    && r.order.Some? && r.order.value < |orders|
    && LineEntries(LinesOfRound(orders[r.order.value].lines, r.number)) == ItemEntries(Linked(s.items, Some(r.id)))
    && forall j :: 0 <= j < |orders[r.order.value].lines| ==>
         ConfirmedOn(s.rounds, orders[r.order.value].lines[j].round, r.order.value)
  }

  ghost predicate Conserves(orders: seq<Order>, s: Session) {
    forall k :: 0 <= k < |s.rounds| && s.rounds[k].status.RoundConfirmed? ==> Delivers(orders, s, k)
  }

  /** The session produced order `o`. */
  predicate Produced(s: Session, o: nat) {
    exists k :: 0 <= k < |s.rounds| && s.rounds[k].status.RoundConfirmed? && s.rounds[k].order == Some(o)
  }

  ghost predicate TargetOk(s: Session, target: Option<nat>) {
    target.Some? ==> Produced(s, target.value)
  }

  /** The session's current order is one it produced. */
  lemma CurrentIsProduced(s: Session)
    requires Shape(s)
    ensures TargetOk(s, s.confirmedOrder)
  {
    var n := ConfirmedCount(s.rounds);
    if n > 0 {
      assert s.rounds[n - 1].status.RoundConfirmed?;
    }
  }

  // ---- Lines and rounds ----

  lemma {:induction false} LinesOfRoundConcat(a: seq<Line>, b: seq<Line>, n: nat)
    ensures LinesOfRound(a + b, n) == LinesOfRound(a, n) + LinesOfRound(b, n)
  {
    if b == [] {
      assert a + b == a;
    } else {
      assert (a + b)[..|a + b| - 1] == a + b[..|b| - 1];
      LinesOfRoundConcat(a, b[..|b| - 1], n);
    }
  }

  lemma {:induction false} LinesOfOneRound(lines: seq<Line>, n: nat, m: nat)
    requires forall j :: 0 <= j < |lines| ==> lines[j].round == n
    ensures LinesOfRound(lines, m) == if m == n then lines else []
  {
    if lines != [] {
      LinesOfOneRound(lines[..|lines| - 1], n, m);
    }
  }

  lemma {:induction false} LinesOfNoRound(lines: seq<Line>, n: nat)
    requires forall j :: 0 <= j < |lines| ==> lines[j].round != n
    ensures LinesOfRound(lines, n) == []
  {
    if lines != [] {
      LinesOfNoRound(lines[..|lines| - 1], n);
    }
  }

  /** The priced lines of a round are its items, one for one, at the menu's prices, all marked
      with its number. */
  lemma {:induction false} RoundLinesMatch(items: seq<CartItem>, menu: Menu, number: nat)
    requires RoundLines(items, menu, number).Ok?
    ensures var lines := RoundLines(items, menu, number).value;
            && LineEntries(lines) == ItemEntries(items)
            && (forall j :: 0 <= j < |lines| ==> lines[j].round == number)
            && (forall j :: 0 <= j < |lines| ==>
                  lines[j].product in menu && lines[j].unitPrice == menu[lines[j].product])
            && (forall j :: 0 <= j < |lines| ==> lines[j].subtotal == lines[j].unitPrice * lines[j].quantity)
  {
    if items != [] {
      var init := items[..|items| - 1];
      RoundLinesMatch(init, menu, number);
      var before := RoundLines(init, menu, number).value;
      assert LineEntries(RoundLines(items, menu, number).value)[..|before|] == LineEntries(before);
      assert ItemEntries(items)[..|init|] == ItemEntries(init);
      assert |LineEntries(before)| == |ItemEntries(init)|;
    }
  }

  /** A round can be priced exactly when every product in it is on the menu. */
  lemma {:induction false} PricedIff(items: seq<CartItem>, menu: Menu, number: nat)
    ensures RoundLines(items, menu, number).Ok? <==> forall i :: 0 <= i < |items| ==> items[i].product in menu
    ensures RoundLines(items, menu, number).Err? ==> RoundLines(items, menu, number).error == NotFound
  {
    if items != [] {
      PricedIff(items[..|items| - 1], menu, number);
    }
  }

  // ---- What does not disturb conservation ----

  lemma ConservesFrame(orders: seq<Order>, orders': seq<Order>, s: Session)
    requires Conserves(orders, s) && |orders| <= |orders'|
    requires forall o :: 0 <= o < |orders| && Produced(s, o) ==> orders'[o].lines == orders[o].lines
    ensures Conserves(orders', s)
  {
    forall k | 0 <= k < |s.rounds| && s.rounds[k].status.RoundConfirmed? ensures Delivers(orders', s, k) {
      assert Delivers(orders, s, k);
      assert Produced(s, s.rounds[k].order.value);
    }
  }

  lemma ConservesLater(orders: seq<Order>, s: Session, s': Session)
    requires Conserves(orders, s) && SessionEvolves(s, s') && ConfirmsNothing(s, s')
    ensures Conserves(orders, s')
    ensures forall o: nat :: Produced(s', o) <==> Produced(s, o)
  {
    forall k | 0 <= k < |s'.rounds| && s'.rounds[k].status.RoundConfirmed? ensures Delivers(orders, s', k) {
      assert Delivers(orders, s, k);
    }
    forall o: nat ensures Produced(s', o) <==> Produced(s, o) {
      if Produced(s, o) {
        var k :| 0 <= k < |s.rounds| && s.rounds[k].status.RoundConfirmed? && s.rounds[k].order == Some(o);
        assert s'.rounds[k] == s.rounds[k];
      }
    }
  }

  lemma TargetStays(s: Session, s': Session, target: Option<nat>)
    requires TargetOk(s, target) && SessionEvolves(s, s')
    ensures TargetOk(s', target)
  {
    if target.Some? {
      var k :| 0 <= k < |s.rounds| && s.rounds[k].status.RoundConfirmed? && s.rounds[k].order == Some(target.value);
      assert s'.rounds[k] == s.rounds[k];
    }
  }

  // ---- Confirming a round ----

  /** The order that takes a round: its lines grow by exactly the round. */
  ghost predicate Takes(orders: seq<Order>, orders': seq<Order>, o: nat, lines: seq<Line>) {
    && |orders| <= |orders'| && o < |orders'|
    && (o < |orders| ==> orders'[o].lines == orders[o].lines + lines)
    && (o >= |orders| ==> orders'[o].lines == lines)
    && forall i :: 0 <= i < |orders| && i != o ==> orders'[i].lines == orders[i].lines
  }

  lemma LaterConfirmedOn(s: Session, o: nat, n: nat, p: nat)
    requires HasPending(s.rounds) && ConfirmedOn(s.rounds, n, p)
    ensures n < |s.rounds| && ConfirmedOn(MarkConfirmed(s, |s.rounds| - 1, o).rounds, n, p)
  {
  }

  /** On the order that takes the round, no earlier line carries the round's number. */
  lemma {:induction false} RoundIsNew(s: Session, lines: seq<Line>, o: nat)
    requires HasPending(s.rounds)
    requires forall j :: 0 <= j < |lines| ==> ConfirmedOn(s.rounds, lines[j].round, o)
    ensures LinesOfRound(lines, |s.rounds|) == []
  {
    LinesOfNoRound(lines, |s.rounds|);
  }

  /** The lines of an earlier round are the same before and after. */
  lemma OldRoundLines(orders: seq<Order>, orders': seq<Order>, o: nat, lines: seq<Line>, p: nat, n: nat, number: nat)
    requires Takes(orders, orders', o, lines) && p < |orders| && number != n
    requires forall j :: 0 <= j < |lines| ==> lines[j].round == n
    ensures LinesOfRound(orders'[p].lines, number) == LinesOfRound(orders[p].lines, number)
  {
    if p == o {
      LinesOfRoundConcat(orders[o].lines, lines, number);
      LinesOfOneRound(lines, n, number);
    }
  }

  lemma OldRoundsDelivered(orders: seq<Order>, orders': seq<Order>, s: Session, o: nat, lines: seq<Line>, k: nat)
    requires RoundsOk(s.rounds, s.nextRound) && HasPending(s.rounds) && k + 1 < |s.rounds|
    requires Delivers(orders, s, k) && Takes(orders, orders', o, lines)
    requires forall j :: 0 <= j < |lines| ==> lines[j].round == |s.rounds|
    ensures Delivers(orders', MarkConfirmed(s, |s.rounds| - 1, o), k)
  {
    var s' := MarkConfirmed(s, |s.rounds| - 1, o);
    assert s'.rounds[k] == s.rounds[k];
    var p := s.rounds[k].order.value;
    OldRoundLines(orders, orders', o, lines, p, |s.rounds|, k + 1);
    forall j | 0 <= j < |orders'[p].lines| ensures ConfirmedOn(s'.rounds, orders'[p].lines[j].round, p) {
      if j < |orders[p].lines| {
        assert orders'[p].lines[j] == orders[p].lines[j];
        LaterConfirmedOn(s, o, orders[p].lines[j].round, p);
      }
    }
  }

  /** The order that takes a round holds, under the round's number, exactly its lines. */
  lemma NewRoundLines(orders: seq<Order>, orders': seq<Order>, s: Session, o: nat, lines: seq<Line>)
    requires HasPending(s.rounds) && Takes(orders, orders', o, lines)
    requires o < |orders| ==> forall j :: 0 <= j < |orders[o].lines| ==>
        ConfirmedOn(s.rounds, orders[o].lines[j].round, o)
    requires forall j :: 0 <= j < |lines| ==> lines[j].round == |s.rounds|
    ensures LinesOfRound(orders'[o].lines, |s.rounds|) == lines
  {
    var n := |s.rounds|;
    LinesOfOneRound(lines, n, n);
    if o < |orders| {
      RoundIsNew(s, orders[o].lines, o);
      LinesOfRoundConcat(orders[o].lines, lines, n);
    }
  }

  lemma NewRoundDelivered(orders: seq<Order>, orders': seq<Order>, s: Session, o: nat, lines: seq<Line>)
    requires RoundsOk(s.rounds, s.nextRound) && HasPending(s.rounds)
    requires o < |orders| ==> forall j :: 0 <= j < |orders[o].lines| ==>
        ConfirmedOn(s.rounds, orders[o].lines[j].round, o)
    requires Takes(orders, orders', o, lines)
    requires forall j :: 0 <= j < |lines| ==> lines[j].round == |s.rounds|
    requires LineEntries(lines) == ItemEntries(Linked(s.items, Some(s.rounds[|s.rounds| - 1].id)))
    ensures Delivers(orders', MarkConfirmed(s, |s.rounds| - 1, o), |s.rounds| - 1)
  {
    NewRoundLines(orders, orders', s, o, lines);
    var s' := MarkConfirmed(s, |s.rounds| - 1, o);
    forall j | 0 <= j < |orders'[o].lines| ensures ConfirmedOn(s'.rounds, orders'[o].lines[j].round, o) {
      if o < |orders| && j < |orders[o].lines| {
        LaterConfirmedOn(s, o, orders[o].lines[j].round, o);
      }
    }
  }

  lemma ConfirmConserves(orders: seq<Order>, orders': seq<Order>, s: Session, o: nat, lines: seq<Line>)
    requires Shape(s) && HasPending(s.rounds) && Conserves(orders, s)
    requires o < |orders| ==> Produced(s, o)
    requires Takes(orders, orders', o, lines)
    requires forall j :: 0 <= j < |lines| ==> lines[j].round == |s.rounds|
    requires LineEntries(lines) == ItemEntries(Linked(s.items, Some(s.rounds[|s.rounds| - 1].id)))
    ensures Conserves(orders', MarkConfirmed(s, |s.rounds| - 1, o))
  {
    if o < |orders| {
      var k :| 0 <= k < |s.rounds| && s.rounds[k].status.RoundConfirmed? && s.rounds[k].order == Some(o);
      assert Delivers(orders, s, k);
    }
    NewRoundDelivered(orders, orders', s, o, lines);
    var s' := MarkConfirmed(s, |s.rounds| - 1, o);
    forall k | 0 <= k < |s.rounds| - 1 ensures Delivers(orders', s', k) {
      assert Delivers(orders, s, k);
      OldRoundsDelivered(orders, orders', s, o, lines, k);
    }
  }

  lemma ProducedAfterConfirm(s: Session, o: nat, p: nat)
    requires Shape(s) && HasPending(s.rounds)
    ensures Produced(MarkConfirmed(s, |s.rounds| - 1, o), p) <==> Produced(s, p) || p == o
  {
    var s' := MarkConfirmed(s, |s.rounds| - 1, o);
    assert s'.rounds[|s.rounds| - 1].order == Some(o);
    if Produced(s, p) {
      var k :| 0 <= k < |s.rounds| && s.rounds[k].status.RoundConfirmed? && s.rounds[k].order == Some(p);
      assert s'.rounds[k] == s.rounds[k];
    }
  }
}
