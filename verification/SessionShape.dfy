/** The shape of one table session over all its calls: numbered rounds, at most the last one
    unconfirmed, a cart that is empty while a round is pending, frozen confirmed rounds. */
module SessionShape {
  import opened Data
  import opened SessionTx

  // ---- Linked items ----

  lemma {:induction false} LinkedMembers(items: seq<CartItem>, round: Option<nat>)
    ensures forall item :: item in Linked(items, round) <==> item in items && item.round == round
  {
    if items != [] {
      LinkedMembers(items[..|items| - 1], round);
    }
  }

  lemma LinkedAppend(items: seq<CartItem>, item: CartItem, round: Option<nat>)
    ensures Linked(items + [item], round) == Linked(items, round) + if item.round == round then [item] else []
  {
    assert (items + [item])[..|items|] == items;
  }

  /** Two lists that agree, position by position, on what is linked to `round`. */
  lemma {:induction false} LinkedSame(a: seq<CartItem>, b: seq<CartItem>, round: Option<nat>)
    requires |a| == |b|
    requires forall i :: 0 <= i < |a| ==> a[i] == b[i] || (a[i].round != round && b[i].round != round)
    ensures Linked(a, round) == Linked(b, round)
  {
    if a != [] {
      LinkedSame(a[..|a| - 1], b[..|b| - 1], round);
    }
  }

  lemma {:induction false} LinkedWithout(items: seq<CartItem>, id: nat, round: Option<nat>)
    requires forall i :: 0 <= i < |items| && items[i].id == id ==> items[i].round != round
    ensures Linked(Without(items, id), round) == Linked(items, round)
  {
    if items != [] {
      var init, last := items[..|items| - 1], items[|items| - 1];
      LinkedWithout(init, id, round);
      if last.id == id {
        assert Without(items, id) == Without(init, id);
      } else {
        LinkedAppend(Without(init, id), last, round);
      }
    }
  }

  lemma {:induction false} WithoutMembers(items: seq<CartItem>, id: nat)
    ensures |Without(items, id)| <= |items|
    ensures forall item :: item in Without(items, id) <==> item in items && item.id != id
    ensures ItemIdsUnique(items) ==> ItemIdsUnique(Without(items, id))
  {
    if items != [] {
      var init := items[..|items| - 1];
      WithoutMembers(init, id);
    }
  }

  lemma {:induction false} FindItemFinds(items: seq<CartItem>, id: nat)
    ensures FindItem(items, id).None? <==> forall i :: 0 <= i < |items| ==> items[i].id != id
    ensures FindItem(items, id).Some? ==> FindItem(items, id).value in items && FindItem(items, id).value.id == id
  {
    if items != [] {
      FindItemFinds(items[1..], id);
      if items[0].id != id && FindItem(items, id).None? {
        forall i | 0 <= i < |items| ensures items[i].id != id {
          assert i > 0 ==> items[i] == items[1..][i - 1];
        }
      }
    }
  }

  lemma {:induction false} FindRoundFinds(rounds: seq<Round>, k: nat)
    requires k < |rounds| && RoundIdsUnique(rounds)
    ensures FindRound(rounds, rounds[k].id) == Some(rounds[k])
  {
    if k > 0 {
      assert rounds[1..][k - 1] == rounds[k];
      FindRoundFinds(rounds[1..], k - 1);
    }
  }

  lemma {:induction false} NumbersFromOne(rounds: seq<Round>)
    requires forall i :: 0 <= i < |rounds| ==> rounds[i].number == i + 1
    ensures NextNumber(rounds) == |rounds| + 1
  {
    if rounds != [] {
      NumbersFromOne(rounds[..|rounds| - 1]);
    }
  }

  lemma {:induction false} DropNone(rounds: seq<Round>, id: nat)
    requires forall i :: 0 <= i < |rounds| ==> rounds[i].id != id
    ensures DropRound(rounds, id) == rounds
  {
    if rounds != [] {
      DropNone(rounds[..|rounds| - 1], id);
    }
  }

  // ---- The invariant ----

  ghost predicate ItemIdsUnique(items: seq<CartItem>) {
    forall i, j :: 0 <= i < j < |items| ==> items[i].id != items[j].id
  }

  ghost predicate RoundIdsUnique(rounds: seq<Round>) {
    forall i, j :: 0 <= i < j < |rounds| ==> rounds[i].id != rounds[j].id
  }

  predicate IsRound(rounds: seq<Round>, id: nat) {
    exists k :: 0 <= k < |rounds| && rounds[k].id == id
  }

  ghost predicate ItemsOk(s: Session) {
    && ItemIdsUnique(s.items)
    && forall i :: 0 <= i < |s.items| ==>
         && s.items[i].id < s.nextItem
         && (s.items[i].round.Some? ==> IsRound(s.rounds, s.items[i].round.value))
  }

  /** Rounds are numbered 1, 2, ... and only the last may be pending or cancelled. */
  ghost predicate RoundsOk(rounds: seq<Round>, next: nat) {
    && RoundIdsUnique(rounds)
    && forall k :: 0 <= k < |rounds| ==>
         && rounds[k].number == k + 1
         && rounds[k].id < next
         && (k + 1 < |rounds| ==> rounds[k].status.RoundConfirmed?)
  }

  /** Every confirmed round has an order, has items, and its total is their value. */
  ghost predicate TotalsOk(s: Session) {
    forall k :: 0 <= k < |s.rounds| && s.rounds[k].status.RoundConfirmed? ==>
      && s.rounds[k].order.Some?
      && Linked(s.items, Some(s.rounds[k].id)) != []
      && s.rounds[k].total == Value(Linked(s.items, Some(s.rounds[k].id)))
  }

  /** How many rounds are confirmed: all of them, or all but the last. */
  function ConfirmedCount(rounds: seq<Round>): nat {
    if |rounds| > 0 && !rounds[|rounds| - 1].status.RoundConfirmed? then |rounds| - 1 else |rounds|
  }

  predicate HasPending(rounds: seq<Round>) {
    |rounds| > 0 && rounds[|rounds| - 1].status.RoundPending?
  }

  ghost predicate Shape(s: Session) {
    && ItemsOk(s) && RoundsOk(s.rounds, s.nextRound) && TotalsOk(s)
    && (s.status.Awaiting? <==> HasPending(s.rounds))
    && (s.status.Awaiting? ==> Linked(s.items, None) == [])
    && (|s.rounds| > 0 && s.rounds[|s.rounds| - 1].status.RoundCancelled? ==> s.status.Closed?)
    && s.confirmedOrder == (if ConfirmedCount(s.rounds) == 0 then None
        else s.rounds[ConfirmedCount(s.rounds) - 1].order)
  }

  /** What later states of a session keep: its table, its confirmed rounds with their items,
      and everything once it is closed. */
  ghost predicate SessionEvolves(s: Session, s': Session) {
    && s'.table == s.table
    && (s.status.Closed? ==> s' == s)
    && forall k :: 0 <= k < |s.rounds| && s.rounds[k].status.RoundConfirmed? ==>
         && k < |s'.rounds| && s'.rounds[k] == s.rounds[k]
         && Linked(s'.items, Some(s.rounds[k].id)) == Linked(s.items, Some(s.rounds[k].id))
  }

  /** A call that confirms no round. */
  ghost predicate ConfirmsNothing(s: Session, s': Session) {
    forall k :: 0 <= k < |s'.rounds| && s'.rounds[k].status.RoundConfirmed? ==>
      k < |s.rounds| && s.rounds[k].status.RoundConfirmed?
  }

  lemma SessionEvolvesTransitive(a: Session, b: Session, c: Session)
    requires SessionEvolves(a, b) && SessionEvolves(b, c)
    ensures SessionEvolves(a, c)
  {
  }

  // ---- Each call keeps it ----

  lemma ShapeIds(s: Session)
    requires Shape(s)
    ensures ItemIdsUnique(s.items) && RoundIdsUnique(s.rounds)
  {
  }

  lemma UniqueById(items: seq<CartItem>, id: nat)
    requires ItemIdsUnique(items)
    ensures forall a, b :: a in items && b in items && a.id == id && b.id == id ==> a == b
  {
  }

  lemma AddItemKeepsShape(s: Session, product: nat, quantity: nat, addedBy: string, menu: Menu)
    requires Shape(s) && AddItemTo(s, product, quantity, addedBy, menu).Ok?
    ensures var s' := AddItemTo(s, product, quantity, addedBy, menu).value;
            Shape(s') && SessionEvolves(s, s')
  {
    var item := CartItem(s.nextItem, None, product, menu[product], quantity, addedBy);
    forall r: nat ensures Linked(s.items + [item], Some(r)) == Linked(s.items, Some(r)) {
      LinkedAppend(s.items, item, Some(r));
    }
  }

  /** An edit never reaches an item of a confirmed round. */
  lemma EditSparesConfirmed(s: Session, id: nat, k: nat)
    requires Shape(s) && CheckEdit(s, id).None?
    requires k < |s.rounds| && s.rounds[k].status.RoundConfirmed?
    ensures forall i :: 0 <= i < |s.items| && s.items[i].id == id ==> s.items[i].round != Some(s.rounds[k].id)
  {
    hide Shape, Linked, TotalsOk, FindItem, FindRound;
    ShapeIds(s);
    FindItemFinds(s.items, id);
    UniqueById(s.items, id);
    FindRoundFinds(s.rounds, k);
  }

  lemma UpdateSparesConfirmed(s: Session, id: nat, quantity: nat)
    requires Shape(s) && CheckEdit(s, id).None?
    ensures forall k :: 0 <= k < |s.rounds| && s.rounds[k].status.RoundConfirmed? ==>
              Linked(WithQuantity(s.items, id, quantity), Some(s.rounds[k].id)) == Linked(s.items, Some(s.rounds[k].id))
  {
    hide Shape, CheckEdit;
    var items' := WithQuantity(s.items, id, quantity);
    forall k | 0 <= k < |s.rounds| && s.rounds[k].status.RoundConfirmed?
      ensures Linked(items', Some(s.rounds[k].id)) == Linked(s.items, Some(s.rounds[k].id))
    {
      EditSparesConfirmed(s, id, k);
      LinkedSame(items', s.items, Some(s.rounds[k].id));
    }
  }

  lemma UpdateItemKeepsShape(s: Session, id: nat, quantity: nat)
    requires Shape(s) && UpdateItemOf(s, id, quantity).Ok?
    ensures Shape(UpdateItemOf(s, id, quantity).value) && SessionEvolves(s, UpdateItemOf(s, id, quantity).value)
  {
    hide Linked, HasPending, ConfirmedCount;
    UpdateSparesConfirmed(s, id, quantity);
    if s.status.Awaiting? {
      NoOpenItems(s.items);
      NothingLinked(WithQuantity(s.items, id, quantity), None);
    }
  }

  lemma NoOpenItems(items: seq<CartItem>)
    requires Linked(items, None) == []
    ensures forall i :: 0 <= i < |items| ==> items[i].round.Some?
  {
    LinkedMembers(items, None);
    forall i | 0 <= i < |items| ensures items[i].round.Some? {
      assert items[i] in items;
    }
  }

  lemma {:induction false} NothingLinked(items: seq<CartItem>, round: Option<nat>)
    requires forall i :: 0 <= i < |items| ==> items[i].round != round
    ensures Linked(items, round) == []
  {
    if items != [] {
      NothingLinked(items[..|items| - 1], round);
    }
  }

  /** A round stays known in a list that keeps the ids of the old one in place. */
  lemma RoundStays(rounds: seq<Round>, rounds': seq<Round>, id: nat)
    requires IsRound(rounds, id)
    requires |rounds| <= |rounds'| && forall k :: 0 <= k < |rounds| ==> rounds'[k].id == rounds[k].id
    ensures IsRound(rounds', id)
  {
    var k :| 0 <= k < |rounds| && rounds[k].id == id;
    assert rounds'[k].id == id;
  }

  lemma RemoveItemKeepsShape(s: Session, id: nat)
    requires Shape(s) && RemoveItemOf(s, id).Ok?
    ensures Shape(RemoveItemOf(s, id).value) && SessionEvolves(s, RemoveItemOf(s, id).value)
  {
    hide Linked, Value, HasPending, ConfirmedCount;
    var items' := Without(s.items, id);
    WithoutMembers(s.items, id);
    forall k | 0 <= k < |s.rounds| && s.rounds[k].status.RoundConfirmed?
      ensures Linked(items', Some(s.rounds[k].id)) == Linked(s.items, Some(s.rounds[k].id))
    {
      EditSparesConfirmed(s, id, k);
      LinkedWithout(s.items, id, Some(s.rounds[k].id));
    }
    forall i | 0 <= i < |items'| ensures items'[i] in s.items {
      assert items'[i] in items';
    }
    if s.status.Awaiting? {
      NoOpenItems(s.items);
      NothingLinked(items', None);
    }
  }

  lemma RoundItems(s: Session, total: nat)
    requires Shape(s)
    ensures ItemsOk(WithRound(s, total)) && Linked(WithRound(s, total).items, None) == []
  {
    hide Linked, Value, NextNumber, TotalsOk;
    var s' := WithRound(s, total);
    NothingLinked(s'.items, None);
    assert s'.rounds[|s.rounds|].id == s.nextRound;
    forall i | 0 <= i < |s.items| ensures IsRound(s'.rounds, s'.items[i].round.value) {
      if s.items[i].round.Some? {
        RoundStays(s.rounds, s'.rounds, s.items[i].round.value);
      }
    }
  }

  lemma RelinkSpares(items: seq<CartItem>, from: Option<nat>, to: Option<nat>, round: Option<nat>)
    requires round != from && round != to
    ensures Linked(Relink(items, from, to), round) == Linked(items, round)
  {
    LinkedSame(Relink(items, from, to), items, round);
  }

  lemma RoundConfirmedStay(s: Session, total: nat)
    requires Shape(s) && s.status.Open?
    ensures TotalsOk(WithRound(s, total)) && SessionEvolves(s, WithRound(s, total))
  {
    var s' := WithRound(s, total);
    assert RoundsOk(s.rounds, s.nextRound) && TotalsOk(s);
    forall k | 0 <= k < |s.rounds| ensures Linked(s'.items, Some(s.rounds[k].id))
        == Linked(s.items, Some(s.rounds[k].id)) {
      RelinkSpares(s.items, None, Some(s.nextRound), Some(s.rounds[k].id));
    }
  }

  /** A new round keeps the shape of an open session, whatever total it is given. */
  lemma RoundKeepsShape(s: Session, total: nat)
    requires Shape(s) && s.status.Open?
    ensures Shape(WithRound(s, total)) && SessionEvolves(s, WithRound(s, total))
  {
    hide ItemsOk, TotalsOk, SessionEvolves, Linked;
    var s' := WithRound(s, total);
    NumbersFromOne(s.rounds);
    RoundItems(s, total);
    RoundConfirmedStay(s, total);
    assert !HasPending(s.rounds);
    assert RoundsOk(s'.rounds, s'.nextRound);
  }

  lemma SubmitKeepsShape(s: Session)
    requires Shape(s) && SubmitDraft(s).Ok?
    ensures Shape(SubmitDraft(s).value) && SessionEvolves(s, SubmitDraft(s).value)
  {
    RoundKeepsShape(s, Value(Linked(s.items, None)));
  }

  /** A session with a pending round: it is the last one, and dropping it leaves the rest. */
  lemma PendingIsLast(s: Session)
    requires Shape(s) && PendingIndex(s.rounds) < |s.rounds|
    ensures s.status.Awaiting? && PendingIndex(s.rounds) == |s.rounds| - 1
    ensures DropRound(s.rounds, s.rounds[|s.rounds| - 1].id) == s.rounds[..|s.rounds| - 1]
  {
    DropNone(s.rounds[..|s.rounds| - 1], s.rounds[|s.rounds| - 1].id);
  }

  lemma RejectItems(s: Session)
    requires Shape(s) && RejectPending(s).Ok?
    ensures ItemsOk(RejectPending(s).value)
  {
    PendingIsLast(s);
    assert ItemsOk(s);
    KnownWithoutLast(s.items, s.rounds);
    assert RejectPending(s).value.rounds == s.rounds[..|s.rounds| - 1];
  }

  /** An item that is not linked to the last round is linked to an earlier one or to none. */
  lemma KnownWithoutLast(items: seq<CartItem>, rounds: seq<Round>)
    requires |rounds| > 0
    requires forall i :: 0 <= i < |items| && items[i].round.Some? ==> IsRound(rounds, items[i].round.value)
    ensures var left := Relink(items, Some(rounds[|rounds| - 1].id), None);
            forall i :: 0 <= i < |items| && left[i].round.Some? ==> IsRound(rounds[..|rounds| - 1], left[i].round.value)
  {
    var n := |rounds| - 1;
    var left := Relink(items, Some(rounds[n].id), None);
    forall i | 0 <= i < |items| && left[i].round.Some? ensures IsRound(rounds[..n], left[i].round.value) {
      var k :| 0 <= k < |rounds| && rounds[k].id == items[i].round.value;
      assert rounds[..n][k].id == left[i].round.value;
    }
  }

  lemma RejectConfirmed(s: Session)
    requires Shape(s) && RejectPending(s).Ok?
    ensures TotalsOk(RejectPending(s).value) && SessionEvolves(s, RejectPending(s).value)
  {
    hide ItemsOk;
    PendingIsLast(s);
    var s' := RejectPending(s).value;
    var n := |s.rounds| - 1;
    assert RoundsOk(s.rounds, s.nextRound) && TotalsOk(s);
    forall k | 0 <= k < n ensures Linked(s'.items, Some(s.rounds[k].id)) == Linked(s.items, Some(s.rounds[k].id)) {
      RelinkSpares(s.items, Some(s.rounds[n].id), None, Some(s.rounds[k].id));
    }
  }

  lemma RejectKeepsShape(s: Session)
    requires Shape(s) && RejectPending(s).Ok?
    ensures Shape(RejectPending(s).value) && SessionEvolves(s, RejectPending(s).value)
  {
    hide ItemsOk, TotalsOk, SessionEvolves, Linked, Value, Relink;
    PendingIsLast(s);
    RejectItems(s);
    RejectConfirmed(s);
    var s' := RejectPending(s).value;
    assert s'.rounds == s.rounds[..|s.rounds| - 1];
    assert RoundsOk(s'.rounds, s'.nextRound);
  }

  lemma StepKeepsShape(s: Session, step: Step)
    requires Shape(s) && StepOf(s, step).Ok?
    ensures Shape(StepOf(s, step).value) && SessionEvolves(s, StepOf(s, step).value)
  {
    hide Shape, SessionEvolves;
    match step
    case AddItem(product, quantity, addedBy, menu) => AddItemKeepsShape(s, product, quantity, addedBy, menu);
    case UpdateItem(id, quantity) => UpdateItemKeepsShape(s, id, quantity);
    case RemoveItem(id) => RemoveItemKeepsShape(s, id);
    case Submit => SubmitKeepsShape(s);
    case Reject => RejectKeepsShape(s);
  }

  /** None of these calls confirms a round, changes the session's order or closes it. */
  lemma StepConfirmsNothing(s: Session, step: Step)
    requires Shape(s) && StepOf(s, step).Ok?
    ensures ConfirmsNothing(s, StepOf(s, step).value)
    ensures StepOf(s, step).value.confirmedOrder == s.confirmedOrder
    ensures !StepOf(s, step).value.status.Closed?
  {
    hide Shape;
    if step.Reject? {
      PendingIsLast(s);
    }
  }

  /** A change of the rounds that keeps their ids and leaves the items alone. */
  lemma SameIdsKeepItems(s: Session, s': Session)
    requires ItemsOk(s) && s'.items == s.items && s'.nextItem == s.nextItem && |s'.rounds| == |s.rounds|
    requires forall k :: 0 <= k < |s.rounds| ==> s'.rounds[k].id == s.rounds[k].id
    ensures ItemsOk(s')
  {
    forall i | 0 <= i < |s.items| && s.items[i].round.Some? ensures IsRound(s'.rounds, s.items[i].round.value) {
      RoundStays(s.rounds, s'.rounds, s.items[i].round.value);
    }
  }

  lemma CancelKeepsRounds(rounds: seq<Round>, next: nat)
    requires RoundsOk(rounds, next)
    ensures RoundsOk(CancelPending(rounds), next) && !HasPending(CancelPending(rounds))
    ensures ConfirmedCount(CancelPending(rounds)) == ConfirmedCount(rounds)
    ensures forall k :: 0 <= k < ConfirmedCount(rounds) ==> CancelPending(rounds)[k] == rounds[k]
  {
  }

  lemma CloseKeepsShape(s: Session)
    requires Shape(s) && !s.status.Closed?
    ensures Shape(Ended(s)) && SessionEvolves(s, Ended(s)) && ConfirmsNothing(s, Ended(s))
  {
    hide Linked, Value;
    var s' := Ended(s);
    assert ItemsOk(s) && RoundsOk(s.rounds, s.nextRound) && TotalsOk(s);
    SameIdsKeepItems(s, s');
    CancelKeepsRounds(s.rounds, s.nextRound);
  }

  lemma ConfirmKeepsShape(s: Session, o: nat)
    requires Shape(s) && PendingIndex(s.rounds) < |s.rounds|
    requires Linked(s.items, Some(s.rounds[PendingIndex(s.rounds)].id)) != []
    ensures var s' := MarkConfirmed(s, PendingIndex(s.rounds), o);
            Shape(s') && SessionEvolves(s, s')
  {
    hide Linked, Value, ItemsOk;
    PendingIsLast(s);
    var s' := MarkConfirmed(s, PendingIndex(s.rounds), o);
    SameIdsKeepItems(s, s');
    assert RoundsOk(s'.rounds, s'.nextRound);
    assert TotalsOk(s');
  }

  // ---- What the calls are for ----

  function Relabelled(items: seq<CartItem>, round: Option<nat>): seq<CartItem> {
    seq(|items|, i requires 0 <= i < |items| => items[i].(round := round))
  }

  /** Relinked items are the same items under another round. */
  lemma {:induction false} RelinkMoves(items: seq<CartItem>, from: Option<nat>, to: Option<nat>)
    requires from != to && forall i :: 0 <= i < |items| ==> items[i].round != to
    ensures Linked(Relink(items, from, to), to) == Relabelled(Linked(items, from), to)
  {
    if items != [] {
      var init, last := items[..|items| - 1], items[|items| - 1];
      RelinkMoves(init, from, to);
      assert Relink(items, from, to)[..|items| - 1] == Relink(init, from, to);
      if last.round == from {
        assert Linked(items, from) == Linked(init, from) + [last];
        assert Relabelled(Linked(init, from) + [last], to) == Relabelled(Linked(init, from), to) + [last.(round := to)];
      } else {
        assert Linked(items, from) == Linked(init, from);
      }
    }
  }

  lemma {:induction false} RelabelledValue(items: seq<CartItem>, round: Option<nat>)
    ensures Value(Relabelled(items, round)) == Value(items)
  {
    if items != [] {
      assert Relabelled(items, round)[..|items| - 1] == Relabelled(items[..|items| - 1], round);
      RelabelledValue(items[..|items| - 1], round);
    }
  }

  /** Submitting moves the whole cart, item by item, into one new round that carries the next
      number and the cart's value. */
  lemma SubmitTakesCart(s: Session)
    requires Shape(s) && SubmitDraft(s).Ok?
    ensures var s' := SubmitDraft(s).value;
            && |s'.rounds| == |s.rounds| + 1 && s'.rounds[..|s.rounds|] == s.rounds && s'.status.Awaiting?
            && (var r := s'.rounds[|s.rounds|];
                && r.number == |s.rounds| + 1 && r.status.RoundPending? && r.order.None?
                && r.total == Value(Linked(s'.items, Some(r.id))) == Value(Linked(s.items, None))
                && |Linked(s'.items, Some(r.id))| > 0
                && Linked(s'.items, Some(r.id)) == Relabelled(Linked(s.items, None), Some(r.id)))
            && Linked(s'.items, None) == []
  {
    hide Linked, Value, TotalsOk;
    NumbersFromOne(s.rounds);
    RoundItems(s, Value(Linked(s.items, None)));
    forall i | 0 <= i < |s.items| ensures s.items[i].round != Some(s.nextRound) {
      if s.items[i].round.Some? {
        var k :| 0 <= k < |s.rounds| && s.rounds[k].id == s.items[i].round.value;
      }
    }
    RelinkMoves(s.items, None, Some(s.nextRound));
    RelabelledValue(Linked(s.items, None), Some(s.nextRound));
  }

  lemma {:induction false} FindAfterUpdate(items: seq<CartItem>, id: nat, quantity: nat, other: nat)
    ensures FindItem(WithQuantity(items, id, quantity), other)
         == match FindItem(items, other)
            case None => None
            case Some(item) => Some(if other == id then item.(quantity := quantity) else item)
  {
    if items != [] {
      assert WithQuantity(items, id, quantity)[1..] == WithQuantity(items[1..], id, quantity);
      FindAfterUpdate(items[1..], id, quantity, other);
    }
  }

  lemma {:induction false} FindAfterRemove(items: seq<CartItem>, id: nat, other: nat)
    requires ItemIdsUnique(items)
    ensures FindItem(Without(items, id), other) == if other == id then None else FindItem(items, other)
  {
    WithoutMembers(items, id);
    FindItemFinds(items, other);
    FindItemFinds(Without(items, id), other);
    UniqueById(items, other);
    if FindItem(items, other).Some? && other != id {
      var item := FindItem(items, other).value;
      assert item in Without(items, id);
    }
    if FindItem(Without(items, id), other).Some? {
      assert FindItem(Without(items, id), other).value in items;
    }
  }

  /** An edit changes the quantity of the named item, or removes it, and touches no other. */
  lemma EditEffect(s: Session, id: nat, quantity: nat, other: nat)
    requires Shape(s) && CheckEdit(s, id).None?
    ensures FindItem(s.items, id).Some?
    ensures var after := UpdateItemOf(s, id, quantity).value;
            && FindItem(after.items, id) == Some(FindItem(s.items, id).value.(quantity := quantity))
            && (other != id ==> FindItem(after.items, other) == FindItem(s.items, other))
    ensures var after := RemoveItemOf(s, id).value;
            && FindItem(after.items, id).None?
            && (other != id ==> FindItem(after.items, other) == FindItem(s.items, other))
  {
    FindAfterUpdate(s.items, id, quantity, id);
    FindAfterUpdate(s.items, id, quantity, other);
    FindAfterRemove(s.items, id, id);
    FindAfterRemove(s.items, id, other);
  }

  // ---- Round trip ----

  /** Rejecting a round right after it was submitted gives the customers back exactly the cart,
      the rounds, the status and the next round number they had. */
  lemma RejectUndoesSubmit(s: Session)
    requires Shape(s) && SubmitDraft(s).Ok?
    ensures RejectPending(SubmitDraft(s).value).Ok?
    ensures var back := RejectPending(SubmitDraft(s).value).value;
            back == s.(nextRound := back.nextRound) && NextNumber(back.rounds) == NextNumber(s.rounds)
  {
    hide TotalsOk, Linked, Value;
    var t := SubmitDraft(s).value;
    SubmitKeepsShape(s);
    assert t.rounds[|s.rounds|].status.RoundPending?;
    PendingIsLast(t);
    var back := RejectPending(t).value;
    assert back.rounds == s.rounds;
    forall i | 0 <= i < |s.items| ensures back.items[i] == s.items[i] {
      if s.items[i].round.Some? {
        var k :| 0 <= k < |s.rounds| && s.rounds[k].id == s.items[i].round.value;
      }
    }
    assert back.items == s.items;
  }
}
