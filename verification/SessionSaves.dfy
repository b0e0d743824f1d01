/** Session calls whose check and writes are apart (table-session.service.js:169-254, 359-382,
    518-543, 564-589): the writes name an item, a round or a session by its id and look at nothing
    again. When that does what the call was checked for, and exactly when it does not. */
module SessionSaves {
  import opened Data
  import opened SessionTx
  import opened SessionShape
  import opened Conservation

  // ---- What an edit does to the items of a round ----

  /** The edit changes an item that is linked to `round`. */
  predicate Hits(items: seq<CartItem>, step: Step, round: Option<nat>)
    requires step.UpdateItem? || step.RemoveItem?
  {
    var item := FindItem(items, step.id);
    item.Some? && item.value.round == round && (step.UpdateItem? ==> item.value.quantity != step.quantity)
  }

  function EditedItems(items: seq<CartItem>, step: Step): seq<CartItem>
    requires step.UpdateItem? || step.RemoveItem?
  {
    if step.UpdateItem? then WithQuantity(items, step.id, step.quantity) else Without(items, step.id)
  }

  lemma {:induction false} LinkedUpdated(items: seq<CartItem>, id: nat, quantity: nat, round: Option<nat>)
    ensures Linked(WithQuantity(items, id, quantity), round) == WithQuantity(Linked(items, round), id, quantity)
  {
    if items != [] {
      var init := items[..|items| - 1];
      LinkedUpdated(init, id, quantity, round);
      assert WithQuantity(items, id, quantity)[..|items| - 1] == WithQuantity(init, id, quantity);
    }
  }

  lemma WithoutAppend(items: seq<CartItem>, item: CartItem, id: nat)
    ensures Without(items + [item], id) == Without(items, id) + if item.id != id then [item] else []
  {
    assert (items + [item])[..|items|] == items;
  }

  lemma {:induction false} LinkedRemoved(items: seq<CartItem>, id: nat, round: Option<nat>)
    ensures Linked(Without(items, id), round) == Without(Linked(items, round), id)
  {
    if items != [] {
      var init, last := items[..|items| - 1], items[|items| - 1];
      LinkedRemoved(init, id, round);
      if last.id != id {
        LinkedAppend(Without(init, id), last, round);
      } else {
        assert Without(items, id) == Without(init, id);
      }
      if last.round == round {
        assert Linked(items, round) == Linked(init, round) + [last];
        WithoutAppend(Linked(init, round), last, id);
        assert last.id == id ==> Without(Linked(items, round), id) == Without(Linked(init, round), id);
      } else {
        assert Linked(items, round) == Linked(init, round);
      }
    }
  }

  lemma {:induction false} RemovedNothing(items: seq<CartItem>, id: nat)
    requires forall i :: 0 <= i < |items| ==> items[i].id != id
    ensures Without(items, id) == items
  {
    if items != [] {
      RemovedNothing(items[..|items| - 1], id);
    }
  }

  lemma {:induction false} RemovedSome(items: seq<CartItem>, id: nat, i: nat)
    requires i < |items| && items[i].id == id
    ensures |Without(items, id)| < |items|
  {
    var n := |items| - 1;
    if i < n {
      RemovedSome(items[..n], id, i);
    } else {
      RemovedAtMost(items[..n], id);
    }
  }

  lemma {:induction false} RemovedAtMost(items: seq<CartItem>, id: nat)
    ensures |Without(items, id)| <= |items|
  {
    if items != [] {
      RemovedAtMost(items[..|items| - 1], id);
    }
  }

  /** An edit changes what is linked to a round, and what of it a kitchen would see, exactly when
      it hits an item of that round. */
  lemma HitChanges(items: seq<CartItem>, step: Step, round: Option<nat>)
    requires step.UpdateItem? || step.RemoveItem?
    requires ItemIdsUnique(items)
    ensures Hits(items, step, round) ==>
              ItemEntries(Linked(EditedItems(items, step), round)) != ItemEntries(Linked(items, round))
    ensures !Hits(items, step, round) ==> Linked(EditedItems(items, step), round) == Linked(items, round)
  {
    hide Linked, FindItem, WithQuantity, Without, ItemEntries;
    if step.UpdateItem? {
      UpdateChanges(items, step.id, step.quantity, round);
    } else {
      RemovalChanges(items, step.id, round);
    }
  }

  lemma UpdateChanges(items: seq<CartItem>, id: nat, quantity: nat, round: Option<nat>)
    requires ItemIdsUnique(items)
    ensures var after := Linked(WithQuantity(items, id, quantity), round);
            if Hits(items, UpdateItem(id, quantity), round) then ItemEntries(after) != ItemEntries(Linked(items, round))
            else after == Linked(items, round)
  {
    hide Linked, FindItem;
    var mine := Linked(items, round);
    LinkedMembers(items, round);
    FindItemFinds(items, id);
    UniqueById(items, id);
    LinkedUpdated(items, id, quantity, round);
    if Hits(items, UpdateItem(id, quantity), round) {
      assert FindItem(items, id).value in mine;
      var i :| 0 <= i < |mine| && mine[i] == FindItem(items, id).value;
      assert ItemEntries(WithQuantity(mine, id, quantity))[i].quantity == quantity;
      assert ItemEntries(mine)[i].quantity != quantity;
    } else {
      UpdateIdle(items, mine, id, quantity);
    }
  }

  lemma RemovalChanges(items: seq<CartItem>, id: nat, round: Option<nat>)
    requires ItemIdsUnique(items)
    ensures var after := Linked(Without(items, id), round);
            if Hits(items, RemoveItem(id), round) then ItemEntries(after) != ItemEntries(Linked(items, round))
            else after == Linked(items, round)
  {
    hide Linked, FindItem, Without;
    var mine := Linked(items, round);
    LinkedMembers(items, round);
    FindItemFinds(items, id);
    UniqueById(items, id);
    LinkedRemoved(items, id, round);
    if Hits(items, RemoveItem(id), round) {
      assert FindItem(items, id).value in mine;
      var i :| 0 <= i < |mine| && mine[i] == FindItem(items, id).value;
      RemovedSome(mine, id, i);
      assert |ItemEntries(Without(mine, id))| != |ItemEntries(mine)|;
    } else {
      forall i | 0 <= i < |mine| ensures mine[i].id != id {
        assert mine[i] in items;
      }
      RemovedNothing(mine, id);
    }
  }

  lemma UpdateIdle(items: seq<CartItem>, mine: seq<CartItem>, id: nat, quantity: nat)
    requires forall i :: 0 <= i < |mine| ==> mine[i] in mine && mine[i] in items
    requires forall item :: item in items && item in mine && item.id == id ==> item.quantity == quantity
    ensures WithQuantity(mine, id, quantity) == mine
  {
  }

  /** An edit that finds nothing to change. */
  predicate Idle(items: seq<CartItem>, step: Step)
    requires step.UpdateItem? || step.RemoveItem?
  {
    var item := FindItem(items, step.id);
    item.None? || (step.UpdateItem? && item.value.quantity == step.quantity)
  }

  lemma IdleChangesNothing(items: seq<CartItem>, step: Step)
    requires (step.UpdateItem? || step.RemoveItem?) && ItemIdsUnique(items)
    ensures Idle(items, step) <==> EditedItems(items, step) == items
  {
    FindItemFinds(items, step.id);
    UniqueById(items, step.id);
    if FindItem(items, step.id).Some? {
      HitChanges(items, step, FindItem(items, step.id).value.round);
    }
    if step.RemoveItem? && Idle(items, step) {
      RemovedNothing(items, step.id);
    } else if Idle(items, step) {
      UpdateIdle(items, items, step.id, step.quantity);
    }
  }

  // ---- When the writes keep the session in shape ----

  /** What a caller would have to find at the moment of the writes. */
  predicate SafeSave(s: Session, seen: Session, call: SessionCall) {
    match call
    case Changing(AddItem(_, _, _, _)) => s.status.Open?
    case Changing(UpdateItem(id, _)) => Idle(s.items, call.step) || CheckEdit(s, id).None?
    case Changing(RemoveItem(id)) => Idle(s.items, call.step) || CheckEdit(s, id).None?
    case Changing(Submit) => s.status.Open?
    case Changing(Reject) =>
      PendingId(seen).Some? ==>
        (match FindRound(s.rounds, PendingId(seen).value)
         case None => s.status.Open?
         case Some(round) => round.status.RoundPending?)
    case Closing => true
  }

  /** The call had passed its check on the session as read. */
  predicate Checks(seen: Session, call: SessionCall) {
    call.Changing? ==> StepOf(seen, call.step).Ok?
  }

  ghost predicate Keeps(s: Session, s': Session) {
    Shape(s') && SessionEvolves(s, s')
  }

  lemma {:induction false} FindRoundSome(rounds: seq<Round>, id: nat)
    ensures FindRound(rounds, id).None? <==> !IsRound(rounds, id)
    ensures FindRound(rounds, id).Some? ==>
              exists k :: 0 <= k < |rounds| && rounds[k] == FindRound(rounds, id).value && rounds[k].id == id
  {
    if rounds != [] {
      FindRoundSome(rounds[1..], id);
      if rounds[0].id == id {
        assert rounds[0] == FindRound(rounds, id).value;
      } else {
        if IsRound(rounds, id) {
          var k :| 0 <= k < |rounds| && rounds[k].id == id;
          assert rounds[1..][k - 1].id == id;
        }
        if FindRound(rounds, id).Some? {
          var k :| 0 <= k < |rounds| - 1 && rounds[1..][k] == FindRound(rounds, id).value && rounds[1..][k].id == id;
          assert rounds[k + 1] == FindRound(rounds, id).value;
        }
      }
    }
  }

  lemma {:induction false} DropMembers(rounds: seq<Round>, id: nat)
    ensures forall k :: 0 <= k < |DropRound(rounds, id)| ==> DropRound(rounds, id)[k].id != id
  {
    if rounds != [] {
      DropMembers(rounds[..|rounds| - 1], id);
    }
  }

  lemma AddKeepsIff(s: Session, seen: Session, call: SessionCall)
    requires Shape(s) && Checks(seen, call) && call.Changing? && call.step.AddItem?
    ensures Keeps(s, Saved(s, seen, call)) <==> s.status.Open?
  {
    var step := call.step;
    var s' := Saved(s, seen, call);
    if s.status.Open? {
      AddItemKeepsShape(s, step.product, step.quantity, step.addedBy, step.menu);
    } else if s.status.Awaiting? {
      LinkedAppend(s.items, s'.items[|s.items|], None);
    } else {
      assert s'.nextItem != s.nextItem;
    }
  }

  lemma SubmitKeepsIff(s: Session, seen: Session)
    requires Shape(s)
    ensures Keeps(s, Saved(s, seen, Changing(Submit))) <==> s.status.Open?
  {
    hide Linked, Value, TotalsOk, ItemsOk;
    var s' := Saved(s, seen, Changing(Submit));
    if s.status.Open? {
      RoundKeepsShape(s, Value(Linked(seen.items, None)));
    } else if s.status.Awaiting? {
      var k := |s.rounds| - 1;
      assert s'.rounds[k] == s.rounds[k] && k + 1 < |s'.rounds|;
    } else {
      assert |s'.rounds| != |s.rounds|;
    }
  }

  lemma EditKeepsIff(s: Session, seen: Session, call: SessionCall)
    requires Shape(s) && call.Changing? && (call.step.UpdateItem? || call.step.RemoveItem?)
    ensures Keeps(s, Saved(s, seen, call)) <==> Idle(s.items, call.step) || CheckEdit(s, call.step.id).None?
  {
    hide Linked, Value, TotalsOk;
    var step := call.step;
    var s' := Saved(s, seen, call);
    assert s' == s.(items := EditedItems(s.items, step));
    IdleChangesNothing(s.items, step);
    if CheckEdit(s, step.id).None? {
      StepKeepsShape(s, step);
    } else if !Idle(s.items, step) && !s.status.Closed? {
      SettledItemIsFrozen(s, step);
    }
  }

  /** An edit that reaches an item of a confirmed round thaws it. */
  lemma SettledItemIsFrozen(s: Session, step: Step)
    requires Shape(s) && (step.UpdateItem? || step.RemoveItem?)
    requires !Idle(s.items, step) && !s.status.Closed? && CheckEdit(s, step.id).Some?
    ensures exists k ::
              0 <= k < |s.rounds| && s.rounds[k].status.RoundConfirmed? && Hits(s.items, step, Some(s.rounds[k].id))
    ensures !SessionEvolves(s, s.(items := EditedItems(s.items, step)))
  {
    hide TotalsOk, Value, Linked;
    var item := FindItem(s.items, step.id).value;
    FindRoundSome(s.rounds, item.round.value);
    var k :| 0 <= k < |s.rounds| && s.rounds[k].id == item.round.value && !s.rounds[k].status.RoundPending?;
    assert s.rounds[k].status.RoundConfirmed?;
    HitChanges(s.items, step, Some(s.rounds[k].id));
  }

  lemma RejectKeepsIff(s: Session, seen: Session)
    requires Shape(s)
    ensures Keeps(s, Saved(s, seen, Changing(Reject))) <==> SafeSave(s, seen, Changing(Reject))
  {
    hide Linked, Value, TotalsOk, ConfirmedCount, Relink, DropRound;
    if PendingId(seen).Some? {
      var id := PendingId(seen).value;
      var s' := Saved(s, seen, Changing(Reject));
      FindRoundSome(s.rounds, id);
      if FindRound(s.rounds, id).None? {
        DropNone(s.rounds, id);
        NothingToRelink(s, id);
      } else {
        var k :| 0 <= k < |s.rounds| && s.rounds[k] == FindRound(s.rounds, id).value && s.rounds[k].id == id;
        RejectOfKnown(s, k);
      }
    }
  }

  /** A rejection that finds its round, whatever has become of it. */
  lemma RejectOfKnown(s: Session, k: nat)
    requires Shape(s) && k < |s.rounds|
    ensures Keeps(s, WithoutRound(s, s.rounds[k].id)) <==> s.rounds[k].status.RoundPending?
  {
    hide Linked, Value, TotalsOk, ItemsOk;
    if s.rounds[k].status.RoundPending? {
      PendingIsLast(s);
      RejectKeepsShape(s);
    } else {
      DropMembers(s.rounds, s.rounds[k].id);
    }
  }

  lemma NothingToRelink(s: Session, id: nat)
    requires ItemsOk(s) && !IsRound(s.rounds, id)
    ensures Relink(s.items, Some(id), None) == s.items
  {
  }

  lemma CloseKeeps(s: Session)
    requires Shape(s)
    ensures Keeps(s, Ended(s)) && ConfirmsNothing(s, Ended(s))
    ensures s.status.Closed? ==> Ended(s) == s
  {
    if s.status.Closed? {
      assert CancelPending(s.rounds) == s.rounds;
    } else {
      CloseKeepsShape(s);
    }
  }

  /** Exactly when the writes of a call keep the session in shape and what was confirmed as it
      was: a new item or round finds the session still open; an edit finds its item still
      editable, or nothing to change; a rejection finds its round still pending, or gone and the
      session open; closing always does. */
  lemma SaveKeepsIff(s: Session, seen: Session, call: SessionCall)
    requires Shape(s) && Checks(seen, call)
    ensures Keeps(s, Saved(s, seen, call)) <==> SafeSave(s, seen, call)
  {
    hide Shape, StepOf, SessionEvolves;
    if call.Closing? {
      CloseKeeps(s);
    } else {
      match call.step
      case AddItem(_, _, _, _) => AddKeepsIff(s, seen, call);
      case UpdateItem(_, _) => EditKeepsIff(s, seen, call);
      case RemoveItem(_) => EditKeepsIff(s, seen, call);
      case Submit => SubmitKeepsIff(s, seen);
      case Reject => RejectKeepsIff(s, seen);
    }
  }

  /** Exactly the items of the open cart and of the round that waits may be edited, and only while
      the session is not closed. */
  lemma EditAllowedIff(s: Session, id: nat)
    requires Shape(s)
    ensures CheckEdit(s, id).None?
       <==> && !s.status.Closed?
            && exists i :: 0 <= i < |s.items| && s.items[i].id == id
                 && (s.items[i].round.None? || (HasPending(s.rounds) &&
                     s.items[i].round == Some(s.rounds[|s.rounds| - 1].id)))
  {
    hide Linked, TotalsOk, Value;
    FindItemFinds(s.items, id);
    UniqueById(s.items, id);
    if FindItem(s.items, id).Some? {
      var item := FindItem(s.items, id).value;
      var i :| 0 <= i < |s.items| && s.items[i] == item;
      if item.round.Some? {
        FindRoundSome(s.rounds, item.round.value);
      }
    }
  }

  // ---- What an edit does to confirmed rounds ----

  /** Exactly when an edit leaves the kitchen's orders in agreement with the session: it hits no
      item of a confirmed round. */
  lemma EditConservesIff(orders: seq<Order>, s: Session, step: Step)
    requires Shape(s) && Conserves(orders, s) && (step.UpdateItem? || step.RemoveItem?)
    ensures Conserves(orders, s.(items := EditedItems(s.items, step)))
       <==> forall k :: 0 <= k < |s.rounds| && s.rounds[k].status.RoundConfirmed? ==>
           !Hits(s.items, step, Some(s.rounds[k].id))
  {
    hide Linked, Shape, LinesOfRound, Hits;
    var s' := s.(items := EditedItems(s.items, step));
    ShapeIds(s);
    forall k | 0 <= k < |s.rounds| && s.rounds[k].status.RoundConfirmed?
      ensures Delivers(orders, s', k) <==> !Hits(s.items, step, Some(s.rounds[k].id))
    {
      assert Delivers(orders, s, k);
      HitChanges(s.items, step, Some(s.rounds[k].id));
    }
  }

  // ---- When the writes are the whole call ----

  /** The check would pass again, on what it was made for, or there is nothing left to do. */
  predicate StillPasses(db: Db, sid: nat, seen: Session, call: SessionCall)
    requires sid < |db.sessions|
  {
    var s := db.sessions[sid];
    && SafeSave(s, seen, call)
    && (call == Changing(Submit) ==>
          |Linked(s.items, None)| > 0 && Value(Linked(s.items, None)) == Value(Linked(seen.items, None)))
    && (call.Closing? ==>
          if s.status.Closed? then s.table < |db.tables| ==> !db.tables[s.table].status.Occupied?
          else !StillOwes(db, s.confirmedOrder))
  }

  /** Exactly when the writes do what the undivided call would do at their moment, or nothing. */
  lemma SaveIsCallIff(db: Db, sid: nat, seen: Session, call: SessionCall)
    requires sid < |db.sessions| && Shape(db.sessions[sid]) && Checks(seen, call)
    ensures SaveTx(db, sid, seen, call) == db || TryCall(db, sid, call) == Ok(SaveTx(db, sid, seen, call))
       <==> StillPasses(db, sid, seen, call)
  {
    hide Linked, Value;
    var s := db.sessions[sid];
    if StillPasses(db, sid, seen, call) {
      PassesIsCall(db, sid, seen, call);
    } else if SaveTx(db, sid, seen, call) == db {
      assert Saved(s, seen, call) == db.sessions[sid];
      SaveKeepsIff(s, seen, call);
    } else if TryCall(db, sid, call) == Ok(SaveTx(db, sid, seen, call)) {
      CallIsPassing(db, sid, seen, call);
    }
  }

  lemma CallIsPassing(db: Db, sid: nat, seen: Session, call: SessionCall)
    requires sid < |db.sessions| && Shape(db.sessions[sid]) && Checks(seen, call)
    requires TryCall(db, sid, call) == Ok(SaveTx(db, sid, seen, call))
    ensures StillPasses(db, sid, seen, call)
  {
    hide Linked, Value, Shape;
    var s := db.sessions[sid];
    if call.Changing? {
      assert StepOf(s, call.step) == Ok(SaveTx(db, sid, seen, call).sessions[sid]);
      StepKeepsShape(s, call.step);
      SaveKeepsIff(s, seen, call);
      if call.step.Submit? {
        assert SubmitDraft(s).value.rounds[|s.rounds|].total == Saved(s, seen, call).rounds[|s.rounds|].total;
      }
    }
  }

  lemma PassesIsCall(db: Db, sid: nat, seen: Session, call: SessionCall)
    requires sid < |db.sessions| && Shape(db.sessions[sid]) && Checks(seen, call)
    requires StillPasses(db, sid, seen, call)
    ensures SaveTx(db, sid, seen, call) == db || TryCall(db, sid, call) == Ok(SaveTx(db, sid, seen, call))
  {
    hide Linked, Value;
    var s := db.sessions[sid];
    match call
    case Closing => CloseKeeps(s);
    case Changing(step) =>
      if step.UpdateItem? || step.RemoveItem? {
        ShapeIds(s);
        IdleChangesNothing(s.items, step);
      } else if step.Reject? {
        RejectIsCall(s, seen);
      }
  }

  lemma RejectIsCall(s: Session, seen: Session)
    requires Shape(s) && PendingId(seen).Some? && SafeSave(s, seen, Changing(Reject))
    ensures Saved(s, seen, Changing(Reject)) == s || RejectPending(s) == Ok(Saved(s, seen, Changing(Reject)))
  {
    hide Linked, Value, TotalsOk, ConfirmedCount, Relink, DropRound;
    var id := PendingId(seen).value;
    FindRoundSome(s.rounds, id);
    if FindRound(s.rounds, id).None? {
      DropNone(s.rounds, id);
      NothingToRelink(s, id);
    } else {
      PendingIsLast(s);
    }
  }
}
