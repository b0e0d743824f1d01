/** What customers are shown of a session: the split by member and the grand total
    (src/modules/table-sessions/table-session.service.js:645-716). */
module Bill {
  import opened Data
  import opened SessionTx
  import opened SessionShape

  datatype Share = Share(name: string, items: seq<CartItem>, subtotal: nat)

  /** The name of an item that carries none, as the program spells it. */
  const GUEST := "\U{0639}\U{0645}\U{064A}\U{0644}"

  function NameOf(item: CartItem): string {
    if item.addedBy == "" then GUEST else item.addedBy
  }

  function OfMember(items: seq<CartItem>, name: string): seq<CartItem> {
    if items == [] then []
    else
      var last := items[|items| - 1];
      OfMember(items[..|items| - 1], name) + if NameOf(last) == name then [last] else []
  }

  function Worth(item: CartItem): nat {
    item.unitPrice * item.quantity
  }

  function SumShares(shares: seq<Share>): nat {
    if shares == [] then 0 else SumShares(shares[..|shares| - 1]) + shares[|shares| - 1].subtotal
  }

  lemma {:induction false} SumSharesUpdate(shares: seq<Share>, j: nat, share: Share)
    requires j < |shares|
    ensures SumShares(shares[j := share]) + shares[j].subtotal == SumShares(shares) + share.subtotal
  {
    var n := |shares| - 1;
    if j == n {
      assert shares[j := share][..n] == shares[..n];
    } else {
      assert shares[j := share][..n] == shares[..n][j := share];
      SumSharesUpdate(shares[..n], j, share);
    }
  }

  /** One share per member, with exactly that member's items and their value. */
  ghost predicate SplitsBill(shares: seq<Share>, items: seq<CartItem>) {
    && (forall i, j :: 0 <= i < j < |shares| ==> shares[i].name != shares[j].name)
    && (forall i :: 0 <= i < |shares| ==>
          shares[i].items == OfMember(items, shares[i].name) && shares[i].subtotal == Value(shares[i].items))
    && SumShares(shares) == Value(items)
  }

  predicate HasShare(shares: seq<Share>, name: string) {
    exists i :: 0 <= i < |shares| && shares[i].name == name
  }

  /** The map of groupByMember finds each member's share, and misses nobody with an item. */
  ghost predicate Indexes(index: map<string, nat>, shares: seq<Share>, items: seq<CartItem>) {
    && (forall name :: name in index ==> index[name] < |shares| && shares[index[name]].name == name)
    && (forall i :: 0 <= i < |shares| ==> shares[i].name in index)
    && (forall name :: name !in index ==> OfMember(items, name) == [])
  }

  lemma OfMemberAppend(items: seq<CartItem>, item: CartItem, name: string)
    ensures OfMember(items + [item], name) == OfMember(items, name) + if NameOf(item) == name then [item] else []
  {
    assert (items + [item])[..|items|] == items;
  }

  lemma ValueAppend(items: seq<CartItem>, item: CartItem)
    ensures Value(items + [item]) == Value(items) + Worth(item)
  {
    assert (items + [item])[..|items|] == items;
  }

  /** A new member starts with an empty share. */
  lemma NewShare(shares: seq<Share>, index: map<string, nat>, items: seq<CartItem>, name: string)
    requires SplitsBill(shares, items) && Indexes(index, shares, items) && name !in index
    ensures SplitsBill(shares + [Share(name, [], 0)], items)
    ensures Indexes(index[name := |shares|], shares + [Share(name, [], 0)], items)
  {
    hide SplitsBill, OfMember;
    NewShareSplits(shares, index, items, name);
  }

  lemma NewShareSplits(shares: seq<Share>, index: map<string, nat>, items: seq<CartItem>, name: string)
    requires SplitsBill(shares, items) && Indexes(index, shares, items) && name !in index
    ensures SplitsBill(shares + [Share(name, [], 0)], items)
  {
    hide OfMember;
    var shares' := shares + [Share(name, [], 0)];
    assert shares'[..|shares|] == shares;
    assert OfMember(items, name) == [] && forall i :: 0 <= i < |shares| ==> shares[i].name in index;
    forall i, j | 0 <= i < j < |shares'| ensures shares'[i].name != shares'[j].name {
    }
  }

  /** A member's items are those under that name, and no others. */
  lemma {:induction false} OfMemberAre(items: seq<CartItem>, name: string)
    ensures forall item :: item in OfMember(items, name) <==> item in items && NameOf(item) == name
  {
    if items != [] {
      OfMemberAre(items[..|items| - 1], name);
    }
  }

  lemma NoShares()
    ensures SplitsBill([], []) && Indexes(map[], [], [])
  {
  }

  /** The next item goes to its member's share and no other. */
  lemma NextItem(shares: seq<Share>, index: map<string, nat>, items: seq<CartItem>, item: CartItem)
    requires SplitsBill(shares, items) && Indexes(index, shares, items) && NameOf(item) in index
    ensures var j := index[NameOf(item)];
            var shares' := shares[j := Share(NameOf(item), shares[j].items + [item], shares[j].subtotal + Worth(item))];
            SplitsBill(shares', items + [item]) && Indexes(index, shares', items + [item])
  {
    hide OfMember, Value, SumShares;
    var j := index[NameOf(item)];
    var share := Share(NameOf(item), shares[j].items + [item], shares[j].subtotal + Worth(item));
    ValueAppend(items, item);
    ValueAppend(shares[j].items, item);
    SumSharesUpdate(shares, j, share);
    forall name
      ensures OfMember(items + [item], name) == OfMember(items, name) + if NameOf(item) == name then [item] else []
    {
      OfMemberAppend(items, item, name);
    }
  }

  /** groupByMember: the shares split the bill, and every item's member has one. */
  method GroupByMember(items: seq<CartItem>) returns (shares: seq<Share>)
    ensures SplitsBill(shares, items)
    ensures forall k :: 0 <= k < |items| ==> HasShare(shares, NameOf(items[k]))
  {
    hide SplitsBill, OfMember;
    shares := [];
    var index: map<string, nat> := map[];
    NoShares();
    for k := 0 to |items|
      invariant SplitsBill(shares, items[..k]) && Indexes(index, shares, items[..k])
      invariant forall i :: 0 <= i < k ==> NameOf(items[i]) in index
    {
      var item := items[k];
      var name := NameOf(item);
      if name !in index {
        NewShare(shares, index, items[..k], name);
        index := index[name := |shares|];
        shares := shares + [Share(name, [], 0)];
      }
      NextItem(shares, index, items[..k], item);
      assert items[..k] + [item] == items[..k + 1];
      var j := index[name];
      shares := shares[j := Share(name, shares[j].items + [item], shares[j].subtotal + item.unitPrice * item.quantity)];
    }
    assert items[..|items|] == items;
    forall k | 0 <= k < |items| ensures HasShare(shares, NameOf(items[k])) {
      assert shares[index[NameOf(items[k])]].name == NameOf(items[k]);
    }
  }

  // ---- The grand total ----

  /** The value of the items of all the rounds. */
  function InRounds(items: seq<CartItem>, rounds: seq<Round>): nat {
    if rounds == [] then 0
    else InRounds(items, rounds[..|rounds| - 1]) + Value(Linked(items, Some(rounds[|rounds| - 1].id)))
  }

  function ConfirmedTotals(rounds: seq<Round>): nat {
    if rounds == [] then 0
    else
      var last := rounds[|rounds| - 1];
      ConfirmedTotals(rounds[..|rounds| - 1]) + if last.status.RoundConfirmed? then last.total else 0
  }

  /** publicSession's grandTotal: the open cart and the confirmed rounds. */
  function GrandTotal(s: Session): nat {
    Value(Linked(s.items, None)) + ConfirmedTotals(s.rounds)
  }

  lemma LinkedWorth(items: seq<CartItem>, item: CartItem, round: Option<nat>)
    ensures Value(Linked(items + [item], round)) == Value(Linked(items, round))
        + if item.round == round then Worth(item) else 0
  {
    LinkedAppend(items, item, round);
    if item.round == round {
      ValueAppend(Linked(items, round), item);
    } else {
      assert Linked(items, round) + [] == Linked(items, round);
    }
  }

  lemma {:induction false} OneMoreItem(items: seq<CartItem>, item: CartItem, rounds: seq<Round>)
    requires RoundIdsUnique(rounds)
    ensures InRounds(items + [item], rounds)
         == InRounds(items, rounds) + if item.round.Some? && IsRound(rounds, item.round.value) then Worth(item) else 0
  {
    if rounds != [] {
      var n := |rounds| - 1;
      OneMoreItem(items, item, rounds[..n]);
      LinkedWorth(items, item, Some(rounds[n].id));
      if item.round == Some(rounds[n].id) {
        assert !IsRound(rounds[..n], rounds[n].id);
      } else if item.round.Some? && IsRound(rounds, item.round.value) {
        var k :| 0 <= k < |rounds| && rounds[k].id == item.round.value;
        assert rounds[..n][k].id == item.round.value;
      }
    }
  }

  lemma {:induction false} NoItems(rounds: seq<Round>)
    ensures InRounds([], rounds) == 0
  {
    if rounds != [] {
      NoItems(rounds[..|rounds| - 1]);
    }
  }

  /** Every item is in the cart or in exactly one round. */
  lemma {:induction false} CartAndRounds(items: seq<CartItem>, rounds: seq<Round>)
    requires RoundIdsUnique(rounds)
    requires forall i :: 0 <= i < |items| && items[i].round.Some? ==> IsRound(rounds, items[i].round.value)
    ensures Value(items) == Value(Linked(items, None)) + InRounds(items, rounds)
  {
    if items == [] {
      NoItems(rounds);
    } else {
      var init, last := items[..|items| - 1], items[|items| - 1];
      assert items == init + [last];
      CartAndRounds(init, rounds);
      OneMoreItem(init, last, rounds);
      ValueAppend(init, last);
      LinkedWorth(init, last, None);
    }
  }

  lemma {:induction false} ConfirmedAreInRounds(s: Session, n: nat)
    requires TotalsOk(s) && n <= ConfirmedCount(s.rounds) && forall k :: 0 <= k < n ==>
        s.rounds[k].status.RoundConfirmed?
    ensures ConfirmedTotals(s.rounds[..n]) == InRounds(s.items, s.rounds[..n])
  {
    if n > 0 {
      ConfirmedAreInRounds(s, n - 1);
      assert s.rounds[..n][..n - 1] == s.rounds[..n - 1];
    }
  }

  /** What the session shows as its grand total is the value of every item but those of a round
      that still waits or was cancelled: nothing is counted twice and nothing is lost. */
  lemma GrandTotalIsEverythingElse(s: Session)
    requires Shape(s)
    ensures ConfirmedCount(s.rounds) == |s.rounds| ==> GrandTotal(s) == Value(s.items)
    ensures ConfirmedCount(s.rounds) < |s.rounds| ==>
              GrandTotal(s) + Value(Linked(s.items, Some(s.rounds[|s.rounds| - 1].id))) == Value(s.items)
  {
    CartAndRounds(s.items, s.rounds);
    ConfirmedAreInRounds(s, ConfirmedCount(s.rounds));
    assert s.rounds[..|s.rounds|] == s.rounds;
  }
}
