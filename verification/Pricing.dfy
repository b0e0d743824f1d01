/** The pricing loops of createOrder (src/modules/orders/order.service.js:141-233): two
    batched queries and lookup maps, proved against pricing each item on its own. */
module Pricing {
  import opened Data

  datatype Selection = Selection(modifier: nat, quantity: nat)

  datatype ItemInput = ItemInput(product: nat, quantity: nat, modifiers: seq<Selection>, modifierIds: seq<nat>,
      round: nat)

  datatype ProductRow = ProductRow(id: nat, price: nat)

  datatype ModifierRow = ModifierRow(id: nat, product: nat, delta: nat, multiple: bool, maxQuantity: nat)

  // ---- What the price of an item is ----

  function Choices(item: ItemInput): seq<Selection> {
    if |item.modifiers| > 0 then item.modifiers
    else seq(|item.modifierIds|, i requires 0 <= i < |item.modifierIds| => Selection(item.modifierIds[i], 1))
  }

  function Ids(choices: seq<Selection>): set<nat> {
    set i | 0 <= i < |choices| :: choices[i].modifier
  }

  function Min(a: nat, b: nat): nat { if a <= b then a else b }

  function Max(a: nat, b: nat): nat { if a <= b then b else a }

  /** The surcharge of one modifier chosen `quantity` times. */
  function Surcharge(m: ModifierRow, quantity: nat): nat {
    m.delta * Min(Max(1, quantity), if m.multiple then m.maxQuantity else 1)
  }

  /** The surcharges of the first `n` choices: a modifier of another product, or one already
      chosen before, adds nothing. */
  ghost function Surcharges(mods: map<nat, ModifierRow>, product: nat, choices: seq<Selection>, n: nat): nat
    requires n <= |choices|
  {
    if n == 0 then 0
    else
      var c := choices[n - 1];
      Surcharges(mods, product, choices, n - 1) +
      if c.modifier in mods && mods[c.modifier].product == product && c.modifier !in Ids(choices[..n - 1])
      then Surcharge(mods[c.modifier], c.quantity) else 0
  }

  ghost function PricedLine(menu: map<nat, nat>, mods: map<nat, ModifierRow>, item: ItemInput): Line
    requires item.product in menu
  {
    var unit := menu[item.product] + Surcharges(mods, item.product, Choices(item), |Choices(item)|);
    Line(item.product, item.quantity, unit, unit * item.quantity, if item.round == 0 then 1 else item.round)
  }

  // ---- What the price amounts to ----

  lemma SurchargesOfOne(mods: map<nat, ModifierRow>, product: nat, choice: Selection)
    ensures Surcharges(mods, product, [choice], 1)
         == if choice.modifier in mods && mods[choice.modifier].product == product
            then Surcharge(mods[choice.modifier], choice.quantity) else 0
  {
    assert [choice][..0] == [];
    assert Surcharges(mods, product, [choice], 0) == 0;
  }

  /** An item with one modifier of its own product, chosen `q` times. A modifier that is not
      counted adds its price once, whatever was sent; one that is adds it for each piece, at least
      once and at most as often as it may. The line costs its unit price for each piece. */
  lemma OneModifierPrice(menu: map<nat, nat>, mods: map<nat, ModifierRow>, item: ItemInput, id: nat, q: nat)
    requires item.product in menu && id in mods && mods[id].product == item.product
    requires item.modifiers == [Selection(id, q)]
    ensures var line, m := PricedLine(menu, mods, item), mods[id];
            var extra := line.unitPrice - menu[item.product];
            && (!m.multiple ==> extra == m.delta)
            && (m.multiple && m.maxQuantity >= 1 ==>
                  && (q == 0 ==> extra == m.delta)
                  && (1 <= q <= m.maxQuantity ==> extra == m.delta * q)
                  && (q > m.maxQuantity ==> extra == m.delta * m.maxQuantity))
            && (m.multiple && m.maxQuantity == 0 ==> extra == 0)
  {
    SurchargesOfOne(mods, item.product, Selection(id, q));
  }

  /** A line is for its item: that product, that many pieces, at the price of the menu when no
      modifier is chosen, and its subtotal is the unit price for each piece. */
  lemma LineOfItem(menu: map<nat, nat>, mods: map<nat, ModifierRow>, item: ItemInput)
    requires item.product in menu
    ensures var line := PricedLine(menu, mods, item);
            && line.product == item.product && line.quantity == item.quantity
            && line.subtotal == line.unitPrice * line.quantity
            && line.unitPrice >= menu[item.product]
            && (item.modifiers == [] && item.modifierIds == [] ==> line.unitPrice == menu[item.product])
            && (item.round > 0 ==> line.round == item.round) && (item.round == 0 ==> line.round == 1)
  {
  }

  /** A plain list of modifier ids stands for one piece of each, and is ignored when modifiers with
      quantities are sent. */
  lemma PlainIds(menu: map<nat, nat>, mods: map<nat, ModifierRow>, item: ItemInput)
    requires item.product in menu
    ensures item.modifiers != [] ==> PricedLine(menu, mods, item) == PricedLine(menu, mods, item.(modifierIds := []))
    ensures forall id: nat :: item.modifiers == [] && item.modifierIds == [id] ==>
              PricedLine(menu, mods, item) == PricedLine(menu, mods, item.(modifiers := [Selection(id, 1)]))
  {
    forall id: nat | item.modifiers == [] && item.modifierIds == [id]
      ensures PricedLine(menu, mods, item) == PricedLine(menu, mods, item.(modifiers := [Selection(id, 1)]))
    {
      assert Choices(item) == [Selection(id, 1)];
    }
  }

  lemma {:induction false} SurchargesPrefix(mods: map<nat, ModifierRow>, product: nat, choices: seq<Selection>,
      more: seq<Selection>, n: nat)
    requires n <= |choices|
    ensures Surcharges(mods, product, choices + more, n) == Surcharges(mods, product, choices, n)
  {
    if n > 0 {
      SurchargesPrefix(mods, product, choices, more, n - 1);
      assert (choices + more)[..n - 1] == choices[..n - 1];
    }
  }

  predicate ChosenIn(choices: seq<Selection>, id: nat) {
    exists i :: 0 <= i < |choices| && choices[i].modifier == id
  }

  /** One more selection. A modifier chosen before, or one of another product, adds nothing; a new
      one adds what it would add if it were chosen alone. */
  lemma OneMoreModifier(menu: map<nat, nat>, mods: map<nat, ModifierRow>, item: ItemInput, choice: Selection)
    requires item.product in menu && item.modifiers != []
    ensures var before := PricedLine(menu, mods, item);
            var after := PricedLine(menu, mods, item.(modifiers := item.modifiers + [choice]));
            var alone := PricedLine(menu, mods, item.(modifiers := [choice]));
            && (ChosenIn(item.modifiers, choice.modifier) ==> after == before)
            && (choice.modifier in mods && mods[choice.modifier].product != item.product ==> after == before)
            && (choice.modifier !in mods ==> after == before)
            && (!ChosenIn(item.modifiers, choice.modifier) ==>
                  after.unitPrice - before.unitPrice == alone.unitPrice - menu[item.product])
  {
    var all := item.modifiers + [choice];
    assert all[..|item.modifiers|] == item.modifiers;
    SurchargesPrefix(mods, item.product, item.modifiers, [choice], |item.modifiers|);
    SurchargesOfOne(mods, item.product, choice);
    assert ChosenIn(item.modifiers, choice.modifier) <==> choice.modifier in Ids(item.modifiers);
  }

  // ---- What the database may answer ----

  /** The available products among `ids`, once each and in any order. */
  ghost predicate ProductAnswer(rows: seq<ProductRow>, menu: map<nat, nat>, ids: set<nat>) {
    && (forall i, j :: 0 <= i < j < |rows| ==> rows[i].id != rows[j].id)
    && (forall i :: 0 <= i < |rows| ==> rows[i].id in menu && menu[rows[i].id] == rows[i].price)
    && (forall id :: id in ids && id in menu ==> exists i :: 0 <= i < |rows| && rows[i].id == id)
  }

  /** The live modifiers among `ids`, once each and in any order. */
  ghost predicate ModifierAnswer(rows: seq<ModifierRow>, mods: map<nat, ModifierRow>, ids: set<nat>) {
    && (forall i, j :: 0 <= i < j < |rows| ==> rows[i].id != rows[j].id)
    && (forall i :: 0 <= i < |rows| ==> rows[i].id in mods && mods[rows[i].id] == rows[i])
    && (forall id :: id in ids && id in mods ==> exists i :: 0 <= i < |rows| && rows[i].id == id)
  }

  ghost predicate KeyedById(mods: map<nat, ModifierRow>) {
    forall id :: id in mods ==> mods[id].id == id
  }

  // ---- The sum does not depend on the order of the rows ----

  function FirstQuantity(choices: seq<Selection>, id: nat): nat
    requires id in Ids(choices)
  {
    if choices[0].modifier == id then choices[0].quantity else FirstQuantity(choices[1..], id)
  }

  lemma {:induction false} FirstQuantityAt(choices: seq<Selection>, n: nat)
    requires n < |choices|
    requires choices[n].modifier !in Ids(choices[..n])
    ensures FirstQuantity(choices, choices[n].modifier) == choices[n].quantity
  {
    if n > 0 {
      assert choices[..n][0].modifier in Ids(choices[..n]);
      forall id | id in Ids(choices[1..][..n - 1]) ensures id in Ids(choices[..n]) {
        var i :| 0 <= i < n - 1 && choices[1..][..n - 1][i].modifier == id;
        assert choices[..n][i + 1].modifier == id;
      }
      FirstQuantityAt(choices[1..], n - 1);
    }
  }

  function Part(mods: map<nat, ModifierRow>, product: nat, choices: seq<Selection>, id: nat): nat {
    if id in mods && mods[id].product == product && id in Ids(choices)
    then Surcharge(mods[id], FirstQuantity(choices, id)) else 0
  }

  ghost function PartsOf(mods: map<nat, ModifierRow>, product: nat, choices: seq<Selection>, ids: set<nat>): nat {
    if ids == {} then 0
    else var x :| x in ids; Part(mods, product, choices, x) + PartsOf(mods, product, choices, ids - {x})
  }

  lemma {:induction false} PartsOfRemove(mods: map<nat, ModifierRow>, product: nat, choices: seq<Selection>,
      ids: set<nat>, x: nat)
    requires x in ids
    ensures PartsOf(mods, product, choices, ids)
         == Part(mods, product, choices, x) + PartsOf(mods, product, choices, ids - {x})
    decreases |ids|
  {
    var y :| y in ids && PartsOf(mods, product, choices, ids)
                      == Part(mods, product, choices, y) + PartsOf(mods, product, choices, ids - {y});
    if y != x {
      PartsOfRemove(mods, product, choices, ids - {y}, x);
      PartsOfRemove(mods, product, choices, ids - {x}, y);
      assert ids - {y} - {x} == ids - {x} - {y};
    }
  }

  /** Only chosen modifiers of the product itself contribute. */
  lemma {:induction false} PartsOfRelevant(mods: map<nat, ModifierRow>, product: nat, choices: seq<Selection>,
      ids: set<nat>, same: set<nat>)
    requires forall id :: Part(mods, product, choices, id) != 0 ==> (id in ids <==> id in same)
    ensures PartsOf(mods, product, choices, ids) == PartsOf(mods, product, choices, same)
    decreases |ids| + |same|
  {
    if x :| x in ids && x in same {
      PartsOfRemove(mods, product, choices, ids, x);
      PartsOfRemove(mods, product, choices, same, x);
      PartsOfRelevant(mods, product, choices, ids - {x}, same - {x});
    } else if x :| x in ids {
      PartsOfRemove(mods, product, choices, ids, x);
      PartsOfRelevant(mods, product, choices, ids - {x}, same);
    } else if x :| x in same {
      PartsOfRemove(mods, product, choices, same, x);
      PartsOfRelevant(mods, product, choices, ids, same - {x});
    }
  }

  lemma {:induction false} SurchargesAreParts(mods: map<nat, ModifierRow>, product: nat, choices: seq<Selection>,
      n: nat)
    requires n <= |choices|
    ensures Surcharges(mods, product, choices, n) == PartsOf(mods, product, choices, Ids(choices[..n]))
  {
    if n > 0 {
      SurchargesAreParts(mods, product, choices, n - 1);
      var c := choices[n - 1];
      var before, after := Ids(choices[..n - 1]), Ids(choices[..n]);
      assert after == before + {c.modifier} by {
        assert choices[..n][n - 1] == c;
        forall id | id in before ensures id in after {
          var i :| 0 <= i < n - 1 && choices[..n - 1][i].modifier == id;
          assert choices[..n][i].modifier == id;
        }
      }
      if c.modifier in before {
        assert after == before;
      } else {
        FirstQuantityAt(choices, n - 1);
        assert c.modifier in Ids(choices);
        PartsOfRemove(mods, product, choices, after, c.modifier);
        assert after - {c.modifier} == before;
      }
    }
  }

  /** The rows of one product, in the order the database returned them. */
  function OfProduct(rows: seq<ModifierRow>, product: nat): seq<ModifierRow> {
    if rows == [] then []
    else
      var last := rows[|rows| - 1];
      OfProduct(rows[..|rows| - 1], product) + if last.product == product then [last] else []
  }

  ghost function RowIds(rows: seq<ModifierRow>): set<nat> {
    set i | 0 <= i < |rows| :: rows[i].id
  }

  lemma {:induction false} OfProductRows(rows: seq<ModifierRow>, product: nat)
    ensures forall i :: 0 <= i < |OfProduct(rows, product)| ==>
        OfProduct(rows, product)[i] in rows && OfProduct(rows, product)[i].product == product
    ensures forall r :: r in rows && r.product == product ==> r in OfProduct(rows, product)
    ensures (forall i, j :: 0 <= i < j < |rows| ==> rows[i].id != rows[j].id)
        ==> forall i, j :: 0 <= i < j < |OfProduct(rows, product)| ==>
            OfProduct(rows, product)[i].id != OfProduct(rows, product)[j].id
  {
    if rows != [] {
      OfProductRows(rows[..|rows| - 1], product);
    }
  }

  /** Adding the parts of the rows, one by one, adds them over the set of their ids. */
  lemma PartsOfRows(mods: map<nat, ModifierRow>, product: nat, choices: seq<Selection>, rows: seq<ModifierRow>, k: nat)
    requires k < |rows|
    requires forall i, j :: 0 <= i < j < |rows| ==> rows[i].id != rows[j].id
    ensures PartsOf(mods, product, choices, RowIds(rows[..k + 1]))
         == PartsOf(mods, product, choices, RowIds(rows[..k])) + Part(mods, product, choices, rows[k].id)
  {
    var all := RowIds(rows[..k + 1]);
    assert rows[..k + 1][k] == rows[k];
    assert all - {rows[k].id} == RowIds(rows[..k]) by {
      forall id | id in RowIds(rows[..k]) ensures id in all {
        var i :| 0 <= i < k && rows[..k][i].id == id;
        assert rows[..k + 1][i].id == id;
      }
    }
    PartsOfRemove(mods, product, choices, all, rows[k].id);
  }

  lemma AllRowsCount(mods: map<nat, ModifierRow>, product: nat, choices: seq<Selection>, rows: seq<ModifierRow>,
      own: seq<ModifierRow>, ids: set<nat>)
    requires KeyedById(mods) && ModifierAnswer(rows, mods, ids) && Ids(choices) <= ids
    requires own == OfProduct(rows, product)
    ensures PartsOf(mods, product, choices, RowIds(own)) == Surcharges(mods, product, choices, |choices|)
  {
    SurchargesAreParts(mods, product, choices, |choices|);
    assert choices[..|choices|] == choices;
    OfProductRows(rows, product);
    forall id | Part(mods, product, choices, id) != 0 ensures id in RowIds(own) <==> id in Ids(choices) {
      var i :| 0 <= i < |rows| && rows[i].id == id;
      assert rows[i] in own;
      var j :| 0 <= j < |own| && own[j] == rows[i];
      assert own[j].id == id;
    }
    PartsOfRelevant(mods, product, choices, RowIds(own), Ids(choices));
  }

  // ---- The loops ----

  /** Groups the modifier rows by product, keeping their order. */
  method GroupByProduct(rows: seq<ModifierRow>) returns (byProduct: map<nat, seq<ModifierRow>>)
    ensures forall p: nat :: OfProduct(rows, p) == if p in byProduct then byProduct[p] else []
  {
    byProduct := map[];
    for k := 0 to |rows|
      invariant forall p: nat :: OfProduct(rows[..k], p) == if p in byProduct then byProduct[p] else []
    {
      assert rows[..k + 1][..k] == rows[..k];
      if rows[k].product !in byProduct {
        byProduct := byProduct[rows[k].product := []];
      }
      byProduct := byProduct[rows[k].product := byProduct[rows[k].product] + [rows[k]]];
    }
    assert rows[..|rows|] == rows;
  }

  method IndexById(rows: seq<ProductRow>) returns (byId: map<nat, ProductRow>)
    requires forall i, j :: 0 <= i < j < |rows| ==> rows[i].id != rows[j].id
    ensures forall id :: id in byId <==> exists i :: 0 <= i < |rows| && rows[i].id == id
    ensures forall i :: 0 <= i < |rows| ==> byId[rows[i].id] == rows[i]
  {
    byId := map[];
    for k := 0 to |rows|
      invariant forall id :: id in byId <==> exists i :: 0 <= i < k && rows[i].id == id
      invariant forall i :: 0 <= i < k ==> byId[rows[i].id] == rows[i]
    {
      byId := byId[rows[k].id := rows[k]];
    }
  }

  /** The modifier loop of one item. */
  method ModifiersTotal(own: seq<ModifierRow>, choices: seq<Selection>, ghost mods: map<nat, ModifierRow>,
      ghost product: nat)
    returns (total: nat)
    requires forall i, j :: 0 <= i < j < |own| ==> own[i].id != own[j].id
    requires forall i :: 0 <= i < |own| ==> own[i].id in mods && mods[own[i].id] == own[i] && own[i].product == product
    ensures total == PartsOf(mods, product, choices, RowIds(own))
  {
    total := 0;
    for k := 0 to |own|
      invariant total == PartsOf(mods, product, choices, RowIds(own[..k]))
    {
      PartsOfRows(mods, product, choices, own, k);
      if own[k].id in Ids(choices) {
        var quantity := FirstQuantity(choices, own[k].id);
        total := total + Surcharge(own[k], quantity);
      }
    }
    assert own[..|own|] == own;
  }

  function ProductIds(items: seq<ItemInput>): set<nat> {
    set i | 0 <= i < |items| :: items[i].product
  }

  function ChoiceIds(items: seq<ItemInput>): set<nat> {
    set i, j | 0 <= i < |items| && 0 <= j < |Choices(items[i])| :: Choices(items[i])[j].modifier
  }

  lemma ChosenAreQueried(items: seq<ItemInput>, k: nat)
    requires k < |items|
    ensures Ids(Choices(items[k])) <= ChoiceIds(items)
  {
  }

  /** One turn of the item loop. */
  method PriceItem(item: ItemInput, product: ProductRow, own: seq<ModifierRow>, ghost rows: seq<ModifierRow>,
                   ghost ids: set<nat>, ghost menu: map<nat, nat>, ghost mods: map<nat, ModifierRow>)
    returns (line: Line)
    requires KeyedById(mods) && ModifierAnswer(rows, mods, ids) && Ids(Choices(item)) <= ids
    requires item.product == product.id && product.id in menu && menu[product.id] == product.price
    requires own == OfProduct(rows, product.id)
    ensures line == PricedLine(menu, mods, item)
  {
    hide Surcharges, PartsOf, OfProduct, Ids;
    var choices := Choices(item);
    OfProductRows(rows, product.id);
    var extra := ModifiersTotal(own, choices, mods, product.id);
    AllRowsCount(mods, product.id, choices, rows, own, ids);
    var unitPrice := product.price + extra;
    line := Line(product.id, item.quantity, unitPrice, unitPrice * item.quantity, if item.round == 0 then 1
        else item.round);
  }

  /** The item loop, over the answers of the two queries. */
  method PriceAll(items: seq<ItemInput>, found: seq<ProductRow>, rows: seq<ModifierRow>,
                  ghost menu: map<nat, nat>, ghost mods: map<nat, ModifierRow>)
    returns (r: Result<seq<Line>>, subtotal: nat)
    requires KeyedById(mods)
    requires ProductAnswer(found, menu, ProductIds(items))
    requires ModifierAnswer(rows, mods, ChoiceIds(items))
    ensures r.Ok? <==> forall i :: 0 <= i < |items| ==> items[i].product in menu
    ensures r.Err? ==> r.error == NotFound
    ensures r.Ok? ==> |r.value| == |items| && subtotal == Sum(r.value)
    ensures r.Ok? ==> forall i :: 0 <= i < |items| ==> r.value[i] == PricedLine(menu, mods, items[i])
  {
    hide PricedLine, OfProduct, ModifierAnswer, KeyedById, Choices;
    var productById := IndexById(found);
    var byProduct := GroupByProduct(rows);
    var lines: seq<Line> := [];
    subtotal := 0;
    for k := 0 to |items|
      invariant |lines| == k && subtotal == Sum(lines)
      invariant forall i :: 0 <= i < k ==> items[i].product in menu && lines[i] == PricedLine(menu, mods, items[i])
    {
      var item := items[k];
      assert item.product in ProductIds(items);
      if item.product !in productById {
        assert item.product !in menu;
        return Err(NotFound), 0;
      }
      var own := if item.product in byProduct then byProduct[item.product] else [];
      ChosenAreQueried(items, k);
      var line := PriceItem(item, productById[item.product], own, rows, ChoiceIds(items), menu, mods);
      SumConcat(lines, [line]);
      subtotal := subtotal + line.subtotal;
      lines := lines + [line];
    }
    r := Ok(lines);
  }

  /** Prices a whole payload. Whatever order the two queries answer in, each line is what
      pricing its item alone gives, and the subtotal is their sum; the payload is refused
      exactly when some product is not available. */
  method PriceItems(items: seq<ItemInput>, findProducts: set<nat> -> seq<ProductRow>,
      findModifiers: set<nat> -> seq<ModifierRow>,
                    ghost menu: map<nat, nat>, ghost mods: map<nat, ModifierRow>)
    returns (r: Result<seq<Line>>, subtotal: nat)
    requires KeyedById(mods)
    requires forall ids :: ProductAnswer(findProducts(ids), menu, ids)
    requires forall ids :: ModifierAnswer(findModifiers(ids), mods, ids)
    ensures r.Ok? <==> forall i :: 0 <= i < |items| ==> items[i].product in menu
    ensures r.Err? ==> r.error == NotFound
    ensures r.Ok? ==> |r.value| == |items| && subtotal == Sum(r.value)
    ensures r.Ok? ==> forall i :: 0 <= i < |items| ==> r.value[i] == PricedLine(menu, mods, items[i])
  {
    var modifierIds := ChoiceIds(items);
    var found := findProducts(ProductIds(items));
    var rows := if |modifierIds| > 0 then findModifiers(modifierIds) else [];
    r, subtotal := PriceAll(items, found, rows, menu, mods);
  }
}
