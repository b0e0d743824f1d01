/** The WhatsApp ordering bot (src/modules/whatsapp-automation/automation.service.js:33-71,
    73-370 and automation.repository.js:71-104): one conversation, message by message. */
module Conversation {
  import opened Data

  datatype Flow = Welcome | MainMenu | ProductSelect | InCart | AskAddress | ConfirmOrder

  datatype Handling = Active | WaitingAgent | ClosedByStaff

  datatype CartLine = CartLine(product: nat, unitPrice: nat, quantity: nat)

  /** `picks` records every product chosen since the cart was last emptied. */
  datatype Conv = Conv(status: Handling, flow: Flow, cart: seq<CartLine>, address: string, category: Option<nat>,
      picks: seq<nat>)

  /** A trimmed, non-empty text, by what the bot looks for in it. Any combination may occur:
      keywords are searched for inside the text, `number` is its leading integer. */
  datatype Message = Message(text: string, reset: bool, menu: bool, cart: bool, checkout: bool, track: bool,
                             help: bool, agent: bool, confirm: bool, number: Option<int>, digit: Option<nat>)

  datatype Product = Product(id: nat, price: nat)

  /** What the bot is told while it handles a message: the categories, the products of a
      category, whether a branch exists and whether creating the order succeeded. */
  datatype World = World(categories: seq<nat>, products: map<nat, seq<Product>>, hasBranch: bool, orderOk: bool)

  const NEW_CONVERSATION := Conv(Active, Welcome, [], "", None, [])

  /** The entry a customer means by sending `number`, counting from one. */
  function Chosen<T>(number: Option<int>, among: seq<T>): Option<T> {
    if number.Some? && 1 <= number.value <= |among| then Some(among[number.value - 1]) else None
  }

  function ProductsOf(w: World, category: nat): seq<Product> {
    if category in w.products then w.products[category] else []
  }

  // ---- The cart ----

  function AddToCart(cart: seq<CartLine>, p: Product): seq<CartLine> {
    if cart == [] then [CartLine(p.id, p.price, 1)]
    else if cart[0].product == p.id then [cart[0].(quantity := cart[0].quantity + 1)] + cart[1..]
    else [cart[0]] + AddToCart(cart[1..], p)
  }

  function Times(picks: seq<nat>, product: nat): nat {
    if picks == [] then 0
    else Times(picks[..|picks| - 1], product) + if picks[|picks| - 1] == product then 1 else 0
  }

  function QuantityOf(cart: seq<CartLine>, product: nat): nat {
    if cart == [] then 0
    else if cart[0].product == product then cart[0].quantity
    else QuantityOf(cart[1..], product)
  }

  ghost predicate DistinctLines(cart: seq<CartLine>) {
    forall i, j :: 0 <= i < j < |cart| ==> cart[i].product != cart[j].product
  }

  /** The cart lists each product once, with the number of times it was chosen. */
  ghost predicate CartOk(cart: seq<CartLine>, picks: seq<nat>) {
    && DistinctLines(cart)
    && (forall i :: 0 <= i < |cart| ==> cart[i].quantity >= 1)
    && forall p: nat :: QuantityOf(cart, p) == Times(picks, p)
  }

  lemma {:induction false} AddToCartQuantity(cart: seq<CartLine>, p: Product, q: nat)
    ensures QuantityOf(AddToCart(cart, p), q) == QuantityOf(cart, q) + if q == p.id then 1 else 0
  {
    if cart != [] && cart[0].product != p.id {
      AddToCartQuantity(cart[1..], p, q);
      assert AddToCart(cart, p)[1..] == AddToCart(cart[1..], p);
    } else if cart != [] {
      assert AddToCart(cart, p)[1..] == cart[1..];
    }
  }

  lemma {:induction false} AddToCartProducts(cart: seq<CartLine>, p: Product)
    requires forall i :: 0 <= i < |cart| ==> cart[i].quantity >= 1
    ensures AddToCart(cart, p) != []
    ensures forall line :: line in AddToCart(cart, p) ==>
              && line.quantity >= 1
              && (line.product == p.id || exists other :: other in cart && other.product == line.product)
  {
    if cart != [] && cart[0].product != p.id {
      AddToCartProducts(cart[1..], p);
    }
  }

  lemma {:induction false} AddToCartDistinct(cart: seq<CartLine>, p: Product)
    requires DistinctLines(cart) && forall i :: 0 <= i < |cart| ==> cart[i].quantity >= 1
    ensures DistinctLines(AddToCart(cart, p))
  {
    if cart != [] && cart[0].product != p.id {
      var rest := AddToCart(cart[1..], p);
      AddToCartDistinct(cart[1..], p);
      AddToCartProducts(cart[1..], p);
      assert AddToCart(cart, p) == [cart[0]] + rest;
      forall j | 0 <= j < |rest| ensures rest[j].product != cart[0].product {
        assert rest[j] in rest;
      }
    }
  }

  /** Choosing a product raises its quantity by one, and no other; each is still listed once. */
  lemma AddToCartEffect(cart: seq<CartLine>, p: Product)
    requires DistinctLines(cart) && forall i :: 0 <= i < |cart| ==> cart[i].quantity >= 1
    ensures var cart' := AddToCart(cart, p);
            && cart' != [] && DistinctLines(cart')
            && (forall i :: 0 <= i < |cart'| ==> cart'[i].quantity >= 1)
            && (forall line :: line in cart' ==>
                  line.product == p.id || exists other :: other in cart && other.product == line.product)
            && forall q: nat :: QuantityOf(cart', q) == QuantityOf(cart, q) + if q == p.id then 1 else 0
  {
    hide AddToCart, QuantityOf;
    AddToCartProducts(cart, p);
    AddToCartDistinct(cart, p);
    forall q: nat ensures QuantityOf(AddToCart(cart, p), q) == QuantityOf(cart, q) + if q == p.id then 1 else 0 {
      AddToCartQuantity(cart, p, q);
    }
  }

  lemma AddKeepsCart(cart: seq<CartLine>, picks: seq<nat>, p: Product)
    requires CartOk(cart, picks)
    ensures AddToCart(cart, p) != [] && CartOk(AddToCart(cart, p), picks + [p.id])
  {
    AddToCartEffect(cart, p);
    assert (picks + [p.id])[..|picks|] == picks;
  }

  // ---- One message ----

  function Reopen(c: Conv): Conv {
    if c.status.ClosedByStaff? then NEW_CONVERSATION else c
  }

  function ShowCategories(c: Conv, w: World): Conv {
    if w.categories == [] then c else c.(flow := MainMenu)
  }

  function ShowCart(c: Conv): Conv {
    if c.cart == [] then c else c.(flow := InCart)
  }

  function PromptAddress(c: Conv): Conv {
    if c.cart == [] then c else c.(flow := AskAddress)
  }

  function Handoff(c: Conv): Conv {
    c.(status := WaitingAgent)
  }

  function PickCategory(c: Conv, m: Message, w: World): Option<Conv> {
    var category := Chosen(m.number, w.categories);
    if c.flow.MainMenu? && category.Some? then
      Some(if ProductsOf(w, category.value) == [] then c else c.(flow := ProductSelect, category := category))
    else None
  }

  function PickProduct(c: Conv, m: Message, w: World): Option<Conv> {
    if c.flow.ProductSelect? && c.category.Some? then
      var product := Chosen(m.number, ProductsOf(w, c.category.value));
      if product.Some?
      then Some(c.(flow := InCart, cart := AddToCart(c.cart, product.value), picks := c.picks + [product.value.id]))
      else None
    else None
  }

  function PlaceOrder(c: Conv, w: World): Conv {
    if c.cart == [] || !w.hasBranch || !w.orderOk then c
    else c.(flow := Welcome, cart := [], address := "", category := None, picks := [])
  }

  function ByDigit(c: Conv, m: Message, w: World): Conv {
    if m.digit == Some(1) then ShowCategories(c, w)
    else if m.digit == Some(2) then ShowCart(c)
    else if m.digit == Some(3) then PromptAddress(c)
    else if m.digit == Some(6) then Handoff(c)
    else c
  }

  /** The state-dependent part, after the keywords. */
  function ByFlow(c: Conv, m: Message, w: World): Conv {
    if PickCategory(c, m, w).Some? then PickCategory(c, m, w).value
    else if PickProduct(c, m, w).Some? then PickProduct(c, m, w).value
    else if c.flow.AskAddress? then c.(flow := ConfirmOrder, address := m.text)
    else if c.flow.ConfirmOrder? && m.confirm then PlaceOrder(c, w)
    else ByDigit(c, m, w)
  }

  /** handleInboundMessage */
  function Handle(before: Conv, m: Message, w: World): Conv {
    var c := Reopen(before);
    if m.reset then NEW_CONVERSATION
    else if c.status.WaitingAgent? then c
    else if m.menu then ShowCategories(c, w)
    else if m.cart then ShowCart(c)
    else if m.checkout then PromptAddress(c)
    else if m.track || m.help then c
    else if m.agent then Handoff(c)
    else ByFlow(c, m, w)
  }

  datatype Event = Inbound(message: Message, world: World) | StaffHandoff | StaffClose

  function Step(c: Conv, e: Event): Conv {
    match e
    case Inbound(m, w) => if m.text == "" then c else Handle(c, m, w)
    case StaffHandoff => Handoff(c)
    case StaffClose => c.(status := ClosedByStaff)
  }

  // ---- Over all conversations ----

  ghost predicate Inv(c: Conv) {
    && CartOk(c.cart, c.picks)
    && (c.flow.InCart? || c.flow.AskAddress? || c.flow.ConfirmOrder? ==> c.cart != [])
    && (c.flow.ConfirmOrder? ==> c.address != "")
    && (c.flow.ProductSelect? ==> c.category.Some?)
  }

  lemma FlowKeepsInv(c: Conv, m: Message, w: World)
    requires Inv(c) && m.text != ""
    ensures Inv(ByFlow(c, m, w))
  {
    hide CartOk;
    EmptyCartOk();
    if PickProduct(c, m, w).Some? {
      AddKeepsCart(c.cart, c.picks, Chosen(m.number, ProductsOf(w, c.category.value)).value);
    }
  }

  lemma EmptyCartOk()
    ensures CartOk([], [])
  {
  }

  lemma StepKeepsInv(c: Conv, e: Event)
    requires Inv(c)
    ensures Inv(Step(c, e))
  {
    hide CartOk, ByFlow;
    EmptyCartOk();
    if e.Inbound? && e.message.text != "" {
      assert Inv(Reopen(c));
      FlowKeepsInv(Reopen(c), e.message, e.world);
    }
  }

  function Run(c: Conv, es: seq<Event>): Conv
    decreases |es|
  {
    if es == [] then c else Run(Step(c, es[0]), es[1..])
  }

  /** In every reachable conversation the later states imply a cart, an address or a category,
      and the cart holds each product once with exactly the number of times it was chosen since
      the last reset, reopening or successful order. */
  lemma {:induction false} RunKeepsInv(c: Conv, es: seq<Event>)
    requires Inv(c)
    ensures Inv(Run(c, es))
    decreases |es|
  {
    hide Inv, Step;
    if es != [] {
      StepKeepsInv(c, es[0]);
      RunKeepsInv(Step(c, es[0]), es[1..]);
    }
  }

  /** Every conversation there can be: it starts new. */
  lemma AnyConversation(es: seq<Event>)
    ensures Inv(Run(NEW_CONVERSATION, es))
  {
    EmptyCartOk();
    RunKeepsInv(NEW_CONVERSATION, es);
  }

  /** A message either leaves the recorded choices as they are, adds the product picked, or
      starts them over; they start over only on a reset, a reopening or a placed order. */
  lemma PicksChangeOnlyBy(c: Conv, e: Event)
    ensures var c' := Step(c, e);
            || c'.picks == c.picks
            || (e.Inbound? && c.flow.ProductSelect? && c.category.Some? && c'.flow.InCart?
                && (var chosen := Chosen(e.message.number, ProductsOf(e.world, c.category.value));
                    chosen.Some? && c'.picks == c.picks + [chosen.value.id] &&
                        c'.cart == AddToCart(c.cart, chosen.value)))
            || (c'.picks == [] && c'.cart == [] && e.Inbound?
                && (e.message.reset || c.status.ClosedByStaff? ||
                    (c.flow.ConfirmOrder? && e.message.confirm && e.world.orderOk)))
  {
    hide AddToCart;
  }

  // ---- What the messages do ----

  /** The event cannot take a conversation from the agent it waits for. */
  predicate LeavesAgent(e: Event) {
    e.Inbound? ==> e.message.text == "" || !e.message.reset
  }

  /** While an agent is awaited the bot stays silent: over any messages without a reset word, until
      staff close it, nothing in the conversation changes. */
  lemma {:induction false} AgentPausesBot(c: Conv, es: seq<Event>)
    requires c.status.WaitingAgent?
    requires forall i :: 0 <= i < |es| ==> LeavesAgent(es[i]) && !es[i].StaffClose?
    ensures Run(c, es) == c
    decreases |es|
  {
    if es != [] {
      assert LeavesAgent(es[0]);
      AgentPausesBot(Step(c, es[0]), es[1..]);
    }
  }

  /** A reset word always starts the conversation over, and so does any message after staff closed it. */
  lemma StartsOver(c: Conv, m: Message, w: World)
    requires m.text != ""
    ensures m.reset ==> Step(c, Inbound(m, w)) == Conv(Active, Welcome, [], "", None, [])
    ensures c.status.ClosedByStaff? ==>
              Step(c, Inbound(m, w)) == Step(Conv(Active, Welcome, [], "", None, []), Inbound(m, w))
  {
  }

  /** The text has none of the words that are understood in every state. */
  predicate Plain(m: Message) {
    m.text != "" && !m.reset && !m.menu && !m.cart && !m.checkout && !m.track && !m.help && !m.agent
  }

  /** Confirming places the order exactly when there is something in the cart, a branch, and the order
      service takes it; the conversation is then a new one but for its handling, and otherwise stays. */
  lemma ConfirmPlaces(c: Conv, m: Message, w: World)
    requires c.status.Active? && c.flow.ConfirmOrder? && Plain(m) && m.confirm
    ensures Step(c, Inbound(m, w))
         == if c.cart != [] && w.hasBranch && w.orderOk then Conv(Active, Welcome, [], "", None, []) else c
  {
  }

  /** What the words understood in every state do, first come first: the menu is shown if there is a
      category, the cart and the question for the address if the cart holds something, an agent is
      called; nothing else changes. */
  lemma WordsDo(c: Conv, m: Message, w: World)
    requires c.status.Active? && m.text != "" && !m.reset
    ensures var c' := Step(c, Inbound(m, w));
            if m.menu then c' == c.(flow := if w.categories != [] then MainMenu else c.flow)
            else if m.cart then c' == c.(flow := if c.cart != [] then InCart else c.flow)
            else if m.checkout then c' == c.(flow := if c.cart != [] then AskAddress else c.flow)
            else if m.track || m.help then c' == c
            else m.agent ==> c' == c.(status := WaitingAgent)
  {
  }

  /** The digits of the welcome text, where no choice, address or confirmation is waited for: 1 is the
      menu, 2 the cart, 3 the address, 6 an agent; any other plain text changes nothing. */
  lemma DigitsDo(c: Conv, m: Message, w: World)
    requires c.status.Active? && c.flow in {Welcome, InCart} && Plain(m)
    ensures var c' := Step(c, Inbound(m, w));
            match m.digit
            case Some(n) =>
              if n == 1 then c' == c.(flow := if w.categories != [] then MainMenu else c.flow)
              else if n == 2 then c' == c.(flow := if c.cart != [] then InCart else c.flow)
              else if n == 3 then c' == c.(flow := if c.cart != [] then AskAddress else c.flow)
              else if n == 6 then c' == c.(status := WaitingAgent)
              else c' == c
            case None => c' == c
  {
  }

  /** Staff may take the conversation over or close it, whatever state it is in, and change nothing
      else of it. */
  lemma StaffDo(c: Conv)
    ensures Step(c, StaffHandoff) == c.(status := WaitingAgent)
    ensures Step(c, StaffClose) == c.(status := ClosedByStaff)
  {
  }

  /** A number among the products of the chosen category puts that product, counted from one, in the
      cart; a number among the categories chooses that category if it has products. */
  lemma NumbersChoose(c: Conv, m: Message, w: World, n: nat)
    requires c.status.Active? && Plain(m) && m.number == Some(n) && n >= 1
    ensures var c' := Step(c, Inbound(m, w));
            && (c.flow.MainMenu? && n <= |w.categories| ==>
                  var category := w.categories[n - 1];
                  c' == if category in w.products && w.products[category] != []
                        then c.(flow := ProductSelect, category := Some(category)) else c)
            && (c.flow.ProductSelect? && c.category.Some? && c.category.value in w.products
                && n <= |w.products[c.category.value]| ==>
                  var product := w.products[c.category.value][n - 1];
                  && c'.flow.InCart? && QuantityOf(c'.cart, product.id) == QuantityOf(c.cart, product.id) + 1
                  && forall q: nat :: q != product.id ==> QuantityOf(c'.cart, q) == QuantityOf(c.cart, q))
  {
    hide AddToCart, QuantityOf;
    if c.flow.ProductSelect? && c.category.Some? && c.category.value in w.products {
      var products := w.products[c.category.value];
      if n <= |products| {
        forall q: nat
          ensures QuantityOf(AddToCart(c.cart, products[n - 1]), q)
               == QuantityOf(c.cart, q) + if q == products[n - 1].id then 1 else 0
        {
          AddToCartQuantity(c.cart, products[n - 1], q);
        }
      }
    }
  }

  /** Any plain text is taken as the address when the bot has asked for it. */
  lemma AddressTaken(c: Conv, m: Message, w: World)
    requires c.status.Active? && c.flow.AskAddress? && Plain(m)
    ensures Step(c, Inbound(m, w)) == c.(flow := ConfirmOrder, address := m.text)
  {
  }

  lemma {:induction false} AddPastOthers(cart: seq<CartLine>, p: Product, i: nat)
    requires i <= |cart| && forall j :: 0 <= j < i ==> cart[j].product != p.id
    ensures AddToCart(cart, p) == cart[..i] + AddToCart(cart[i..], p)
  {
    if i > 0 {
      AddPastOthers(cart[1..], p, i - 1);
      assert cart[1..][i - 1..] == cart[i..];
      assert cart[..i] == [cart[0]] + cart[1..][..i - 1];
    }
  }

  /** Finds the product's line and bumps its quantity, or adds a line. */
  method BumpLine(cart: seq<CartLine>, p: Product) returns (bumped: seq<CartLine>)
    ensures bumped == AddToCart(cart, p)
  {
    var i := 0;
    while i < |cart| && cart[i].product != p.id
      invariant 0 <= i <= |cart|
      invariant forall j :: 0 <= j < i ==> cart[j].product != p.id
    {
      i := i + 1;
    }
    AddPastOthers(cart, p, i);
    if i < |cart| {
      assert cart[i..][1..] == cart[i + 1..];
      bumped := cart[i := cart[i].(quantity := cart[i].quantity + 1)];
    } else {
      bumped := cart + [CartLine(p.id, p.price, 1)];
    }
  }

  /** The conversation row, updated in place as messages arrive. */
  class Bot {
    var status: Handling
    var flow: Flow
    var cart: seq<CartLine>
    var address: string
    var category: Option<nat>
    ghost var picks: seq<nat>

    ghost function Value(): Conv
      reads this
    {
      Conv(status, flow, cart, address, category, picks)
    }

    constructor ()
      ensures Value() == NEW_CONVERSATION
    {
      status, flow, cart, address, category, picks := Active, Welcome, [], "", None, [];
    }

    /** resetConversation */
    method Reset()
      modifies this
      ensures Value() == NEW_CONVERSATION
    {
      status, flow, cart, address, category, picks := Active, Welcome, [], "", None, [];
    }

    method Choose(p: Product)
      modifies this`cart, this`picks
      ensures cart == AddToCart(old(cart), p) && picks == old(picks) + [p.id]
    {
      cart := BumpLine(cart, p);
      picks := picks + [p.id];
    }

    method SendCategoriesMenu(w: World)
      modifies this`flow
      ensures Value() == ShowCategories(old(Value()), w)
    {
      if w.categories != [] {
        flow := MainMenu;
      }
    }

    method SendCartSummary()
      modifies this`flow
      ensures Value() == ShowCart(old(Value()))
    {
      if cart != [] {
        flow := InCart;
      }
    }

    method AskForAddress()
      modifies this`flow
      ensures Value() == PromptAddress(old(Value()))
    {
      if cart != [] {
        flow := AskAddress;
      }
    }

    method TriggerHandoff()
      modifies this`status
      ensures Value() == Handoff(old(Value()))
    {
      status := WaitingAgent;
    }

    /** handleInboundMessage, keyword by keyword and then by state. */
    method HandleInboundMessage(m: Message, w: World)
      requires Inv(Value())
      modifies this
      ensures Value() == Step(old(Value()), Inbound(m, w)) && Inv(Value())
    {
      StepKeepsInv(Value(), Inbound(m, w));
      if m.text == "" {
        return;
      }
      if status.ClosedByStaff? {
        Reset();
      }
      if m.reset {
        Reset();
      } else if status.WaitingAgent? {
        return;
      } else if m.menu {
        SendCategoriesMenu(w);
      } else if m.cart {
        SendCartSummary();
      } else if m.checkout {
        AskForAddress();
      } else if m.track || m.help {
        return;
      } else if m.agent {
        TriggerHandoff();
      } else {
        HandleByState(m, w);
      }
    }

    method HandleByState(m: Message, w: World)
      modifies this
      ensures Value() == ByFlow(old(Value()), m, w)
    {
      if flow.MainMenu? {
        var chosen := Chosen(m.number, w.categories);
        if chosen.Some? {
          if ProductsOf(w, chosen.value) != [] {
            flow, category := ProductSelect, chosen;
          }
          return;
        }
      }
      if flow.ProductSelect? && category.Some? {
        var product := Chosen(m.number, ProductsOf(w, category.value));
        if product.Some? {
          Choose(product.value);
          flow := InCart;
          return;
        }
      }
      if flow.AskAddress? {
        flow, address := ConfirmOrder, m.text;
        return;
      }
      if flow.ConfirmOrder? && m.confirm {
        if cart != [] && w.hasBranch && w.orderOk {
          flow, cart, address, category, picks := Welcome, [], "", None, [];
        }
        return;
      }
      if m.digit == Some(1) {
        SendCategoriesMenu(w);
      } else if m.digit == Some(2) {
        SendCartSummary();
      } else if m.digit == Some(3) {
        AskForAddress();
      } else if m.digit == Some(6) {
        TriggerHandoff();
      }
    }
  }
}
