/** What each table-session call does (src/modules/table-sessions/table-session.service.js
    and table-session.repository.js), as functions from state to state. */
module SessionTx {
  import opened Data
  import opened OrderTx

  type Menu = map<nat, nat>  // the price of every available product

  function Value(items: seq<CartItem>): nat {
    if items == [] then 0
    else Value(items[..|items| - 1]) + items[|items| - 1].unitPrice * items[|items| - 1].quantity
  }

  /** The items linked to `round`; with None, the open cart. */
  function Linked(items: seq<CartItem>, round: Option<nat>): seq<CartItem> {
    if items == [] then []
    else
      var last := items[|items| - 1];
      Linked(items[..|items| - 1], round) + if last.round == round then [last] else []
  }

  /** Moves every item of `from` to `to`: linkItemsToOrder and unlinkOrderItems. */
  function Relink(items: seq<CartItem>, from: Option<nat>, to: Option<nat>): seq<CartItem> {
    seq(|items|, i requires 0 <= i < |items| => if items[i].round == from then items[i].(round := to) else items[i])
  }

  function WithQuantity(items: seq<CartItem>, id: nat, quantity: nat): seq<CartItem> {
    seq(|items|, i requires 0 <= i < |items| => if items[i].id == id then items[i].(quantity := quantity) else items[i])
  }

  function Without(items: seq<CartItem>, id: nat): seq<CartItem> {
    if items == [] then []
    else
      var last := items[|items| - 1];
      Without(items[..|items| - 1], id) + if last.id != id then [last] else []
  }

  function FindItem(items: seq<CartItem>, id: nat): Option<CartItem> {
    if items == [] then None
    else if items[0].id == id then Some(items[0])
    else FindItem(items[1..], id)
  }

  function FindRound(rounds: seq<Round>, id: nat): Option<Round> {
    if rounds == [] then None
    else if rounds[0].id == id then Some(rounds[0])
    else FindRound(rounds[1..], id)
  }

  /** The index of the first round awaiting confirmation, or |rounds|. */
  function PendingIndex(rounds: seq<Round>): (k: nat)
    ensures k <= |rounds|
    ensures k < |rounds| ==> rounds[k].status.RoundPending?
    ensures forall i :: 0 <= i < k ==> !rounds[i].status.RoundPending?
  {
    if rounds == [] || rounds[0].status.RoundPending? then 0 else 1 + PendingIndex(rounds[1..])
  }

  function DropRound(rounds: seq<Round>, id: nat): seq<Round> {
    if rounds == [] then []
    else
      var last := rounds[|rounds| - 1];
      DropRound(rounds[..|rounds| - 1], id) + if last.id != id then [last] else []
  }

  function CancelPending(rounds: seq<Round>): seq<Round> {
    seq(|rounds|, i requires 0 <= i < |rounds| =>
      if rounds[i].status.RoundPending? then rounds[i].(status := RoundCancelled) else rounds[i])
  }

  /** nextOrderNumber: one more than the highest number in use. */
  function NextNumber(rounds: seq<Round>): nat {
    HighestNumber(rounds) + 1
  }

  function HighestNumber(rounds: seq<Round>): nat {
    if rounds == [] then 0
    else
      var rest := HighestNumber(rounds[..|rounds| - 1]);
      if rounds[|rounds| - 1].number > rest then rounds[|rounds| - 1].number else rest
  }

  /** assertItemEditable */
  predicate Editable(s: Session, item: CartItem) {
    item.round.None? ||
    var round := FindRound(s.rounds, item.round.value);
    round.None? || round.value.status.RoundPending?
  }

  // ---- What the calls write ----

  function WithItem(s: Session, product: nat, price: nat, quantity: nat, addedBy: string): Session {
    s.(items := s.items + [CartItem(s.nextItem, None, product, price, quantity, addedBy)], nextItem := s.nextItem + 1)
  }

  /** A new round takes the open cart. */
  function WithRound(s: Session, total: nat): Session {
    var round := Round(s.nextRound, NextNumber(s.rounds), RoundPending, total, None);
    s.(rounds := s.rounds + [round], items := Relink(s.items, None, Some(round.id)),
       status := Awaiting, nextRound := s.nextRound + 1)
  }

  /** The items of a round go back to the cart and the round is deleted. */
  function WithoutRound(s: Session, id: nat): Session {
    s.(items := Relink(s.items, Some(id), None), rounds := DropRound(s.rounds, id), status := Open)
  }

  function Ended(s: Session): Session {
    s.(rounds := CancelPending(s.rounds), status := Closed)
  }

  // ---- Calls that change one session only ----

  datatype Step =
    | AddItem(product: nat, quantity: nat, addedBy: string, menu: Menu)
    | UpdateItem(id: nat, quantity: nat)
    | RemoveItem(id: nat)
    | Submit
    | Reject

  function AddItemTo(s: Session, product: nat, quantity: nat, addedBy: string, menu: Menu): Result<Session> {
    if !s.status.Open? then Err(BusinessRule)
    else if product !in menu then Err(NotFound)
    else Ok(WithItem(s, product, menu[product], quantity, addedBy))
  }

  function CheckEdit(s: Session, id: nat): Option<Error> {
    if s.status.Closed? then Some(BusinessRule)
    else if FindItem(s.items, id).None? then Some(NotFound)
    else if !Editable(s, FindItem(s.items, id).value) then Some(BusinessRule)
    else None
  }

  function UpdateItemOf(s: Session, id: nat, quantity: nat): Result<Session> {
    match CheckEdit(s, id)
    case Some(e) => Err(e)
    case None => Ok(s.(items := WithQuantity(s.items, id, quantity)))
  }

  function RemoveItemOf(s: Session, id: nat): Result<Session> {
    match CheckEdit(s, id)
    case Some(e) => Err(e)
    case None => Ok(s.(items := Without(s.items, id)))
  }

  /** submitDraft */
  function SubmitDraft(s: Session): Result<Session> {
    if !s.status.Open? then Err(BusinessRule)
    else if |Linked(s.items, None)| == 0 then Err(BusinessRule)
    else Ok(WithRound(s, Value(Linked(s.items, None))))
  }

  /** rejectPendingOrder */
  function RejectPending(s: Session): Result<Session> {
    if s.status.Closed? then Err(BusinessRule)
    else if PendingIndex(s.rounds) == |s.rounds| then Err(BusinessRule)
    else Ok(WithoutRound(s, s.rounds[PendingIndex(s.rounds)].id))
  }

  function StepOf(s: Session, step: Step): Result<Session> {
    match step
    case AddItem(product, quantity, addedBy, menu) => AddItemTo(s, product, quantity, addedBy, menu)
    case UpdateItem(id, quantity) => UpdateItemOf(s, id, quantity)
    case RemoveItem(id) => RemoveItemOf(s, id)
    case Submit => SubmitDraft(s)
    case Reject => RejectPending(s)
  }

  function StepTx(db: Db, sid: nat, step: Step): Result<Db> {
    if sid >= |db.sessions| then Err(NotFound)
    else
      match StepOf(db.sessions[sid], step)
      case Err(e) => Err(e)
      case Ok(s) => Ok(db.(sessions := db.sessions[sid := s]))
  }

  // ---- Starting and closing ----

  predicate HasOpenSession(sessions: seq<Session>, t: nat) {
    exists i :: 0 <= i < |sessions| && sessions[i].table == t && !sessions[i].status.Closed?
  }

  function StartTx(db: Db, t: nat): Result<Db> {
    if t >= |db.tables| || db.tables[t].deleted then Err(NotFound)
    else if HasOpenSession(db.sessions, t) then Err(BusinessRule)
    else Ok(db.(sessions := db.sessions + [Session(t, Open, None, [], [], 0, 0)],
                tables := db.tables[t := db.tables[t].(status := Occupied)]))
  }

  predicate StillOwes(db: Db, o: Option<nat>) {
    o.Some? && o.value < |db.orders| && db.orders[o.value].payment.Unpaid? && !db.orders[o.value].status.Cancelled?
  }

  function CloseTx(db: Db, sid: nat): Result<Db> {
    if sid >= |db.sessions| then Err(NotFound)
    else
      var s := db.sessions[sid];
      if s.status.Closed? || StillOwes(db, s.confirmedOrder) then Err(BusinessRule)
      else
        Ok(db.(sessions := db.sessions[sid := Ended(s)], tables := Vacated(db.tables, s.table)))
  }

  function Vacated(tables: seq<Table>, t: nat): seq<Table> {
    if t < |tables| && tables[t].status.Occupied? then tables[t := tables[t].(status := Available)] else tables
  }

  // ---- Calls in two steps: a check on the session as it was read, then the writes ----

  datatype SessionCall = Changing(step: Step) | Closing

  function TryCall(db: Db, sid: nat, call: SessionCall): Result<Db> {
    match call
    case Changing(step) => StepTx(db, sid, step)
    case Closing => CloseTx(db, sid)
  }

  /** What the writes of a call make of session `s` when the call had checked it as `seen`. None
      of them looks at the session again. */
  function Saved(s: Session, seen: Session, call: SessionCall): Session {
    match call
    case Changing(AddItem(product, quantity, addedBy, menu)) =>
      if product in menu then WithItem(s, product, menu[product], quantity, addedBy) else s
    case Changing(UpdateItem(id, quantity)) => s.(items := WithQuantity(s.items, id, quantity))
    case Changing(RemoveItem(id)) => s.(items := Without(s.items, id))
    case Changing(Submit) => WithRound(s, Value(Linked(seen.items, None)))
    case Changing(Reject) => if PendingId(seen).Some? then WithoutRound(s, PendingId(seen).value) else s
    case Closing => Ended(s)
  }

  function PendingId(s: Session): Option<nat> {
    if PendingIndex(s.rounds) < |s.rounds| then Some(s.rounds[PendingIndex(s.rounds)].id) else None
  }

  function SaveTx(db: Db, sid: nat, seen: Session, call: SessionCall): Db
    requires sid < |db.sessions|
  {
    var s := db.sessions[sid];
    db.(sessions := db.sessions[sid := Saved(s, seen, call)],
        tables := if call.Closing? then Vacated(db.tables, s.table) else db.tables)
  }

  // ---- Confirming ----

  /** The order lines a round becomes, at today's prices. */
  function RoundLines(items: seq<CartItem>, menu: Menu, number: nat): Result<seq<Line>> {
    if items == [] then Ok([])
    else
      var last := items[|items| - 1];
      match RoundLines(items[..|items| - 1], menu, number)
      case Err(e) => Err(e)
      case Ok(lines) =>
        if last.product !in menu then Err(NotFound)
        else
          var price := menu[last.product];
          Ok(lines + [Line(last.product, last.quantity, price, price * last.quantity, number)])
  }

  predicate CanAppend(db: Db, o: Option<nat>) {
    o.Some? && o.value < |db.orders| && Appendable(db.orders[o.value])
  }

  function SessionOrder(table: nat, lines: seq<Line>): NewOrder {
    NewOrder(Qr, DineIn, Confirmed, Some(table), None, Sum(lines), 0)
  }

  /** Puts the lines of a round on `target`, or on a new order when `append` is false. */
  function Emit(db: Db, table: nat, target: Option<nat>, append: bool, lines: seq<Line>): Result<(Db, nat)> {
    if append && target.Some? then
      match AppendTx(db, target.value, lines)
      case Err(e) => Err(e)
      case Ok(d) => Ok((d, target.value))
    else
      match CreateTx(db, SessionOrder(table, lines), lines, 0)
      case Err(e) => Err(e)
      case Ok(d) => Ok((d, |db.orders|))
  }

  /** Marks the pending round `k` confirmed on order `o` and reopens the session. */
  function MarkConfirmed(s: Session, k: nat, o: nat): Session
    requires k < |s.rounds|
  {
    var round := s.rounds[k];
    s.(status := Open, confirmedOrder := Some(o),
       rounds := s.rounds[k := round.(status := RoundConfirmed, order := Some(o),
                                      total := Value(Linked(s.items, Some(round.id))))])
  }

  /** The transaction of confirmSession. `target` is the session's confirmedOrderId as it was
      read before the transaction began. */
  function ConfirmTx(db: Db, sid: nat, target: Option<nat>, menu: Menu): Result<Db> {
    if sid >= |db.sessions| || PendingIndex(db.sessions[sid].rounds) == |db.sessions[sid].rounds| then Err(BusinessRule)
    else
      var s := db.sessions[sid];
      var k := PendingIndex(s.rounds);
      var items := Linked(s.items, Some(s.rounds[k].id));
      if |items| == 0 then Err(BusinessRule)
      else
        match RoundLines(items, menu, s.rounds[k].number)
        case Err(e) => Err(e)
        case Ok(lines) =>
          match Emit(db, s.table, target, CanAppend(db, target), lines)
          case Err(e) => Err(e)
          case Ok(out) => Ok(out.0.(sessions := out.0.sessions[sid := MarkConfirmed(s, k, out.1)]))
  }
}
