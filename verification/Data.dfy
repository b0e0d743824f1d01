/** The rows the order engine and the table sessions share (prisma/schema.prisma).
    Orders, coupons, tables and sessions are never removed from the database, so an
    id is an index into the sequence that holds the rows. Money is whole cents. */
module Data {
  datatype Option<+T> = None | Some(value: T)

  datatype Error = NotFound | BusinessRule | Conflict | UniqueViolation | Forbidden

  datatype Result<+T> = Ok(value: T) | Err(error: Error)

  datatype Status = Pending | Confirmed | Preparing | Ready | OutForDelivery | Delivered | Cancelled

  datatype Payment = Unpaid | Paid | Refunded

  datatype Kind = DineIn | Delivery | Pickup

  datatype Source = Cashier | Phone | WhatsApp | Website | Qr

  /** A line of an order; `round` is the table-session round it came from. */
  datatype Line = Line(product: nat, quantity: nat, unitPrice: nat, subtotal: nat, round: nat)

  /** A row of the status history. */
  datatype Change = Change(from: Option<Status>, to: Status)

  datatype Order = Order(
    source: Source, kind: Kind, status: Status, payment: Payment,
    table: Option<nat>, coupon: Option<nat>,
    lines: seq<Line>, subtotal: nat, discount: nat, total: nat,
    version: nat, history: seq<Change>)

  datatype CouponKind = Percentage | Fixed

  /** `value` is in hundredths of a percent, or in cents for a fixed coupon. */
  datatype Coupon = Coupon(
    kind: CouponKind, value: nat, minSubtotal: nat, maxDiscount: Option<nat>,
    applicable: seq<nat>, usageLimit: Option<nat>, timesUsed: nat,
    active: bool, deleted: bool, startsAt: Option<int>, expiresAt: Option<int>)

  datatype TableStatus = Available | Occupied | Reserved | Maintenance

  datatype Table = Table(status: TableStatus, deleted: bool)

  datatype SessionStatus = Open | Awaiting | Closed

  /** An item of the shared cart; `round` is None until it is submitted. */
  datatype CartItem = CartItem(id: nat, round: Option<nat>, product: nat, unitPrice: nat, quantity: nat,
      addedBy: string)

  datatype RoundStatus = RoundPending | RoundConfirmed | RoundCancelled

  datatype Round = Round(id: nat, number: nat, status: RoundStatus, total: nat, order: Option<nat>)

  datatype Session = Session(
    table: nat, status: SessionStatus, confirmedOrder: Option<nat>,
    items: seq<CartItem>, rounds: seq<Round>, nextItem: nat, nextRound: nat)

  datatype Db = Db(orders: seq<Order>, coupons: seq<Coupon>, tables: seq<Table>, sessions: seq<Session>)

  function Sum(lines: seq<Line>): nat {
    if lines == [] then 0 else lines[0].subtotal + Sum(lines[1..])
  }

  lemma {:induction false} SumConcat(a: seq<Line>, b: seq<Line>)
    ensures Sum(a + b) == Sum(a) + Sum(b)
  {
    if a == [] {
      assert a + b == b;
    } else {
      assert (a + b)[1..] == a[1..] + b;
      SumConcat(a[1..], b);
    }
  }
}
