/** Coupon validation and discount arithmetic (src/modules/coupons/coupon.service.js). */
module Coupons {
  import opened Data

  /** Nearest cent of `hundredths / 10000`, ties upward, as Number.prototype.toFixed(2)
      rounds in section 21.1.3.3 of ECMA-262. */
  function NearestCent(hundredths: nat): (cents: nat)
    ensures 10000 * cents - hundredths <= 5000
    ensures hundredths - 10000 * cents < 5000
  {
    (2 * hundredths + 10000) / 20000
  }

  function EligibleSubtotal(c: Coupon, subtotal: nat, lines: seq<Line>): nat {
    if |c.applicable| > 0 then SumOf(c.applicable, lines) else subtotal
  }

  /** The subtotals of the lines whose product the coupon lists. */
  function SumOf(products: seq<nat>, lines: seq<Line>): nat {
    if lines == [] then 0
    else (if lines[0].product in products then lines[0].subtotal else 0) + SumOf(products, lines[1..])
  }

  function Discount(c: Coupon, eligible: nat): nat {
    if c.kind.Percentage? then
      if c.maxDiscount.Some? && eligible * c.value > c.maxDiscount.value * 10000
      then c.maxDiscount.value
      else NearestCent(eligible * c.value)
    else if c.value < eligible then c.value else eligible
  }

  function ValidateCoupon(c: Coupon, subtotal: nat, lines: seq<Line>, now: int): Result<nat> {
    if c.deleted then Err(NotFound)
    else if !c.active then Err(BusinessRule)
    else if c.startsAt.Some? && now < c.startsAt.value then Err(BusinessRule)
    else if c.expiresAt.Some? && now > c.expiresAt.value then Err(BusinessRule)
    else if c.usageLimit.Some? && c.timesUsed >= c.usageLimit.value then Err(BusinessRule)
    else
      var eligible := EligibleSubtotal(c, subtotal, lines);
      if eligible == 0 then Err(BusinessRule)
      else if c.minSubtotal > 0 && eligible < c.minSubtotal then Err(BusinessRule)
      else Ok(Discount(c, eligible))
  }

  /** The coupon can be used at this time, on any order. */
  predicate Usable(c: Coupon, now: int) {
    && !c.deleted && c.active
    && (c.startsAt.Some? ==> c.startsAt.value <= now)
    && (c.expiresAt.Some? ==> now <= c.expiresAt.value)
    && (c.usageLimit.Some? ==> c.timesUsed < c.usageLimit.value)
  }

  /** Exactly the usable coupons are accepted, on exactly the amounts with something to discount
      that reach the minimum; only a deleted coupon is reported as missing. */
  lemma AcceptedAmountIff(c: Coupon, subtotal: nat, lines: seq<Line>, now: int)
    ensures ValidateCoupon(c, subtotal, lines, now).Ok?
       <==> && Usable(c, now)
            && EligibleSubtotal(c, subtotal, lines) > 0
            && EligibleSubtotal(c, subtotal, lines) >= c.minSubtotal
    ensures ValidateCoupon(c, subtotal, lines, now) == Err(NotFound) <==> c.deleted
  {
  }

  // ---- What a coupon applies to ----

  /** A coupon without a list applies to every product. */
  predicate AppliesTo(c: Coupon, line: Line) {
    |c.applicable| == 0 || exists i :: 0 <= i < |c.applicable| && c.applicable[i] == line.product
  }

  /** The lines a coupon applies to, in their order. */
  function AppliedLines(c: Coupon, lines: seq<Line>): seq<Line> {
    if lines == [] then []
    else (if AppliesTo(c, lines[0]) then [lines[0]] else []) + AppliedLines(c, lines[1..])
  }

  lemma {:induction false} AppliedLinesAre(c: Coupon, lines: seq<Line>)
    ensures forall line :: line in AppliedLines(c, lines) <==> line in lines && AppliesTo(c, line)
  {
    if lines != [] {
      AppliedLinesAre(c, lines[1..]);
      assert lines == [lines[0]] + lines[1..];
    }
  }

  /** The eligible amount is the sum of the lines the coupon applies to. */
  lemma {:induction false} EligibleIsApplied(c: Coupon, lines: seq<Line>)
    ensures EligibleSubtotal(c, Sum(lines), lines) == Sum(AppliedLines(c, lines))
  {
    if lines != [] {
      EligibleIsApplied(c, lines[1..]);
      SumConcat(if AppliesTo(c, lines[0]) then [lines[0]] else [], AppliedLines(c, lines[1..]));
      SumOfOne(lines[0]);
    }
  }

  lemma SumOfOne(line: Line)
    ensures Sum([line]) == line.subtotal
  {
    assert [line][1..] == [];
  }

  lemma {:induction false} SumPositive(lines: seq<Line>)
    ensures Sum(lines) > 0 <==> exists i :: 0 <= i < |lines| && lines[i].subtotal > 0
  {
    if lines != [] {
      SumPositive(lines[1..]);
      if i :| 0 <= i < |lines| && lines[i].subtotal > 0 {
        assert i > 0 ==> lines[1..][i - 1].subtotal > 0;
      }
    }
  }

  /** Exactly when an order is accepted with a coupon: the coupon is live and active, in its period
      and below its limit, some line it applies to costs something, and those lines together reach
      its minimum. */
  lemma AcceptedIff(c: Coupon, lines: seq<Line>, now: int)
    ensures ValidateCoupon(c, Sum(lines), lines, now).Ok?
       <==> && Usable(c, now)
            && (exists i :: 0 <= i < |lines| && AppliesTo(c, lines[i]) && lines[i].subtotal > 0)
            && Sum(AppliedLines(c, lines)) >= c.minSubtotal
    ensures ValidateCoupon(c, Sum(lines), lines, now) == Err(NotFound) <==> c.deleted
  {
    hide AppliesTo;
    AcceptedAmountIff(c, Sum(lines), lines, now);
    EligibleIsApplied(c, lines);
    AppliedLinesAre(c, lines);
    var applied := AppliedLines(c, lines);
    SumPositive(applied);
    if i :| 0 <= i < |applied| && applied[i].subtotal > 0 {
      assert applied[i] in lines;
    }
    if i :| 0 <= i < |lines| && AppliesTo(c, lines[i]) && lines[i].subtotal > 0 {
      assert lines[i] in applied;
    }
  }

  /** A single line counts in full if the coupon applies to its product and not at all otherwise. */
  lemma SingleLine(c: Coupon, line: Line)
    ensures EligibleSubtotal(c, line.subtotal, [line]) == if AppliesTo(c, line) then line.subtotal else 0
  {
    SumOfOne(line);
    EligibleIsApplied(c, [line]);
    assert AppliedLines(c, []) == [];
    assert AppliesTo(c, line) ==> AppliedLines(c, [line]) == [line];
  }

  /** A line of another product changes nothing; an order with only listed products counts in full;
      an order with none is refused. */
  lemma UnlistedLine(c: Coupon, lines: seq<Line>, line: Line)
    requires !AppliesTo(c, line)
    ensures EligibleSubtotal(c, Sum(lines + [line]), lines + [line]) == EligibleSubtotal(c, Sum(lines), lines)
  {
    SumOfConcat(c.applicable, lines, [line]);
    assert SumOf(c.applicable, [line]) == 0 by {
      assert [line][1..] == [];
    }
  }

  lemma {:induction false} OnlyListedLines(c: Coupon, lines: seq<Line>)
    requires forall i :: 0 <= i < |lines| ==> AppliesTo(c, lines[i])
    ensures EligibleSubtotal(c, Sum(lines), lines) == Sum(lines)
  {
    if lines != [] {
      OnlyListedLines(c, lines[1..]);
      assert AppliesTo(c, lines[0]);
    }
  }

  lemma NoListedLine(c: Coupon, lines: seq<Line>, now: int)
    requires forall i :: 0 <= i < |lines| ==> !AppliesTo(c, lines[i])
    ensures ValidateCoupon(c, Sum(lines), lines, now).Err?
  {
    hide AppliesTo;
    AcceptedIff(c, lines, now);
  }

  /** The discount itself: a fixed coupon gives its value or the eligible amount, whichever is less;
      a percentage gives the cap, or the nearest cent of its share when that is within the cap. */
  lemma DiscountIs(c: Coupon, eligible: nat)
    ensures c.kind.Fixed? ==> Discount(c, eligible) <= c.value && Discount(c, eligible) <= eligible
    ensures c.kind.Fixed? ==> Discount(c, eligible) == c.value || Discount(c, eligible) == eligible
    ensures c.kind.Percentage? && c.maxDiscount.Some? && eligible * c.value > c.maxDiscount.value * 10000 ==>
              Discount(c, eligible) == c.maxDiscount.value
    ensures c.kind.Percentage? && (c.maxDiscount.None? || eligible * c.value <= c.maxDiscount.value * 10000) ==>
              -5000 < 10000 * Discount(c, eligible) - eligible * c.value <= 5000
  {
  }

  // ---- Bounds ----

  lemma {:induction false} EligibleAtMostSubtotal(c: Coupon, lines: seq<Line>)
    ensures EligibleSubtotal(c, Sum(lines), lines) <= Sum(lines)
  {
    SumOfAtMostSum(c.applicable, lines);
  }

  lemma {:induction false} SumOfAtMostSum(products: seq<nat>, lines: seq<Line>)
    ensures SumOf(products, lines) <= Sum(lines)
  {
    if lines != [] {
      SumOfAtMostSum(products, lines[1..]);
    }
  }

  /** A coupon of at most 100 percent never discounts more than what it applies to, that is
      never more than the order, and never more than its own cap. */
  lemma DiscountWithinOrder(c: Coupon, lines: seq<Line>, now: int)
    requires c.kind.Percentage? ==> c.value <= 10000
    requires ValidateCoupon(c, Sum(lines), lines, now).Ok?
    ensures var d := ValidateCoupon(c, Sum(lines), lines, now).value;
            && d <= EligibleSubtotal(c, Sum(lines), lines) <= Sum(lines)
            && (c.kind.Percentage? && c.maxDiscount.Some? ==> d <= c.maxDiscount.value)
  {
    var e := EligibleSubtotal(c, Sum(lines), lines);
    EligibleAtMostSubtotal(c, lines);
    if c.kind.Percentage? {
      PercentageWithinEligible(c, e);
      if c.maxDiscount.Some? {
        CapHolds(c, e);
      }
    }
  }

  lemma CapHolds(c: Coupon, eligible: nat)
    requires c.kind.Percentage? && c.maxDiscount.Some?
    ensures Discount(c, eligible) <= c.maxDiscount.value
  {
    var raw := eligible * c.value;
    if raw <= c.maxDiscount.value * 10000 {
      assert 10000 * NearestCent(raw) <= raw + 5000;
    }
  }

  /** Exactly when a percentage coupon keeps within what it applies to. A value above 100
      percent can be stored by a PATCH that omits `type` (coupon.validation.js:49-53); it then
      overshoots unless the excess rounds away or the cap catches it. */
  lemma PercentageWithinEligible(c: Coupon, eligible: nat)
    requires c.kind.Percentage?
    ensures Discount(c, eligible) <= eligible
       <==> || c.value <= 10000
            || eligible * (c.value - 10000) < 5000
            || (c.maxDiscount.Some? && c.maxDiscount.value <= eligible)
  {
    var raw := eligible * c.value;
    assert eligible * (c.value - 10000) == raw - eligible * 10000;
    if c.value <= 10000 {
      ProductMonotone(eligible, c.value, 10000);
    } else if c.maxDiscount.Some? && eligible * 10000 >= c.maxDiscount.value * 10000 {
      CapHolds(c, eligible);
    } else if c.maxDiscount.Some? && raw > c.maxDiscount.value * 10000 {
      ProductMonotone(eligible, 10001, c.value);
      SmallExcess(eligible, c.value, c.maxDiscount.value);
    }
  }

  lemma ProductMonotone(e: nat, low: nat, high: nat)
    requires low <= high
    ensures e * low <= e * high
  {
    assert e * (high - low) >= 0;
    assert e * high == e * low + e * (high - low);
  }

  /** With the cap above the eligible amount and the raw discount above the cap, the excess
      is a whole cent or more, so it does not round away. */
  lemma SmallExcess(e: nat, value: nat, cap: nat)
    requires e < cap && e * value > cap * 10000 && value > 10000
    ensures e * (value - 10000) >= 5000
  {
    assert e * (value - 10000) == e * value - e * 10000;
  }

  // ---- Monotonicity ----

  lemma {:induction false} SumOfConcat(products: seq<nat>, a: seq<Line>, b: seq<Line>)
    ensures SumOf(products, a + b) == SumOf(products, a) + SumOf(products, b)
  {
    if a == [] {
      assert a + b == b;
    } else {
      assert (a + b)[1..] == a[1..] + b;
      SumOfConcat(products, a[1..], b);
    }
  }

  /** The discount grows with the eligible amount, and by no more than it. */
  lemma DiscountGrowth(c: Coupon, low: nat, high: nat)
    requires low <= high
    requires c.kind.Percentage? ==> c.value <= 10000
    ensures Discount(c, low) <= Discount(c, high) <= Discount(c, low) + (high - low)
  {
    if c.kind.Percentage? {
      var a, b := low * c.value, high * c.value;
      assert b == a + (high - low) * c.value;
      ProductMonotone(high - low, c.value, 10000);
      assert a <= b <= a + (high - low) * 10000;
      if c.maxDiscount.Some? {
        CapHolds(c, low);
      }
    }
  }

  /** Among accepted orders, adding lines never lowers the discount and never lowers what is
      left to pay before the clamp at zero. */
  lemma MoreLinesNeverHurt(c: Coupon, lines: seq<Line>, more: seq<Line>, now: int, later: int)
    requires c.kind.Percentage? ==> c.value <= 10000
    requires ValidateCoupon(c, Sum(lines), lines, now).Ok?
    requires ValidateCoupon(c, Sum(lines + more), lines + more, later).Ok?
    ensures var d := ValidateCoupon(c, Sum(lines), lines, now).value;
            var d' := ValidateCoupon(c, Sum(lines + more), lines + more, later).value;
            && d <= d'
            && Sum(lines) - d <= Sum(lines + more) - d'
  {
    SumConcat(lines, more);
    SumOfConcat(c.applicable, lines, more);
    SumOfAtMostSum(c.applicable, more);
    DiscountGrowth(c, EligibleSubtotal(c, Sum(lines), lines), EligibleSubtotal(c, Sum(lines + more), lines + more));
  }
}
