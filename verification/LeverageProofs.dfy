/** Safety, progress and size of the leverage loop. */
module LeverageProofs {
  import opened Arithmetic
  import opened LeverageLoop

  /**
    The exact margin, before any rounding, scaled by 10^22: loan-to-value times collateral value minus
    debt value. It is non-negative exactly when debt value * 10000 <= collateral value * LTV.
   */
  function Margin(p: Position, t: Terms): int {
    MarginOf(p.collateral * t.collateralPrice, p.debt * t.hollarPrice, t.ltv)
  }

  function MarginOf(collateralValue: int, debtValue: int, ltv: nat): int {
    collateralValue * ltv - debtValue * 10000
  }

  lemma {:induction false} BaseBounds(amount: nat, price: nat)
    ensures Base(amount, price) * WAD <= amount * price < Base(amount, price) * WAD + WAD
  {
    DivBounds(amount * price, WAD);
  }

  lemma {:induction false} DivAtLeast(x: nat, d: nat, k: nat)
    requires d > 0 && k * d <= x
    ensures x / d >= k
  {
    DivBounds(x, d);
    MulMonoIf(x / d + 1, k, d);
    assert (x / d + 1) * d == (x / d) * d + d;
  }

  lemma {:induction false} NoLimit(c: nat, ltv: nat)
    ensures c == 0 || ltv == 0 ==> PercentMul(c, ltv) == 0
  {
    if c == 0 || ltv == 0 {
      assert c * ltv == 0;
    }
  }

  // ---------------------------------------------------------------- one reading

  /** Rounded readings against exact values: collateral `x`, debt `y`, limit `limit`, base debt `d`. */
  lemma {:induction false} ReadingBounds(x: nat, y: nat, c: nat, d: nat, ltv: nat)
    requires c * WAD <= x < c * WAD + WAD && d * WAD <= y < d * WAD + WAD
    requires ltv > 0
    ensures var h := PercentMul(c, ltv) - d;
      (10000 * h - 15000) * WAD < MarginOf(x, y, ltv) < (10000 * h + 5000 + ltv) * WAD
  {
    var limit := PercentMul(c, ltv);
    DivBounds(c * ltv + 5000, 10000);
    assert 10000 * limit - 5000 <= c * ltv < 10000 * limit + 5000;
    MulMono(c * WAD, x, ltv);
    MulMono(x, c * WAD + WAD - 1, ltv);
    assert (c * WAD) * ltv == (c * ltv) * WAD;
    assert (c * WAD + WAD - 1) * ltv == (c * ltv) * WAD + (WAD - 1) * ltv;
  }

  /** The headroom the script reads, against the exact margin. */
  lemma {:induction false} HeadroomBounds(p: Position, t: Terms)
    requires Headroom(p, t) > 0
    ensures t.ltv > 0
    ensures (10000 * Headroom(p, t) - 15000) * WAD < Margin(p, t) < (10000 * Headroom(p, t) + 5000 + t.ltv) * WAD
  {
    var c := Base(p.collateral, t.collateralPrice);
    NoLimit(c, t.ltv);
    BaseBounds(p.collateral, t.collateralPrice);
    BaseBounds(p.debt, t.hollarPrice);
    ReadingBounds(p.collateral * t.collateralPrice, p.debt * t.hollarPrice, c, Base(p.debt, t.hollarPrice), t.ltv);
  }

  lemma {:induction false} ShareInValue(b: nat, m: nat, price: nat, bps: nat)
    requires b * 10000 <= m * bps < b * 10000 + 10000
    ensures b * price * 10000 <= (m * price) * bps <= b * price * 10000 + 10000 * price
  {
    MulMono(b * 10000, m * bps, price);
    MulMono(m * bps, b * 10000 + 10000, price);
    Reorder(b, price, 10000);
    Reorder(m, price, bps);
    assert (b * 10000 + 10000) * price == (b * 10000) * price + 10000 * price;
  }

  lemma {:induction false} Reorder(a: nat, b: nat, c: nat)
    ensures (a * c) * b == (a * b) * c
  {
  }

  /** The size of the next borrow in value: at most 99.9% of the headroom, and not much less. */
  lemma {:induction false} TargetBounds(h: nat, price: nat)
    requires price > 0
    ensures Target(h, price) * price * 10000 <= h * WAD * TARGET_BPS
    ensures Target(h, price) * price * 10000 > h * WAD * TARGET_BPS - 20000 * price
  {
    var m := h * WAD / price;
    DivBounds(h * WAD, price);
    DivBounds(m * TARGET_BPS, 10000);
    ShareInValue(Target(h, price), m, price, TARGET_BPS);
  }

  /** The floor of 0.1 HOLLAR is a floor on the headroom that grows with the price. */
  lemma {:induction false} FloorOnHeadroom(h: nat, price: nat)
    requires price > 0 && Target(h, price) >= MIN_NEXT_BORROW
    ensures 999 * h >= 100 * price
  {
    TargetBounds(h, price);
    MulMono(MIN_NEXT_BORROW, Target(h, price), price);
  }

  // ---------------------------------------------------------------- one borrow

  lemma {:induction false} BorrowMargin(p: Position, t: Terms, b: nat)
    ensures Margin(Borrowed(p, b), t) == Margin(p, t) - b * t.hollarPrice * 10000
  {
    assert (p.debt + b) * t.hollarPrice == p.debt * t.hollarPrice + b * t.hollarPrice;
  }

  lemma {:induction false} SupplyMargin(p: Position, t: Terms, a: nat)
    ensures Margin(Supplied(p, a), t) == Margin(p, t) + a * t.collateralPrice * t.ltv
  {
    assert (p.collateral + a) * t.collateralPrice == p.collateral * t.collateralPrice + a * t.collateralPrice;
    assert (p.collateral * t.collateralPrice + a * t.collateralPrice) * t.ltv
        == p.collateral * t.collateralPrice * t.ltv + a * t.collateralPrice * t.ltv;
  }

  /** Whatever the prices, a sized borrow overdraws the exact margin by less than 1.5 base units. */
  lemma {:induction false} BorrowLosesLittle(p: Position, t: Terms)
    requires Size(p, t).Borrow?
    ensures Margin(Borrowed(p, Size(p, t).amount), t) > (10 * Headroom(p, t) - 15000) * WAD
  {
    var h, b := Headroom(p, t), Size(p, t).amount;
    HeadroomBounds(p, t);
    TargetBounds(h, t.hollarPrice);
    BorrowMargin(p, t, b);
  }

  /** From this price on, the floor keeps every borrow within the exact limit. */
  const SAFE_PRICE: nat := 14976

  lemma {:induction false} BorrowSafe(p: Position, t: Terms)
    requires Size(p, t).Borrow? && t.hollarPrice >= SAFE_PRICE
    ensures Margin(Borrowed(p, Size(p, t).amount), t) > 0
  {
    BorrowLosesLittle(p, t);
    FloorOnHeadroom(Headroom(p, t), t.hollarPrice);
  }

  /** A position that a borrow at a lower price pushes over its limit; LTV 50%, collateral at 1.00. */
  function Edge(price: nat): Position
    requires price > 0
  {
    Position(29970000000000, (WAD - 1) / price)
  }

  lemma {:induction false} EdgeReadings(price: nat)
    requires 0 < price < SAFE_PRICE
    ensures var p, t := Edge(price), Terms(100000000, price, 5000);
      Headroom(p, t) == 1499
      && p.collateral * t.collateralPrice == 2997 * WAD
      && WAD - 1 - price < p.debt * price <= WAD - 1
  {
    var p, t := Edge(price), Terms(100000000, price, 5000);
    DivBounds(WAD - 1, price);
    assert p.collateral * t.collateralPrice == 2997 * WAD;
    assert Base(p.collateral, t.collateralPrice) == 2997;
    assert p.debt * price < WAD;
    assert Base(p.debt, price) == 0;
  }

  lemma {:induction false} EdgeTarget(price: nat)
    requires 0 < price < SAFE_PRICE
    ensures Target(1499, price) >= MIN_NEXT_BORROW
  {
    var m := 1499 * WAD / price;
    DivAtLeast(1499 * WAD, price, 100100150000000000);
  }

  lemma {:induction false} EdgeOverdraws(price: nat)
    requires 0 < price < SAFE_PRICE
    ensures var p, t := Edge(price), Terms(100000000, price, 5000);
      Size(p, t).Borrow? && Margin(Borrowed(p, Size(p, t).amount), t) < 0
  {
    var p, t := Edge(price), Terms(100000000, price, 5000);
    EdgeReadings(price);
    EdgeTarget(price);
    TargetBounds(1499, price);
    var b := Target(1499, price);
    BorrowMargin(p, t, b);
    assert Margin(p, t) == 2997 * WAD * 5000 - p.debt * price * 10000;
  }

  /** At this HOLLAR price, no borrow that the script sizes exceeds the exact limit. */
  ghost predicate AlwaysSafe(price: nat) {
    forall p: Position, t: Terms :: t.hollarPrice == price && Size(p, t).Borrow? ==> Margin(Borrowed(p, Size(p, t).amount), t) >= 0
  }

  /**
    The 0.1-HOLLAR floor absorbs all rounding exactly from a HOLLAR price of 14976 (0.00014976 in base
    currency) on; at every lower price some position is pushed over its limit.
   */
  lemma {:induction false} AlwaysSafeIff(price: nat)
    requires price > 0
    ensures AlwaysSafe(price) <==> price >= SAFE_PRICE
  {
    if price >= SAFE_PRICE {
      forall p: Position, t: Terms | t.hollarPrice == price && Size(p, t).Borrow?
        ensures Margin(Borrowed(p, Size(p, t).amount), t) >= 0
      {
        BorrowSafe(p, t);
      }
    } else {
      var p, t := Edge(price), Terms(100000000, price, 5000);
      EdgeOverdraws(price);
      assert t.hollarPrice == price;
    }
  }

  // ---------------------------------------------------------------- the pool's check

  lemma {:induction false} PercentDivFits(x: nat, c: nat, ltv: nat)
    requires ltv > 0 && x * 10000 < c * ltv
    ensures PercentDiv(x, ltv) <= c
  {
    var q := PercentDiv(x, ltv);
    DivBounds(x * 10000 + ltv / 2, ltv);
    MulMonoIf(c + 1, q, ltv);
    assert (c + 1) * ltv == c * ltv + ltv;
  }

  /** A borrow that the script sizes is never rejected, at any positive price. */
  lemma {:induction false} NeverRejected(p: Position, t: Terms)
    requires Size(p, t).Borrow?
    ensures PoolAccepts(p, t, Size(p, t).amount)
  {
    var h, b := Headroom(p, t), Size(p, t).amount;
    var c, d := Base(p.collateral, t.collateralPrice), Base(p.debt, t.hollarPrice);
    HeadroomBounds(p, t);
    TargetBounds(h, t.hollarPrice);
    BaseBounds(b, t.hollarPrice);
    var v := Base(b, t.hollarPrice);
    assert v < h;
    DivBounds(c * t.ltv + 5000, 10000);
    assert (d + v) * 10000 < c * t.ltv;
    NoLimit(c, t.ltv);
    PercentDivFits(d + v, c, t.ltv);
  }

  // ---------------------------------------------------------------- whole runs

  lemma {:induction false} ZapMargin(p: Position, t: Terms, zap: Zap, i: nat, b: nat)
    requires CreatesNoValue(zap, t) && t.ltv <= 10000
    ensures var p' := Supplied(Borrowed(p, b), zap(i, b));
      Margin(Borrowed(p, b), t) <= Margin(p', t) <= Margin(p, t) - b * t.hollarPrice * (10000 - t.ltv)
  {
    var a := zap(i, b);
    BorrowMargin(p, t, b);
    SupplyMargin(Borrowed(p, b), t, a);
    assert a * t.collateralPrice <= b * t.hollarPrice;
    MulMono(a * t.collateralPrice, b * t.hollarPrice, t.ltv);
    assert b * t.hollarPrice * (10000 - t.ltv) == b * t.hollarPrice * 10000 - b * t.hollarPrice * t.ltv;
    MulMono(0, a * t.collateralPrice, t.ltv);
  }

  /**
    Safety over every run of any length. Above the safe price, with a zap that creates no value: a run
    that borrows at all ends inside its exact limit, a run that starts inside stays inside, and the pool
    never rejects.
   */
  lemma {:induction false} RunsStaySafe(p: Position, t: Terms, zap: Zap, i: nat, left: nat)
    requires CreatesNoValue(zap, t) && t.ltv <= 10000 && t.hollarPrice >= SAFE_PRICE
    ensures var r := Rounds(p, t, zap, i, left);
      && (r.rounds > 0 || Margin(p, t) >= 0 ==> Margin(r.end, t) >= 0)
      && !r.why.Rejected? && !r.why.DivisionByZero?
    decreases left
  {
    if left > 0 {
      match Size(p, t)
      case Halt(_) =>
      case Borrow(b) =>
        NeverRejected(p, t);
        BorrowSafe(p, t);
        ZapMargin(p, t, zap, i, b);
        RunsStaySafe(Supplied(Borrowed(p, b), zap(i, b)), t, zap, i + 1, left - 1);
    }
  }

  /**
    What a non-negative margin means: the health factor, collateral value times liquidation threshold
    over debt value, is at least threshold over LTV; and below 100% LTV the equity is positive.
   */
  lemma {:induction false} SafeMeansHealthy(p: Position, t: Terms, threshold: nat)
    requires Margin(p, t) >= 0
    ensures (p.collateral * t.collateralPrice * threshold) * t.ltv >= (p.debt * t.hollarPrice * 10000) * threshold
    ensures t.ltv < 10000 && p.debt * t.hollarPrice > 0 ==> p.collateral * t.collateralPrice > p.debt * t.hollarPrice
  {
    var x, y := p.collateral * t.collateralPrice, p.debt * t.hollarPrice;
    MulMono(y * 10000, x * t.ltv, threshold);
    assert (x * threshold) * t.ltv == (x * t.ltv) * threshold;
    MulMonoIf(x, y, t.ltv);
    MulMonoIf(t.ltv, 9999, y);
    assert y * t.ltv == t.ltv * y;
  }

  /** Limit arithmetic of `NotLiquidatable`: collateral base `c`, debt base `d`, exact values `x` and `y`. */
  lemma {:induction false} BaseWithinLimit(x: nat, y: nat, c: nat, d: nat, ltv: nat)
    requires x < c * WAD + WAD && d * WAD <= y && y * 10000 <= x * ltv
    ensures 10000 * d <= c * ltv + ltv
  {
    MulMono(x, c * WAD + WAD, ltv);
    assert (c * WAD + WAD) * ltv == (c * ltv + ltv) * WAD;
  }

  lemma {:induction false} RatioAtLeast(a: nat, d: nat)
    requires d > 0
    ensures a >= d ==> (a * WAD + d / 2) / d >= WAD
    ensures a < d < 2 * WAD ==> (a * WAD + d / 2) / d < WAD
  {
    var q := (a * WAD + d / 2) / d;
    if a >= d {
      MulMono(d, a, WAD);
      DivAtLeast(a * WAD + d / 2, d, WAD);
    } else {
      DivBounds(a * WAD + d / 2, d);
      MulMono(a, d - 1, WAD);
      MulMonoIf(WAD, q, d);
    }
  }

  /** The rounded health factor is at least 1 exactly when the threshold's share covers the debt, below 2 * 10^10 in value. */
  lemma {:induction false} HealthFactorIff(p: Position, t: Terms, threshold: nat)
    requires 0 < Base(p.debt, t.hollarPrice) < 2 * WAD
    ensures var h := HealthFactor(p, t, threshold);
      h.Some? && (h.value >= WAD <==> PercentMul(Base(p.collateral, t.collateralPrice), threshold) >= Base(p.debt, t.hollarPrice))
  {
    RatioAtLeast(PercentMul(Base(p.collateral, t.collateralPrice), threshold), Base(p.debt, t.hollarPrice));
  }

  /** The limit is below the threshold's share of the collateral, rounding included. */
  lemma {:induction false} ShareCovers(c: nat, d: nat, ltv: nat, threshold: nat)
    requires 10000 * d <= c * ltv + ltv && ltv <= threshold
    requires c * (threshold - ltv) + 5000 >= ltv
    ensures PercentMul(c, threshold) >= d
  {
    assert c * threshold == c * ltv + c * (threshold - ltv);
    DivAtLeast(c * threshold + 5000, 10000, d);
  }

  /**
    A position within its limit is not liquidatable: the pool's own rounded health factor is at least 1,
    unless the gap between threshold and limit is too small for the rounding. For an LTV of at most 50%,
    as in both markets, there is no such exception.
   */
  lemma {:induction false} NotLiquidatable(p: Position, t: Terms, threshold: nat)
    requires Margin(p, t) >= 0 && t.ltv <= threshold
    requires t.ltv <= 5000 || Base(p.collateral, t.collateralPrice) * (threshold - t.ltv) + 5000 >= t.ltv
    ensures var h := HealthFactor(p, t, threshold);
      h.Some? ==> h.value >= WAD
  {
    var c, d := Base(p.collateral, t.collateralPrice), Base(p.debt, t.hollarPrice);
    BaseBounds(p.collateral, t.collateralPrice);
    BaseBounds(p.debt, t.hollarPrice);
    BaseWithinLimit(p.collateral * t.collateralPrice, p.debt * t.hollarPrice, c, d, t.ltv);
    MulMono(0, threshold - t.ltv, c);
    assert c * (threshold - t.ltv) >= 0;
    ShareCovers(c, d, t.ltv, threshold);
    if d > 0 {
      RatioAtLeast(PercentMul(c, threshold), d);
    }
  }

  // ---------------------------------------------------------------- progress

  /** The strictly decreasing measure: the margin, shifted so that a reading with headroom is positive. */
  function Fuel(p: Position, t: Terms): nat {
    var m := Margin(p, t) + 15000 * WAD;
    if m < 0 then 0 else m
  }

  /** A borrow of at least `floor` at a positive price and an LTV below 100% gives up margin. */
  lemma {:induction false} LossAtLeast(floor: nat, b: nat, price: nat, rest: nat)
    requires b >= floor && price >= 1 && rest >= 1
    ensures b * price * rest >= floor
  {
    MulMono(1, price, b);
    MulMono(1, rest, b * price);
  }

  lemma {:induction false} FuelDecreases(p: Position, t: Terms, zap: Zap, i: nat, b: nat)
    requires CreatesNoValue(zap, t) && t.ltv < 10000 && Decide(p, t) == Borrow(b)
    ensures Fuel(Supplied(Borrowed(p, b), zap(i, b)), t) < Fuel(p, t)
    ensures b * t.hollarPrice * (10000 - t.ltv) >= MIN_NEXT_BORROW
    ensures Margin(Supplied(Borrowed(p, b), zap(i, b)), t) >= -15000 * WAD
  {
    ZapMargin(p, t, zap, i, b);
    BorrowLosesLittle(p, t);
    HeadroomBounds(p, t);
    LossAtLeast(MIN_NEXT_BORROW, b, t.hollarPrice, 10000 - t.ltv);
  }

  /** The loop without any bound on the rounds. It is a total function: below 100% LTV it always stops. */
  ghost function Unbounded(p: Position, t: Terms, zap: Zap, i: nat): RunResult
    requires CreatesNoValue(zap, t) && t.ltv < 10000
    decreases Fuel(p, t)
  {
    match Decide(p, t)
    case Halt(why) => RunResult(p, why, 0, 0)
    case Borrow(b) =>
      FuelDecreases(p, t, zap, i, b);
      Later(Unbounded(Supplied(Borrowed(p, b), zap(i, b)), t, zap, i + 1), 1, b)
  }

  /** A bounded run that stops for another reason than its bound is the unbounded run. */
  lemma {:induction false} BoundedIsUnbounded(p: Position, t: Terms, zap: Zap, i: nat, left: nat)
    requires CreatesNoValue(zap, t) && t.ltv < 10000
    ensures var r, u := Rounds(p, t, zap, i, left), Unbounded(p, t, zap, i);
      && (r.why != RoundsUsed || u.rounds < left ==> r == u)
      && (u.rounds >= left ==> r.rounds == left && r.why == RoundsUsed)
    decreases left
  {
    if left > 0 {
      match Decide(p, t)
      case Halt(_) =>
      case Borrow(b) => BoundedIsUnbounded(Supplied(Borrowed(p, b), zap(i, b)), t, zap, i + 1, left - 1);
    }
  }

  lemma {:induction false} Distribute(a: nat, b: nat, price: nat, k: nat)
    ensures (a + b) * price * k == a * price * k + b * price * k
  {
    assert (a + b) * price == a * price + b * price;
  }

  /** Every round takes at least a fixed amount off the margin; so do all of them together. */
  lemma {:induction false} TotalAgainstMargin(p: Position, t: Terms, zap: Zap, i: nat)
    requires CreatesNoValue(zap, t) && t.ltv < 10000
    ensures var u := Unbounded(p, t, zap, i);
      && u.total * t.hollarPrice * (10000 - t.ltv) <= Margin(p, t) - Margin(u.end, t)
      && u.rounds * MIN_NEXT_BORROW <= u.total * t.hollarPrice * (10000 - t.ltv)
      && (u.rounds > 0 ==> Margin(u.end, t) >= -15000 * WAD)
    decreases Fuel(p, t)
  {
    match Decide(p, t)
    case Halt(_) =>
    case Borrow(b) =>
      FuelDecreases(p, t, zap, i, b);
      ZapMargin(p, t, zap, i, b);
      var p' := Supplied(Borrowed(p, b), zap(i, b));
      TotalAgainstMargin(p', t, zap, i + 1);
      var u' := Unbounded(p', t, zap, i + 1);
      Distribute(u'.total, b, t.hollarPrice, 10000 - t.ltv);
  }

  /**
    The size theorem: below 100% LTV everything a run ever borrows is worth at most its first headroom
    divided by (1 - LTV), up to 2 base units and the LTV of rounding slack; and the number of rounds is
    bounded by the same quantity over 0.1 HOLLAR.
   */
  lemma {:induction false} BorrowingBounded(p: Position, t: Terms, zap: Zap)
    requires CreatesNoValue(zap, t) && t.ltv < 10000
    ensures var u := Unbounded(p, t, zap, 1);
      && u.total * t.hollarPrice * (10000 - t.ltv) <= (10000 * Headroom(p, t) + 20000 + t.ltv) * WAD
      && u.rounds * MIN_NEXT_BORROW <= (10000 * Headroom(p, t) + 20000 + t.ltv) * WAD
  {
    TotalAgainstMargin(p, t, zap, 1);
    if Decide(p, t).Borrow? {
      HeadroomBounds(p, t);
    }
  }
}
