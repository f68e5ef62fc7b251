/** What a run of the leverage loop leaves behind: no headroom to speak of, and a ledger that adds up. */
module LeverageStops {
  import opened Arithmetic
  import opened LeverageLoop
  import opened LeverageProofs

  // ---------------------------------------------------------------- the readings

  /** Whatever the position, exact margin beyond the rounding is read as headroom. */
  lemma {:induction false} MarginIsRead(p: Position, t: Terms)
    ensures Margin(p, t) < (10000 * Headroom(p, t) + 5000 + t.ltv) * WAD
  {
    var x, y := p.collateral * t.collateralPrice, p.debt * t.hollarPrice;
    var c, d := Base(p.collateral, t.collateralPrice), Base(p.debt, t.hollarPrice);
    BaseBounds(p.collateral, t.collateralPrice);
    BaseBounds(p.debt, t.hollarPrice);
    if t.ltv > 0 {
      ReadingBounds(x, y, c, d, t.ltv);
    } else {
      assert x * t.ltv == 0;
    }
  }

  /** The script borrows if and only if 99.9% of the headroom is worth 0.1 HOLLAR or more, and then exactly that. */
  lemma {:induction false} BorrowsIff(p: Position, t: Terms)
    requires t.hollarPrice > 0
    ensures var next := Headroom(p, t) * WAD / t.hollarPrice * 9990 / 10000;
      && (Size(p, t).Borrow? <==> next >= 100000000000000000)
      && (Size(p, t).Borrow? ==> Size(p, t).amount == next)
  {
    if Headroom(p, t) == 0 {
      ZeroQuotient(t.hollarPrice);
    }
  }

  lemma {:induction false} ZeroQuotient(d: nat)
    requires d > 0
    ensures 0 / d == 0
  {
  }

  lemma {:induction false} NothingBacksNothing(amount: nat, price: nat)
    ensures amount == 0 || price == 0 ==> Base(amount, price) == 0
  {
    if amount == 0 || price == 0 {
      assert amount * price == 0;
    }
  }

  /** A borrow that the pool accepts is backed, and overdraws the exact limit by no more than the pool's own rounding. */
  lemma {:induction false} AcceptedNearLimit(p: Position, t: Terms, b: nat)
    requires PoolAccepts(p, t, b)
    ensures b > 0 && p.collateral > 0 && t.collateralPrice > 0 && t.ltv > 0
    ensures Margin(Borrowed(p, b), t) > -(20000 + t.ltv) * WAD
  {
    var c, d, v := Base(p.collateral, t.collateralPrice), Base(p.debt, t.hollarPrice), Base(b, t.hollarPrice);
    BaseBounds(p.collateral, t.collateralPrice);
    BaseBounds(p.debt, t.hollarPrice);
    BaseBounds(b, t.hollarPrice);
    NothingBacksNothing(p.collateral, t.collateralPrice);
    BorrowMargin(p, t, b);
    DivBounds((d + v) * 10000 + t.ltv / 2, t.ltv);
    MulMono(PercentDiv(d + v, t.ltv), c, t.ltv);
    MulMono(c * WAD, p.collateral * t.collateralPrice, t.ltv);
    assert (c * WAD) * t.ltv == (c * t.ltv) * WAD;
  }

  // ---------------------------------------------------------------- why a run stops

  /** A halt at a positive price leaves less headroom than a borrow of 0.1 HOLLAR needs, rounding included. */
  lemma {:induction false} HaltMeansNoHeadroom(p: Position, t: Terms)
    requires t.hollarPrice > 0 && Decide(p, t).Halt?
    ensures Decide(p, t).why in {NoHeadroom, BelowFloor}
    ensures Headroom(p, t) * WAD * 9990 < (MIN_NEXT_BORROW + 2) * t.hollarPrice * 10000
  {
    if Size(p, t).Borrow? {
      NeverRejected(p, t);
    }
    if Headroom(p, t) > 0 {
      TargetBounds(Headroom(p, t), t.hollarPrice);
      MulMono(Target(Headroom(p, t), t.hollarPrice), MIN_NEXT_BORROW, t.hollarPrice);
    }
  }

  /** An unbounded run at a positive price stops for want of headroom, and of nothing else. */
  lemma {:induction false} RunUsesHeadroom(p: Position, t: Terms, zap: Zap, i: nat)
    requires CreatesNoValue(zap, t) && t.ltv < 10000 && t.hollarPrice > 0
    ensures var u := Unbounded(p, t, zap, i);
      && u.why in {NoHeadroom, BelowFloor}
      && Headroom(u.end, t) * WAD * 9990 < (MIN_NEXT_BORROW + 2) * t.hollarPrice * 10000
      && Margin(u.end, t) < (10000 * Headroom(u.end, t) + 5000 + t.ltv) * WAD
    decreases Fuel(p, t)
  {
    match Decide(p, t)
    case Halt(_) =>
      HaltMeansNoHeadroom(p, t);
      MarginIsRead(p, t);
    case Borrow(b) =>
      FuelDecreases(p, t, zap, i, b);
      RunUsesHeadroom(Supplied(Borrowed(p, b), zap(i, b)), t, zap, i + 1);
  }

  // ---------------------------------------------------------------- the ledger

  /** The zap mints collateral worth exactly the HOLLAR it took. */
  ghost predicate Fair(zap: Zap, t: Terms) {
    forall i: nat, amount: nat :: zap(i, amount) * t.collateralPrice == amount * t.hollarPrice
  }

  function Equity(p: Position, t: Terms): int {
    p.collateral * t.collateralPrice - p.debt * t.hollarPrice
  }

  lemma {:induction false} RoundEquity(p: Position, t: Terms, a: nat, b: nat)
    ensures Equity(Supplied(Borrowed(p, b), a), t) == Equity(p, t) + a * t.collateralPrice - b * t.hollarPrice
  {
    assert (p.collateral + a) * t.collateralPrice == p.collateral * t.collateralPrice + a * t.collateralPrice;
    assert (p.debt + b) * t.hollarPrice == p.debt * t.hollarPrice + b * t.hollarPrice;
  }

  /**
    Every run's books: the debt grows by exactly what was borrowed, each round borrows at least 0.1
    HOLLAR, no collateral is lost, and with a fair zap the equity stays what it was.
   */
  lemma {:induction false} LedgerBalances(p: Position, t: Terms, zap: Zap, i: nat, left: nat)
    ensures var r := Rounds(p, t, zap, i, left);
      && r.end.debt == p.debt + r.total && r.end.collateral >= p.collateral
      && r.rounds <= left && r.total >= r.rounds * 100000000000000000
      && (Fair(zap, t) ==> Equity(r.end, t) == Equity(p, t))
    decreases left
  {
    if left > 0 {
      match Decide(p, t)
      case Halt(_) =>
      case Borrow(b) =>
        LedgerBalances(Supplied(Borrowed(p, b), zap(i, b)), t, zap, i + 1, left - 1);
        RoundEquity(p, t, zap(i, b), b);
        if Fair(zap, t) {
          assert zap(i, b) * t.collateralPrice == b * t.hollarPrice;
        }
    }
  }

  /** Seeding adds both wallet balances, the HOLLAR through the zap, and no debt. */
  lemma {:induction false} SeedingAdds(p: Position, t: Terms, zap: Zap, walletCollateral: nat, walletHollar: nat)
    ensures var s := Seeded(p, zap, walletCollateral, walletHollar);
      && s.debt == p.debt
      && (walletHollar == 0 ==> s.collateral == p.collateral + walletCollateral)
      && (walletHollar > 0 ==> s.collateral == p.collateral + walletCollateral + zap(0, walletHollar))
      && (Fair(zap, t) ==> Equity(s, t) == Equity(p, t) + walletCollateral * t.collateralPrice + walletHollar * t.hollarPrice)
  {
    var minted := if walletHollar > 0 then zap(0, walletHollar) else 0;
    assert Seeded(p, zap, walletCollateral, walletHollar) == Supplied(Borrowed(p, 0), walletCollateral + minted);
    RoundEquity(p, t, walletCollateral + minted, 0);
    assert (walletCollateral + minted) * t.collateralPrice == walletCollateral * t.collateralPrice + minted * t.collateralPrice;
    if Fair(zap, t) {
      assert walletHollar > 0 ==> minted * t.collateralPrice == walletHollar * t.hollarPrice;
    }
  }
}
