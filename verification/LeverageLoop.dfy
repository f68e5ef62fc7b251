/**
  The leverage loop: borrow HOLLAR against the collateral, turn it into more collateral, and repeat.
  Prices are fixed during a run. The pool's rounding is Aave V3's: base amounts are floored and
  percentages are rounded half up.
 */
module LeverageLoop {
  import opened Wrappers
  import opened Arithmetic

  const WAD: nat := 1000000000000000000
  const MIN_NEXT_BORROW: nat := 100000000000000000
  const TARGET_BPS: nat := 9990

  /** Oracle prices with 8 decimals, and the collateral's loan-to-value in basis points. */
  datatype Terms = Terms(collateralPrice: nat, hollarPrice: nat, ltv: nat)

  /** Balances in token units with 18 decimals. */
  datatype Position = Position(collateral: nat, debt: nat)

  function Base(amount: nat, price: nat): nat {
    amount * price / WAD
  }

  /** `availableBorrowsBase`. */
  function Headroom(p: Position, t: Terms): nat {
    var limit, debt := PercentMul(Base(p.collateral, t.collateralPrice), t.ltv), Base(p.debt, t.hollarPrice);
    if limit < debt then 0 else limit - debt
  }

  /** The pool's health factor, rounded as `wadDiv` does; `None` without debt. */
  function HealthFactor(p: Position, t: Terms, threshold: nat): Option<nat> {
    var debt := Base(p.debt, t.hollarPrice);
    if debt == 0 then None
    else Some((PercentMul(Base(p.collateral, t.collateralPrice), threshold) * WAD + debt / 2) / debt)
  }

  /** The pool's own check of a borrow: the collateral covers the new debt. */
  predicate PoolAccepts(p: Position, t: Terms, amount: nat) {
    var collateral := Base(p.collateral, t.collateralPrice);
    && amount > 0 && collateral > 0 && t.ltv > 0
    && PercentDiv(Base(p.debt, t.hollarPrice) + Base(amount, t.hollarPrice), t.ltv) <= collateral
  }

  datatype Stop = NoHeadroom | DivisionByZero | BelowFloor | Rejected | RoundsUsed

  datatype Decision = Halt(why: Stop) | Borrow(amount: nat)

  /** 99.9% of the headroom, as an amount of HOLLAR. */
  function Target(headroom: nat, price: nat): nat
    requires price > 0
  {
    var available: nat := headroom * WAD / price;
    available * TARGET_BPS / 10000
  }

  /** What one round reads and decides before it borrows. */
  function Size(p: Position, t: Terms): Decision {
    var headroom := Headroom(p, t);
    if headroom == 0 then Halt(NoHeadroom)
    else if t.hollarPrice == 0 then Halt(DivisionByZero)
    else if Target(headroom, t.hollarPrice) < MIN_NEXT_BORROW then Halt(BelowFloor)
    else Borrow(Target(headroom, t.hollarPrice))
  }

  /** The round's outcome, with the pool's own check. */
  function Decide(p: Position, t: Terms): Decision {
    var d := Size(p, t);
    if d.Borrow? && !PoolAccepts(p, t, d.amount) then Halt(Rejected) else d
  }

  function Borrowed(p: Position, amount: nat): Position {
    p.(debt := p.debt + amount)
  }

  function Supplied(p: Position, amount: nat): Position {
    p.(collateral := p.collateral + amount)
  }

  /** Collateral minted for the `i`-th deposit of an amount of HOLLAR; 0 is the deposit before the loop. */
  type Zap = (nat, nat) -> nat

  /** The zap never mints collateral worth more than the HOLLAR it took. */
  ghost predicate CreatesNoValue(zap: Zap, t: Terms) {
    forall i: nat, amount: nat :: zap(i, amount) * t.collateralPrice <= amount * t.hollarPrice
  }

  datatype RunResult = RunResult(end: Position, why: Stop, rounds: nat, total: nat)

  /** At most `left` rounds, the next of which is number `i`. */
  function Rounds(p: Position, t: Terms, zap: Zap, i: nat, left: nat): RunResult
    decreases left
  {
    if left == 0 then RunResult(p, RoundsUsed, 0, 0)
    else match Decide(p, t)
      case Halt(why) => RunResult(p, why, 0, 0)
      case Borrow(b) =>
        var r := Rounds(Supplied(Borrowed(p, b), zap(i, b)), t, zap, i + 1, left - 1);
        RunResult(r.end, r.why, r.rounds + 1, r.total + b)
  }

  /** The position after supplying the wallet's collateral and zapping the wallet's HOLLAR. */
  function Seeded(p: Position, zap: Zap, walletCollateral: nat, walletHollar: nat): Position {
    var p1 := Supplied(p, walletCollateral);
    if walletHollar > 0 then Supplied(p1, zap(0, walletHollar)) else p1
  }

  // ---------------------------------------------------------------- the script

  /** The account in the pool. */
  class Account {
    var collateral: nat
    var debt: nat

    constructor (p: Position)
      ensures State() == p
    {
      collateral, debt := p.collateral, p.debt;
    }

    ghost function State(): Position
      reads this
    {
      Position(collateral, debt)
    }

    method Supply(amount: nat)
      modifies this`collateral
      ensures State() == Supplied(old(State()), amount)
    {
      collateral := collateral + amount;
    }

    method PoolBorrow(t: Terms, amount: nat) returns (ok: bool)
      modifies this`debt
      ensures ok <==> PoolAccepts(old(State()), t, amount)
      ensures State() == if ok then Borrowed(old(State()), amount) else old(State())
    {
      ok := PoolAccepts(Position(collateral, debt), t, amount);
      if ok {
        debt := debt + amount;
      }
    }
  }

  /** The script's reading of one round: it borrows 99.9% of the headroom in HOLLAR, if that is 0.1 HOLLAR or more. */
  method SizeNextBorrow(p: Position, t: Terms) returns (d: Decision)
    ensures d == Size(p, t)
    ensures t.hollarPrice > 0 ==>
      (d.Borrow? <==> Headroom(p, t) * WAD / t.hollarPrice * 9990 / 10000 >= 100000000000000000)
    ensures d.Borrow? ==> t.hollarPrice > 0 && d.amount == Headroom(p, t) * WAD / t.hollarPrice * 9990 / 10000
    ensures d == Halt(NoHeadroom) <==> Headroom(p, t) == 0
    ensures d == Halt(DivisionByZero) <==> Headroom(p, t) > 0 && t.hollarPrice == 0
  {
    var headroom := Headroom(p, t);
    if headroom == 0 {
      return Halt(NoHeadroom);
    }
    if t.hollarPrice == 0 {
      return Halt(DivisionByZero);
    }
    var maxBorrow := headroom * WAD / t.hollarPrice;
    var nextBorrow := maxBorrow * TARGET_BPS / 10000;
    if nextBorrow < MIN_NEXT_BORROW {
      return Halt(BelowFloor);
    }
    d := Borrow(nextBorrow);
  }

  /** One round: nothing happens when it halts; otherwise a borrow and a supply. */
  method Round(account: Account, t: Terms, zap: Zap, i: nat) returns (d: Decision)
    modifies account
    ensures d == Decide(old(account.State()), t)
    ensures account.State() == AfterRound(old(account.State()), d, zap, i)
  {
    d := SizeNextBorrow(Position(account.collateral, account.debt), t);
    if d.Halt? {
      return;
    }
    var ok := account.PoolBorrow(t, d.amount);
    if !ok {
      return Halt(Rejected);
    }
    account.Supply(zap(i, d.amount));
  }

  method Seed(account: Account, zap: Zap, walletCollateral: nat, walletHollar: nat)
    modifies account
    ensures account.State() == Seeded(old(account.State()), zap, walletCollateral, walletHollar)
    ensures account.debt == old(account.debt)
    ensures account.collateral
      == old(account.collateral) + walletCollateral + (if walletHollar > 0 then zap(0, walletHollar) else 0)
  {
    if walletCollateral > 0 {
      account.Supply(walletCollateral);
    }
    if walletHollar > 0 {
      account.Supply(zap(0, walletHollar));
    }
  }

  /** The script, for any bound on the rounds; it is run with 25. */
  method LoopPosition(account: Account, t: Terms, zap: Zap, walletCollateral: nat, walletHollar: nat, maxRounds: nat)
    returns (why: Stop, rounds: nat, total: nat)
    modifies account
    ensures RunResult(account.State(), why, rounds, total)
      == Rounds(Seeded(old(account.State()), zap, walletCollateral, walletHollar), t, zap, 1, maxRounds)
  {
    Seed(account, zap, walletCollateral, walletHollar);
    ghost var seeded := account.State();
    rounds, total := 0, 0;
    while rounds < maxRounds
      invariant rounds <= maxRounds
      invariant Rounds(seeded, t, zap, 1, maxRounds)
        == Later(Rounds(account.State(), t, zap, rounds + 1, maxRounds - rounds), rounds, total)
    {
      ghost var before := account.State();
      var d := Round(account, t, zap, rounds + 1);
      RoundsUnfold(before, t, zap, rounds + 1, maxRounds - rounds, d, rounds, total);
      if d.Halt? {
        why := d.why;
        return;
      }
      rounds, total := rounds + 1, total + d.amount;
    }
    why := RoundsUsed;
  }

  function AfterRound(p: Position, d: Decision, zap: Zap, i: nat): Position {
    match d
    case Halt(_) => p
    case Borrow(b) => Supplied(Borrowed(p, b), zap(i, b))
  }

  /** A result, preceded by `rounds` rounds that borrowed `total`. */
  function Later(r: RunResult, rounds: nat, total: nat): RunResult {
    RunResult(r.end, r.why, rounds + r.rounds, total + r.total)
  }

  /** One round, seen behind the rounds before it. */
  lemma RoundsUnfold(p: Position, t: Terms, zap: Zap, i: nat, left: nat, d: Decision, rounds: nat, total: nat)
    requires left > 0 && d == Decide(p, t)
    ensures Later(Rounds(p, t, zap, i, left), rounds, total) ==
      (match d case Halt(why) => RunResult(p, why, rounds, total)
               case Borrow(b) => Later(Rounds(AfterRound(p, d, zap, i), t, zap, i + 1, left - 1), rounds + 1, total + b))
  {
  }
}
