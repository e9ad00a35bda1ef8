/** The Mines round (`MinesGame`): a 5x5 grid hiding `mineCount` mines; each
    safe reveal is a gem, a mine ends the round, cash-out pays the stake
    times the current multiplier. */
module Mines {
  import opened Bankroll
  import opened Sampling

  const Cells: int := 25

  /** The product `calculateMinesMultiplier` accumulates: factor `i` is
      `(safeSpots - i) / (25 - mines - i)` for `i` in `[0, gems)`. */
  function MinesMultiplier(gems: nat, mines: int, safeSpots: int): real
    requires gems <= Cells - mines
  {
    if gems == 0 then 1.0
    else
      var i := gems - 1;
      MinesMultiplier(i, mines, safeSpots) * ((safeSpots - i) as real / (Cells - mines - i) as real)
  }

  /** The round always passes `safeSpots = 25 - mines`, so every factor is
      `x / x` and the multiplier is exactly 1 whatever the progress. */
  lemma {:induction false} MultiplierIsOne(gems: nat, mines: int)
    requires gems <= Cells - mines
    ensures MinesMultiplier(gems, mines, Cells - mines) == 1.0
  {
    if gems > 0 {
      MultiplierIsOne(gems - 1, mines);
    }
  }

  /** The `for` loop of `calculateMinesMultiplier`; the denominators stay
      positive because a round never finds more gems than safe cells. */
  method CalculateMinesMultiplier(gems: nat, mines: int, safeSpots: int) returns (multiplier: real)
    requires gems <= Cells - mines
    ensures multiplier == MinesMultiplier(gems, mines, safeSpots)
    ensures safeSpots == Cells - mines ==> multiplier == 1.0
  {
    multiplier := 1.0;
    for i := 0 to gems
      invariant multiplier == MinesMultiplier(i, mines, safeSpots)
    {
      multiplier := multiplier * ((safeSpots - i) as real / (Cells - mines - i) as real);
    }
    if safeSpots == Cells - mines {
      MultiplierIsOne(gems, mines);
    }
  }

  class MinesRound {
    var betAmount: real
    var mineCount: int
    var gameActive: bool
    var minePositions: seq<int>
    var revealedCells: seq<int>
    var currentMultiplier: real
    var gemsFound: int

    /** While a round is active: the mines are a sample committed at start,
        every revealed cell is a distinct gem, and the multiplier is 1. */
    ghost predicate Valid()
      reads this
    {
      gameActive ==>
        && MinBet <= betAmount
        && 1 <= mineCount <= 24
        && IsSample(minePositions, mineCount, Cells)
        && Distinct(revealedCells) && InRange(revealedCells, Cells)
        && (forall c :: c in revealedCells ==> c !in minePositions)
        && gemsFound == |revealedCells| <= Cells - mineCount
        && currentMultiplier == 1.0
    }

    /** The component's initial state: stake 1.00, 3 mines, no round. */
    constructor ()
      ensures Valid() && !gameActive
      ensures betAmount == 1.0 && mineCount == 3
      ensures minePositions == [] && revealedCells == []
      ensures currentMultiplier == 1.0 && gemsFound == 0
    {
      betAmount := 1.0;
      mineCount := 3;
      gameActive := false;
      minePositions := [];
      revealedCells := [];
      currentMultiplier := 1.0;
      gemsFound := 0;
    }

    /** `initializeGame`: `mines` is the outcome of the sampling loop. A
        stake under 0.10 or over the balance changes nothing. */
    method InitializeGame(bet: real, count: int, mines: seq<int>, ledger: Ledger) returns (started: bool)
      requires Valid() && ledger.Valid() && !gameActive
      requires 1 <= count <= 24 && IsSample(mines, count, Cells)
      modifies this, ledger
      ensures Valid() && ledger.Valid()
      ensures started == old(ledger.Accepts(bet))
      ensures !started ==> unchanged(this) && unchanged(ledger)
      ensures started ==>
        && gameActive && betAmount == bet && mineCount == count
        && minePositions == mines && revealedCells == []
        && gemsFound == 0 && currentMultiplier == 1.0
        && ledger.balance == old(ledger.balance) - bet
        && ledger.history == old(ledger.history)
    {
      started := ledger.Accepts(bet);
      if !started {
        return;
      }
      betAmount, mineCount := bet, count;
      minePositions := mines;
      revealedCells := [];
      gameActive := true;
      currentMultiplier := 1.0;
      gemsFound := 0;
      ledger.UpdateBalance(-bet);
    }

    /** `revealCell`: ignored when no round is active or the cell is already
        open; otherwise the cell is appended, and a mine ends the round with
        a recorded loss while a gem adds one to `gemsFound`. */
    method RevealCell(index: int, ledger: Ledger)
      requires Valid() && ledger.Valid() && 0 <= index < Cells
      modifies this, ledger
      ensures Valid() && ledger.Valid()
      ensures !old(gameActive) || index in old(revealedCells) ==> unchanged(this) && unchanged(ledger)
      ensures old(gameActive) && index !in old(revealedCells) ==>
        && revealedCells == old(revealedCells) + [index]
        && minePositions == old(minePositions)
        && betAmount == old(betAmount) && mineCount == old(mineCount)
        && ledger.balance == old(ledger.balance)
      ensures old(gameActive) && index !in old(revealedCells) && index in minePositions ==>
        && !gameActive
        && gemsFound == old(gemsFound) && currentMultiplier == old(currentMultiplier)
        && ledger.history == Prepended(old(ledger.history), Entry(Game.Mines, betAmount, 0.0, -betAmount))
        && Settled(ledger.history[0])
      ensures old(gameActive) && index !in old(revealedCells) && index !in minePositions ==>
        && gameActive
        && gemsFound == old(gemsFound) + 1
        && currentMultiplier == 1.0
        && ledger.history == old(ledger.history)
    {
      if !gameActive || index in revealedCells {
        return;
      }
      revealedCells := revealedCells + [index];
      if index in minePositions {
        gameActive := false;
        ledger.AddToHistory(Game.Mines, betAmount, 0.0, -betAmount);
      } else {
        DisjointSamplesFit(revealedCells, minePositions, Cells);
        var newGemsFound := gemsFound + 1;
        gemsFound := newGemsFound;
        var safeSpots := Cells - mineCount;
        var multiplier := CalculateMinesMultiplier(newGemsFound, mineCount, safeSpots);
        currentMultiplier := multiplier;
      }
    }

    /** `cashOut`: only with an active round and at least one gem; pays the
        stake times the multiplier, which is the stake itself. */
    method CashOut(ledger: Ledger)
      requires Valid() && ledger.Valid()
      modifies this, ledger
      ensures Valid() && ledger.Valid()
      ensures !old(gameActive) || old(gemsFound) == 0 ==> unchanged(this) && unchanged(ledger)
      ensures old(gameActive) && old(gemsFound) > 0 ==>
        && !gameActive
        && revealedCells == old(revealedCells) && minePositions == old(minePositions)
        && gemsFound == old(gemsFound) && currentMultiplier == old(currentMultiplier)
        && betAmount == old(betAmount) && mineCount == old(mineCount)
        && ledger.balance == old(ledger.balance) + Payout(betAmount, currentMultiplier)
        && ledger.balance == old(ledger.balance) + betAmount
        && ledger.history == Prepended(old(ledger.history),
                                       Entry(Game.Mines, betAmount, currentMultiplier, Payout(betAmount, currentMultiplier) - betAmount))
        && Settled(ledger.history[0])
    {
      if !gameActive || gemsFound == 0 {
        return;
      }
      gameActive := false;
      ledger.Settle(Game.Mines, betAmount, currentMultiplier);
    }
  }
}
