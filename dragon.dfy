/** The Dragon Tower round (`DragonGame`): 9 floors of 4 doors, some doors
    on each floor hiding an egg; each safe door multiplies the stake's
    multiplier and climbs a floor, an egg ends the round. */
module Dragon {
  import opened Bankroll
  import opened Sampling

  const Floors: int := 9
  const Doors: int := 4
  const TopFloor: int := Floors - 1

  datatype Difficulty = Easy | Medium | Hard

  datatype Setting = Setting(eggs: int, multiplier: real)

  datatype Door = Safe | Egg

  /** `difficultySettings`: eggs per floor and the per-floor factor. */
  function DifficultySettings(d: Difficulty): (s: Setting)
    ensures 1 <= s.eggs < Doors && s.multiplier > 1.0
  {
    match d
    case Easy => Setting(1, 1.5)
    case Medium => Setting(2, 2.0)
    case Hard => Setting(3, 3.0)
  }

  /** The chance of a safe door times the factor, per floor: easy favours
      the player (1.125), medium is even (1.0), hard favours the house (0.75). */
  lemma FloorReturn(d: Difficulty)
    ensures var s := DifficultySettings(d);
      (Doors - s.eggs) as real / Doors as real * s.multiplier
        == match d case Easy => 1.125 case Medium => 1.0 case Hard => 0.75
  {
  }

  /** `x` to the power `n`. */
  function Pow(x: real, n: nat): real {
    if n == 0 then 1.0 else Pow(x, n - 1) * x
  }

  /** A factor of at least 1 never shrinks the multiplier: it starts at 1 and
      grows with every floor climbed. */
  lemma {:induction false} PowGrows(x: real, m: nat, n: nat)
    requires x >= 1.0 && m <= n
    ensures 1.0 <= Pow(x, m) <= Pow(x, n)
    decreases n
  {
    if n > 0 {
      if m == n {
        PowGrows(x, m - 1, n - 1);
      } else {
        PowGrows(x, m, n - 1);
      }
    }
  }

  /** One more floor multiplies the multiplier by the factor once more. */
  lemma ClimbMultiplier(x: real, n: nat, m: real)
    requires x >= 1.0 && m == Pow(x, n)
    ensures m * x == Pow(x, n + 1) && m * x >= 1.0
  {
    PowGrows(x, 0, n + 1);
  }

  /** Paying more than 1 times a positive stake pays more than the stake. */
  lemma MoreThanStake(bet: real, multiplier: real)
    requires bet > 0.0 && multiplier > 1.0
    ensures Payout(bet, multiplier) > bet
  {
    assert bet * multiplier - bet == bet * (multiplier - 1.0);
  }

  /** The doors of a floor that hide an egg. */
  function EggDoors(floor: seq<Door>): set<int> {
    set d | 0 <= d < |floor| && floor[d] == Egg
  }

  /** One floor as `initializeGame` fills it: `Array(4).fill('safe')`, then
      an egg at each sampled position. */
  method PlaceEggs(eggPositions: seq<int>) returns (floor: seq<Door>)
    requires InRange(eggPositions, Doors)
    ensures |floor| == Doors
    ensures forall d :: 0 <= d < Doors ==> (floor[d] == Egg <==> d in eggPositions)
    ensures EggDoors(floor) == Elements(eggPositions)
  {
    var a := new Door[Doors](_ => Safe);
    var k := 0;
    while k < |eggPositions|
      invariant 0 <= k <= |eggPositions|
      invariant forall d :: 0 <= d < Doors ==> (a[d] == Egg <==> d in eggPositions[..k])
    {
      a[eggPositions[k]] := Egg;
      k := k + 1;
    }
    assert eggPositions[..k] == eggPositions;
    floor := a[..];
  }

  /** Every floor has four doors, exactly `eggs` of which hide an egg. */
  ghost predicate WellFormedTower(board: seq<seq<Door>>, eggs: int) {
    |board| == Floors &&
    forall f :: 0 <= f < Floors ==> |board[f]| == Doors && |EggDoors(board[f])| == eggs
  }

  /** The `for` loop of `initializeGame`: floor `f` gets eggs at the
      positions sampled for it. */
  method BuildTower(eggPositions: seq<seq<int>>, eggs: int) returns (board: seq<seq<Door>>)
    requires |eggPositions| == Floors
    requires forall f :: 0 <= f < Floors ==> IsSample(eggPositions[f], eggs, Doors)
    ensures WellFormedTower(board, eggs)
    ensures forall f, d :: 0 <= f < Floors && 0 <= d < Doors ==>
              (board[f][d] == Egg <==> d in eggPositions[f])
  {
    board := [];
    for i := 0 to Floors
      invariant |board| == i
      invariant forall f :: 0 <= f < i ==> |board[f]| == Doors && |EggDoors(board[f])| == eggs
      invariant forall f, d :: 0 <= f < i && 0 <= d < Doors ==>
                  (board[f][d] == Egg <==> d in eggPositions[f])
    {
      var floor := PlaceEggs(eggPositions[i]);
      DistinctElements(eggPositions[i]);
      board := board + [floor];
    }
  }

  class DragonRound {
    var betAmount: real
    var difficulty: Difficulty
    var gameActive: bool
    var currentFloor: int
    var gameBoard: seq<seq<Door>>
    var currentMultiplier: real

    /** While a round is active: the tower is the one committed at start and
        the multiplier is the factor to the power of the floors cleared. */
    ghost predicate Valid()
      reads this
    {
      gameActive ==>
        && MinBet <= betAmount
        && 0 <= currentFloor <= TopFloor
        && WellFormedTower(gameBoard, DifficultySettings(difficulty).eggs)
        && currentMultiplier == Pow(DifficultySettings(difficulty).multiplier, currentFloor)
    }

    /** The component's initial state: stake 1.00, easy, no round. */
    constructor ()
      ensures Valid() && !gameActive
      ensures betAmount == 1.0 && difficulty == Easy
      ensures currentFloor == 0 && gameBoard == [] && currentMultiplier == 1.0
    {
      betAmount := 1.0;
      difficulty := Easy;
      gameActive := false;
      currentFloor := 0;
      gameBoard := [];
      currentMultiplier := 1.0;
    }

    /** `initializeGame`: `eggPositions[f]` is what the sampling loop drew for
        floor `f`. A stake under 0.10 or over the balance changes nothing. */
    method InitializeGame(bet: real, level: Difficulty, eggPositions: seq<seq<int>>, ledger: Ledger)
      returns (started: bool)
      requires Valid() && ledger.Valid() && !gameActive
      requires |eggPositions| == Floors
      requires forall f :: 0 <= f < Floors ==> IsSample(eggPositions[f], DifficultySettings(level).eggs, Doors)
      modifies this, ledger
      ensures Valid() && ledger.Valid()
      ensures started == old(ledger.Accepts(bet))
      ensures !started ==> unchanged(this) && unchanged(ledger)
      ensures started ==>
        && gameActive && betAmount == bet && difficulty == level
        && currentFloor == 0 && currentMultiplier == 1.0
        && WellFormedTower(gameBoard, DifficultySettings(level).eggs)
        && (forall f, d :: 0 <= f < Floors && 0 <= d < Doors ==>
              (gameBoard[f][d] == Egg <==> d in eggPositions[f]))
        && ledger.balance == old(ledger.balance) - bet
        && ledger.history == old(ledger.history)
    {
      started := ledger.Accepts(bet);
      if !started {
        return;
      }
      var floors := BuildTower(eggPositions, DifficultySettings(level).eggs);
      betAmount, difficulty := bet, level;
      gameBoard := floors;
      currentFloor := 0;
      gameActive := true;
      currentMultiplier := 1.0;
      ledger.UpdateBalance(-bet);
    }

    /** `selectDoor`: an egg ends the round with a recorded loss; a safe door
        multiplies the multiplier by the factor and climbs a floor, and on
        the top floor settles at once. */
    method SelectDoor(door: int, ledger: Ledger)
      requires Valid() && ledger.Valid() && 0 <= door < Doors
      modifies this, ledger
      ensures Valid() && ledger.Valid()
      ensures !old(gameActive) ==> unchanged(this) && unchanged(ledger)
      ensures old(gameActive) ==>
        && gameBoard == old(gameBoard) && betAmount == old(betAmount) && difficulty == old(difficulty)
      ensures old(gameActive) && gameBoard[old(currentFloor)][door] == Egg ==>
        && !gameActive
        && currentFloor == old(currentFloor) && currentMultiplier == old(currentMultiplier)
        && ledger.balance == old(ledger.balance)
        && ledger.history == Prepended(old(ledger.history), Entry(Game.Dragon, betAmount, 0.0, -betAmount))
        && Settled(ledger.history[0])
      ensures old(gameActive) && gameBoard[old(currentFloor)][door] == Safe ==>
        currentMultiplier == Pow(DifficultySettings(difficulty).multiplier, old(currentFloor) + 1)
      ensures old(gameActive) && gameBoard[old(currentFloor)][door] == Safe && old(currentFloor) < TopFloor ==>
        && gameActive
        && currentFloor == old(currentFloor) + 1
        && unchanged(ledger)
      ensures old(gameActive) && gameBoard[old(currentFloor)][door] == Safe && old(currentFloor) == TopFloor ==>
        && !gameActive
        && currentFloor == TopFloor
        && ledger.balance == old(ledger.balance) + Payout(betAmount, currentMultiplier)
        && ledger.history == Prepended(old(ledger.history),
                                       Entry(Game.Dragon, betAmount, currentMultiplier, Payout(betAmount, currentMultiplier) - betAmount))
        && Settled(ledger.history[0])
    {
      if !gameActive {
        return;
      }
      var currentFloorData := gameBoard[currentFloor];
      if currentFloorData[door] == Egg {
        HitEgg(ledger);
      } else {
        ClimbFloor(ledger);
      }
    }

    /** The egg branch of `selectDoor`: the round ends and the loss is
        recorded; the stake was already taken at start. */
    method HitEgg(ledger: Ledger)
      requires Valid() && ledger.Valid() && gameActive
      modifies this, ledger
      ensures Valid() && ledger.Valid()
      ensures !gameActive
      ensures gameBoard == old(gameBoard) && betAmount == old(betAmount) && difficulty == old(difficulty)
      ensures currentFloor == old(currentFloor) && currentMultiplier == old(currentMultiplier)
      ensures ledger.balance == old(ledger.balance)
      ensures ledger.history == Prepended(old(ledger.history), Entry(Game.Dragon, betAmount, 0.0, -betAmount))
      ensures Settled(ledger.history[0])
    {
      gameActive := false;
      ledger.AddToHistory(Game.Dragon, betAmount, 0.0, -betAmount);
    }

    /** The safe branch of `selectDoor`: the multiplier grows by the factor;
        below the top the round climbs a floor, on the top floor it is paid
        out at once. */
    method ClimbFloor(ledger: Ledger)
      requires Valid() && ledger.Valid() && gameActive
      modifies this, ledger
      ensures Valid() && ledger.Valid()
      ensures gameBoard == old(gameBoard) && betAmount == old(betAmount) && difficulty == old(difficulty)
      ensures currentMultiplier == Pow(DifficultySettings(difficulty).multiplier, old(currentFloor) + 1)
      ensures old(currentFloor) < TopFloor ==>
        && gameActive
        && currentFloor == old(currentFloor) + 1
        && unchanged(ledger)
      ensures old(currentFloor) == TopFloor ==>
        && !gameActive
        && currentFloor == TopFloor
        && ledger.balance == old(ledger.balance) + Payout(betAmount, currentMultiplier)
        && ledger.history == Prepended(old(ledger.history),
                                       Entry(Game.Dragon, betAmount, currentMultiplier, Payout(betAmount, currentMultiplier) - betAmount))
        && Settled(ledger.history[0])
    {
      var factor := DifficultySettings(difficulty).multiplier;
      var newMultiplier := currentMultiplier * factor;
      ClimbMultiplier(factor, currentFloor, currentMultiplier);
      currentMultiplier := newMultiplier;
      if currentFloor == TopFloor {
        gameActive := false;
        ledger.Settle(Game.Dragon, betAmount, newMultiplier);
      } else {
        currentFloor := currentFloor + 1;
      }
    }

    /** `cashOut`: only with an active round and at least one floor cleared;
        pays the stake times the factor to the power of the floors cleared. */
    method CashOut(ledger: Ledger)
      requires Valid() && ledger.Valid()
      modifies this, ledger
      ensures Valid() && ledger.Valid()
      ensures !old(gameActive) || old(currentFloor) == 0 ==> unchanged(this) && unchanged(ledger)
      ensures old(gameActive) && old(currentFloor) > 0 ==>
        && !gameActive
        && currentFloor == old(currentFloor) && gameBoard == old(gameBoard)
        && currentMultiplier == old(currentMultiplier)
        && betAmount == old(betAmount) && difficulty == old(difficulty)
        && currentMultiplier == Pow(DifficultySettings(difficulty).multiplier, currentFloor)
        && ledger.balance == old(ledger.balance) + Payout(betAmount, currentMultiplier)
        && ledger.balance > old(ledger.balance) + betAmount
        && ledger.history == Prepended(old(ledger.history),
                                       Entry(Game.Dragon, betAmount, currentMultiplier, Payout(betAmount, currentMultiplier) - betAmount))
        && Settled(ledger.history[0])
    {
      if !gameActive || currentFloor == 0 {
        return;
      }
      var factor := DifficultySettings(difficulty).multiplier;
      PowGrows(factor, 1, currentFloor);
      MoreThanStake(betAmount, currentMultiplier);
      gameActive := false;
      ledger.Settle(Game.Dragon, betAmount, currentMultiplier);
    }
  }
}
