/** The Dice game (`DiceGame`): a roll in [0, 100) against a prediction,
    won by rolling over it or under it as the player chose; a win pays 99
    divided by the win chance in percent. */
module Dice {
  import opened Bankroll

  /** The prediction slider's range. */
  predicate ValidPrediction(prediction: real) {
    1.0 <= prediction <= 99.0
  }

  /** `winChance` in `calculateMultiplier`, in percent. */
  function WinChance(isOver: bool, prediction: real): real {
    if isOver then 100.0 - prediction else prediction
  }

  /** The win test of `rollDice`. */
  predicate Won(isOver: bool, prediction: real, roll: real) {
    if isOver then roll > prediction else roll < prediction
  }

  /** The win chance is the share of [0, 100) that wins: the top
      `WinChance` percent of the rolls when rolling over, the bottom
      `WinChance` percent when rolling under. */
  lemma WinChanceMeasuresWins(isOver: bool, prediction: real, roll: real)
    requires ValidPrediction(prediction) && 0.0 <= roll < 100.0
    ensures 0.0 < WinChance(isOver, prediction) < 100.0
    ensures isOver ==> (Won(isOver, prediction, roll) <==> roll > 100.0 - WinChance(isOver, prediction))
    ensures !isOver ==> (Won(isOver, prediction, roll) <==> roll < WinChance(isOver, prediction))
  {
  }

  /** `Number.prototype.toFixed(4)` read back by `parseFloat`, on a
      non-negative value: the nearest multiple of 0.0001, the larger one on a
      tie. */
  function ToFixed4(x: real): (y: real)
    requires x >= 0.0
    ensures x - 0.00005 < y <= x + 0.00005
    ensures x >= 1.0 ==> y >= 1.0
    ensures x <= 99.0 ==> y <= 99.0
    ensures (y * 10000.0).Floor as real == y * 10000.0
  {
    var z := x * 10000.0 + 0.5;
    assert z.Floor as real <= z < z.Floor as real + 1.0;
    z.Floor as real / 10000.0
  }

  /** `calculateMultiplier`: 99 over the win chance, rounded to four
      decimals. The multiplier times the win chance is 99 up to that
      rounding, and lies between 1 and 99. */
  function DiceMultiplier(isOver: bool, prediction: real): (m: real)
    requires ValidPrediction(prediction)
    ensures var c := WinChance(isOver, prediction);
      99.0 - 0.00005 * c < m * c <= 99.0 + 0.00005 * c
    ensures 1.0 <= m <= 99.0
  {
    var c := WinChance(isOver, prediction);
    Quotient(c);
    var m := ToFixed4(99.0 / c);
    WithinRounding(99.0 / c, m, c);
    m
  }

  lemma Quotient(c: real)
    requires 1.0 <= c <= 99.0
    ensures (99.0 / c) * c == 99.0
    ensures 1.0 <= 99.0 / c <= 99.0
  {
    var x := 99.0 / c;
    assert x * c == 99.0;
    assert (x - 1.0) * c == 99.0 - c;
    assert (99.0 - x) * c == 99.0 * (c - 1.0);
  }

  lemma WithinRounding(x: real, m: real, c: real)
    requires c > 0.0 && x * c == 99.0 && x - 0.00005 < m <= x + 0.00005
    ensures 99.0 - 0.00005 * c < m * c <= 99.0 + 0.00005 * c
  {
    var d := m - x;
    assert m * c - 99.0 == d * c;
    assert (0.00005 - d) * c >= 0.0;
    assert (d + 0.00005) * c > 0.0;
  }

  /** The expected return of one unit staked is 0.99 up to the rounding of
      the multiplier, whatever the prediction and direction: the house keeps
      1%. */
  lemma HouseEdge(isOver: bool, prediction: real)
    requires ValidPrediction(prediction)
    ensures var r := DiceMultiplier(isOver, prediction) * WinChance(isOver, prediction) / 100.0;
      0.99 - 0.00005 < r <= 0.99 + 0.00005
  {
  }

  /** The predictions the slider offers never give a multiplier below 1:
      a winning roll never pays less than the stake. */
  lemma WinNeverLoses(isOver: bool, prediction: real, bet: real)
    requires ValidPrediction(prediction) && bet > 0.0
    ensures Payout(bet, DiceMultiplier(isOver, prediction)) >= bet
  {
    var m := DiceMultiplier(isOver, prediction);
    assert bet * m - bet == bet * (m - 1.0);
  }

  /** `rollDice`: `r` is `Math.random()`, so the roll is `r * 100`. A stake
      under 0.10 or over the balance changes nothing. Otherwise the stake is
      taken, a win pays the stake times the multiplier, and the history
      records the multiplier on a win and 0 on a loss. */
  method RollDice(ledger: Ledger, bet: real, isOver: bool, prediction: real, r: real)
    returns (played: bool, won: bool)
    requires ledger.Valid() && ValidPrediction(prediction) && 0.0 <= r < 1.0
    modifies ledger
    ensures ledger.Valid()
    ensures played == old(ledger.Accepts(bet))
    ensures !played ==> unchanged(ledger)
    ensures played ==> won == Won(isOver, prediction, r * 100.0)
    ensures played ==>
      var paid := if won then DiceMultiplier(isOver, prediction) else 0.0;
      && ledger.balance == old(ledger.balance) - bet + Payout(bet, paid)
      && ledger.history == Prepended(old(ledger.history), Entry(Game.Dice, bet, paid, Payout(bet, paid) - bet))
      && Settled(ledger.history[0])
  {
    played, won := ledger.Accepts(bet), false;
    if !played {
      return;
    }
    var roll := r * 100.0;
    won := Won(isOver, prediction, roll);
    var multiplier := DiceMultiplier(isOver, prediction);
    ledger.StakeAndSettle(Game.Dice, bet, if won then multiplier else 0.0);
  }
}
