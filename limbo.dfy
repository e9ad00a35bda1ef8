/** The Limbo game (`LimboGame`): a crash point drawn at start, and a target
    multiplier chosen by the player that wins when the crash point reaches
    it. */
module Limbo {
  import opened Bankroll

  /** `generateCrashPoint` for the draw `r = Math.random()`:
      `Math.max(1.00, Math.floor((99 / (r * 99)) * 100) / 100)`. */
  function CrashPoint(r: real): (crash: real)
    requires 0.0 < r < 1.0
    ensures crash >= 1.0
  {
    var x := ((99.0 / (r * 99.0)) * 100.0).Floor as real / 100.0;
    if 1.0 >= x then 1.0 else x
  }

  /** The win rule applied when the climb reaches the crash point. */
  predicate Reached(target: real, crash: real) {
    target <= crash
  }

  /** A target of `k / 100` (the input steps by 0.01) is reached exactly when
      `r <= 100 / k`, which for a uniform `r` has probability `100 / k`, the
      inverse of the target. A win pays the target, so the expected return
      is the stake itself: the factors 99 cancel and the formula keeps no
      house edge. */
  lemma CrashReaches(r: real, k: int)
    requires 0.0 < r < 1.0 && k >= 100
    ensures Reached(k as real / 100.0, CrashPoint(r)) <==> r <= 100.0 / k as real
  {
    var y := (99.0 / (r * 99.0)) * 100.0;
    assert y == 100.0 / r;
    var f := y.Floor;
    assert f as real <= y < f as real + 1.0;
    assert f >= k <==> y >= k as real;
    AtMostQuotient(k as real, 100.0, r);
    AtMostQuotient(r, 100.0, k as real);
    assert f >= 100;
  }

  lemma AtMostQuotient(a: real, b: real, n: real)
    requires n > 0.0
    ensures a <= b / n <==> a * n <= b
  {
    assert (b / n) * n == b;
    if a <= b / n {
      assert (b / n - a) * n >= 0.0;
    } else {
      assert (a - b / n) * n > 0.0;
    }
  }

  /** A target below 1 (which typing into the input allows) still loses
      money when it is reached: the payout is less than the stake. */
  lemma ReachedLowTargetLoses(balance: real, bet: real, target: real)
    requires MinBet <= bet <= balance && target < 1.0
    ensures Clamped(Clamped(balance, -bet), Payout(bet, target)) < balance
  {
    assert Payout(bet, target) < bet * 1.0;
  }

  /** `startGame`: `r` is the draw behind the crash point. A stake under
      0.10 or over the balance changes nothing. Otherwise the stake is
      taken; reaching the target pays the stake times the target and
      records the target, a crash below the target records 0. */
  method StartGame(ledger: Ledger, bet: real, target: real, r: real) returns (played: bool, won: bool)
    requires ledger.Valid() && 0.0 < r < 1.0
    modifies ledger
    ensures ledger.Valid()
    ensures played == old(ledger.Accepts(bet))
    ensures !played ==> unchanged(ledger)
    ensures played ==> won == Reached(target, CrashPoint(r))
    ensures played && won ==>
      && ledger.balance == Clamped(old(ledger.balance) - bet, Payout(bet, target))
      && ledger.history == Prepended(old(ledger.history), Entry(Game.Limbo, bet, target, Payout(bet, target) - bet))
    ensures played && won && target >= 0.0 ==>
      ledger.balance == old(ledger.balance) - bet + Payout(bet, target)
    ensures played && !won ==>
      && ledger.balance == old(ledger.balance) - bet
      && ledger.history == Prepended(old(ledger.history), Entry(Game.Limbo, bet, 0.0, -bet))
    ensures played ==> Settled(ledger.history[0])
  {
    played, won := ledger.Accepts(bet), false;
    if !played {
      return;
    }
    ledger.UpdateBalance(-bet);
    var crash := CrashPoint(r);
    won := Reached(target, crash);
    if won {
      var payout := Payout(bet, target);
      var profit := payout - bet;
      ledger.UpdateBalance(payout);
      ledger.AddToHistory(Game.Limbo, bet, target, profit);
    } else {
      ledger.AddToHistory(Game.Limbo, bet, 0.0, -bet);
    }
  }
}
