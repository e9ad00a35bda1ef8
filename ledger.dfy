/** The shared balance and the bet history that every game settles into
    (`updateBalance` and `addToHistory` in `App`). */
module Bankroll {

  datatype Game = Mines | Dragon | Plinko | Dice | Limbo

  /** What `localStorage` holds under `stakeBalance`, already parsed. */
  datatype Saved = NoneSaved | SavedBalance(amount: real)

  /** One settled bet. `payout` is the payout multiplier the source records
      (0 on a loss); `profit` is the money won or lost. */
  datatype Entry = Entry(game: Game, bet: real, payout: real, profit: real)

  /** Smallest stake any game accepts. */
  const MinBet: real := 0.10

  /** Balance when nothing is saved. */
  const DefaultBalance: real := 100.00

  /** Number of entries the history keeps. */
  const HistoryCapacity: nat := 50

  /** The balance after applying a signed delta: never below zero, and
      exactly `prev + amount` whenever that is not negative. */
  function Clamped(prev: real, amount: real): (r: real)
    ensures r >= 0.0
    ensures r >= prev + amount
    ensures r == prev + amount || r == 0.0
  {
    if prev + amount > 0.0 then prev + amount else 0.0
  }

  /** The history after recording `e`: `e` first, then the previous entries
      in order, cut to `HistoryCapacity` entries in all. */
  function Prepended(h: seq<Entry>, e: Entry): (r: seq<Entry>)
    ensures |r| == if |h| < HistoryCapacity then |h| + 1 else HistoryCapacity
    ensures r[0] == e
    ensures forall i :: 1 <= i < |r| ==> r[i] == h[i - 1]
  {
    [e] + if |h| < HistoryCapacity then h else h[..HistoryCapacity - 1]
  }

  /** The money a settlement pays: the stake times the multiplier. */
  function Payout(bet: real, multiplier: real): real {
    bet * multiplier
  }

  /** An entry as the games write it: the profit is the stake times the
      recorded multiplier, minus the stake. */
  predicate Settled(e: Entry) {
    e.profit == Payout(e.bet, e.payout) - e.bet
  }

  /** The `HistoryCapacity` newest entries of a newest-first sequence. */
  function Newest(s: seq<Entry>): (r: seq<Entry>)
    ensures |r| <= HistoryCapacity
    ensures r <= s
    ensures |s| <= HistoryCapacity ==> r == s
  {
    if |s| <= HistoryCapacity then s else s[..HistoryCapacity]
  }

  function Reversed(s: seq<Entry>): (r: seq<Entry>)
    ensures |r| == |s|
  {
    if s == [] then [] else Reversed(s[1..]) + [s[0]]
  }

  /** The history after recording `es[0]`, then `es[1]`, and so on. */
  function RecordAll(h: seq<Entry>, es: seq<Entry>): seq<Entry>
    decreases |es|
  {
    if es == [] then h else RecordAll(Prepended(h, es[0]), es[1..])
  }

  /** Whatever was recorded, the history is the newest 50 of all entries,
      newest first: after 60 settlements the oldest 10 are gone. */
  lemma {:induction false} RecordAllKeepsNewest(h: seq<Entry>, es: seq<Entry>)
    requires |h| <= HistoryCapacity
    ensures RecordAll(h, es) == Newest(Reversed(es) + h)
    decreases |es|
  {
    if es == [] {
      assert Reversed(es) + h == h;
    } else {
      var e, rest := es[0], es[1..];
      RecordAllKeepsNewest(Prepended(h, e), rest);
      assert Prepended(h, e) == Newest([e] + h);
      NewestOfNewest(Reversed(rest), [e] + h);
      assert Reversed(es) == Reversed(rest) + [e];
      assert Reversed(rest) + ([e] + h) == Reversed(es) + h;
    }
  }

  lemma NewestOfNewest(a: seq<Entry>, b: seq<Entry>)
    ensures Newest(a + Newest(b)) == Newest(a + b)
  {
    if |b| > HistoryCapacity {
      var l, r := a + Newest(b), a + b;
      assert |l| >= HistoryCapacity && |r| >= HistoryCapacity;
      forall i | 0 <= i < HistoryCapacity
        ensures l[i] == r[i]
      {
      }
    }
  }

  /** The one balance every game debits and credits, and the bet history. */
  class Ledger {
    var balance: real
    var history: seq<Entry>

    ghost predicate Valid()
      reads this
    {
      balance >= 0.0 && |history| <= HistoryCapacity
    }

    /** The balance starts from the saved one, or from `DefaultBalance` when
        none is saved; the history starts empty. */
    constructor (saved: Saved)
      requires saved.SavedBalance? ==> saved.amount >= 0.0
      ensures Valid()
      ensures balance == (if saved.SavedBalance? then saved.amount else DefaultBalance)
      ensures history == []
    {
      if saved.SavedBalance? {
        balance := saved.amount;
      } else {
        balance := DefaultBalance;
      }
      history := [];
    }

    /** The test every game applies before taking a stake: it rejects
        `bet < 0.10 || bet > balance`. */
    predicate Accepts(bet: real)
      reads this
    {
      MinBet <= bet <= balance
    }

    method UpdateBalance(amount: real)
      requires Valid()
      modifies this
      ensures Valid()
      ensures balance == Clamped(old(balance), amount)
      ensures history == old(history)
    {
      balance := Clamped(balance, amount);
    }

    method AddToHistory(game: Game, bet: real, payout: real, profit: real)
      requires Valid()
      modifies this
      ensures Valid()
      ensures history == Prepended(old(history), Entry(game, bet, payout, profit))
      ensures balance == old(balance)
    {
      history := Prepended(history, Entry(game, bet, payout, profit));
    }

    /** A payout: `updateBalance(bet * multiplier)` unless the multiplier
        is 0, then the history entry with the recorded multiplier and the
        profit `bet * multiplier - bet`. */
    method Settle(game: Game, bet: real, multiplier: real)
      requires Valid() && bet >= 0.0 && multiplier >= 0.0
      modifies this
      ensures Valid()
      ensures balance == old(balance) + Payout(bet, multiplier)
      ensures history == Prepended(old(history), Entry(game, bet, multiplier, Payout(bet, multiplier) - bet))
      ensures Settled(history[0])
    {
      var payout := Payout(bet, multiplier);
      if multiplier != 0.0 {
        UpdateBalance(payout);
      }
      AddToHistory(game, bet, multiplier, payout - bet);
    }

    /** The settlement of a game decided in one step (Plinko, Dice):
        `updateBalance(-bet)`, then the payout. */
    method StakeAndSettle(game: Game, bet: real, multiplier: real)
      requires Valid() && Accepts(bet) && multiplier >= 0.0
      modifies this
      ensures Valid()
      ensures balance == old(balance) - bet + Payout(bet, multiplier)
      ensures history == Prepended(old(history), Entry(game, bet, multiplier, Payout(bet, multiplier) - bet))
      ensures Settled(history[0])
    {
      UpdateBalance(-bet);
      Settle(game, bet, multiplier);
    }
  }

  /** Taking an accepted stake never reaches the clamp, and neither does
      paying the stake times a non-negative multiplier: a settled bet leaves
      `balance - bet + bet * multiplier`. */
  lemma StakeThenSettle(balance: real, bet: real, multiplier: real)
    requires MinBet <= bet <= balance && multiplier >= 0.0
    ensures Clamped(balance, -bet) == balance - bet
    ensures Clamped(Clamped(balance, -bet), Payout(bet, multiplier)) == balance - bet + Payout(bet, multiplier)
  {
  }
}
