/** The Plinko drop (`PlinkoGame`): a fixed multiplier table per risk level
    and row count, and a bucket drawn uniformly from it. */
module Plinko {
  import opened Bankroll

  datatype Risk = Low | Medium | High

  datatype Rows = Eight | Twelve | Sixteen {
    function Count(): nat {
      match this
      case Eight => 8
      case Twelve => 12
      case Sixteen => 16
    }
  }

  /** The table reads the same from both ends. */
  predicate Palindrome(t: seq<real>) {
    forall i, j :: 0 <= i < |t| && 0 <= j < |t| && i + j == |t| - 1 ==> t[i] == t[j]
  }

  /** From the left edge to the centre the multipliers never increase. */
  predicate LowestInCentre(t: seq<real>) {
    forall i, j :: 0 <= i <= j < |t| - |t| / 2 ==> t[i] >= t[j]
  }

  predicate Positive(t: seq<real>) {
    forall i :: 0 <= i < |t| ==> t[i] > 0.0
  }

  /** A multiplier table for `rows` rows: one bucket more than rows,
      symmetric, smallest in the centre, and every multiplier positive. */
  predicate Shaped(t: seq<real>, rows: nat) {
    |t| == rows + 1 && Palindrome(t) && LowestInCentre(t) && Positive(t)
  }

  /** The table whose buckets from the left edge to the centre are `half`
      and whose right side is the mirror image of its left side. */
  function Mirror(half: seq<real>): (t: seq<real>)
    requires |half| >= 1
    ensures |t| == 2 * |half| - 1
    decreases |half|
  {
    if |half| == 1 then half else [half[0]] + Mirror(half[1..]) + [half[0]]
  }

  lemma {:induction false} MirrorAt(half: seq<real>, i: int)
    requires |half| >= 1 && 0 <= i < 2 * |half| - 1
    ensures Mirror(half)[i] == if i < |half| then half[i] else half[2 * |half| - 2 - i]
    decreases |half|
  {
    if |half| > 1 && 0 < i < 2 * |half| - 2 {
      MirrorAt(half[1..], i - 1);
    }
  }

  /** Multipliers that never increase from the left edge to the centre. */
  ghost predicate Descending(half: seq<real>) {
    forall i, j :: 0 <= i < j < |half| && j == i + 1 ==> half[i] >= half[j]
  }

  lemma {:induction false} DescendingAt(half: seq<real>, i: int, j: int)
    requires Descending(half) && 0 <= i <= j < |half|
    ensures half[i] >= half[j]
    decreases j - i
  {
    if i < j {
      DescendingAt(half, i + 1, j);
    }
  }

  /** A descending positive half gives a table of the expected shape. */
  lemma MirrorShaped(half: seq<real>)
    requires |half| >= 1 && Descending(half) && Positive(half)
    ensures Shaped(Mirror(half), 2 * |half| - 2)
  {
    var t, n := Mirror(half), |half|;
    forall i | 0 <= i < |t|
      ensures t[i] == half[if i < n then i else 2 * n - 2 - i]
    {
      MirrorAt(half, i);
    }
    forall i, j | 0 <= i <= j < n
      ensures half[i] >= half[j]
    {
      DescendingAt(half, i, j);
    }
  }

  /** `riskMultipliers[risk][rows]`: each table is given by its buckets from
      the left edge up to and including the centre, and mirrored;
      `TablesAsWritten` shows the result is the source's table. */
  function RiskMultipliers(risk: Risk, rows: Rows): (t: seq<real>)
    ensures |t| == rows.Count() + 1
  {
    Mirror(HalfTable(risk, rows))
  }

  /** `riskMultipliers` as the source writes it, every bucket of every
      table spelled out. */
  function WrittenTable(risk: Risk, rows: Rows): seq<real> {
    match (risk, rows)
    case (Low, Eight) => [5.6, 2.1, 1.1, 1.0, 0.5, 1.0, 1.1, 2.1, 5.6]
    case (Low, Twelve) => [8.4, 3.0, 1.6, 1.4, 1.1, 1.0, 0.5, 1.0, 1.1, 1.4, 1.6, 3.0, 8.4]
    case (Low, Sixteen) => [16.0, 9.0, 2.0, 1.4, 1.4, 1.2, 1.1, 1.0, 0.5, 1.0, 1.1, 1.2, 1.4, 1.4, 2.0, 9.0, 16.0]
    case (Medium, Eight) => [13.0, 3.0, 1.3, 0.7, 0.4, 0.7, 1.3, 3.0, 13.0]
    case (Medium, Twelve) => [33.0, 11.0, 4.0, 2.0, 1.1, 0.6, 0.3, 0.6, 1.1, 2.0, 4.0, 11.0, 33.0]
    case (Medium, Sixteen) => [110.0, 41.0, 10.0, 5.0, 3.0, 1.5, 1.0, 0.5, 0.3, 0.5, 1.0, 1.5, 3.0, 5.0, 10.0, 41.0, 110.0]
    case (High, Eight) => [29.0, 4.0, 1.5, 0.3, 0.2, 0.3, 1.5, 4.0, 29.0]
    case (High, Twelve) => [141.0, 23.0, 8.1, 2.0, 0.9, 0.3, 0.2, 0.3, 0.9, 2.0, 8.1, 23.0, 141.0]
    case (High, Sixteen) => [1000.0, 130.0, 26.0, 9.0, 4.0, 2.0, 0.2, 0.2, 0.2, 0.2, 0.2, 2.0, 4.0, 9.0, 26.0, 130.0, 1000.0]
  }

  /** Checks a table against a mirrored half, bucket by bucket. */
  lemma MatchesMirror(half: seq<real>, t: seq<real>)
    requires |half| >= 1 && |t| == 2 * |half| - 1
    requires forall i :: 0 <= i < |half| ==> t[i] == half[i] && t[|t| - 1 - i] == half[i]
    ensures Mirror(half) == t
  {
    forall i | 0 <= i < |t|
      ensures Mirror(half)[i] == t[i]
    {
      MirrorAt(half, i);
    }
  }

  /** The mirrored halves are exactly the tables the source writes, right
      halves included. */
  lemma TablesAsWritten(risk: Risk, rows: Rows)
    ensures RiskMultipliers(risk, rows) == WrittenTable(risk, rows)
  {
    match (risk, rows)
    case (Low, Eight) => LowEightAsWritten();
    case (Low, Twelve) => LowTwelveAsWritten();
    case (Low, Sixteen) => LowSixteenAsWritten();
    case (Medium, Eight) => MediumEightAsWritten();
    case (Medium, Twelve) => MediumTwelveAsWritten();
    case (Medium, Sixteen) => MediumSixteenAsWritten();
    case (High, Eight) => HighEightAsWritten();
    case (High, Twelve) => HighTwelveAsWritten();
    case (High, Sixteen) => HighSixteenAsWritten();
  }

  // One table per lemma keeps each comparison small.
  lemma LowEightAsWritten()
    ensures Mirror(LowEight()) == WrittenTable(Low, Eight)
  {
    MatchesMirror(LowEight(), WrittenTable(Low, Eight));
  }

  lemma LowTwelveAsWritten()
    ensures Mirror(LowTwelve()) == WrittenTable(Low, Twelve)
  {
    MatchesMirror(LowTwelve(), WrittenTable(Low, Twelve));
  }

  lemma LowSixteenAsWritten()
    ensures Mirror(LowSixteen()) == WrittenTable(Low, Sixteen)
  {
    MatchesMirror(LowSixteen(), WrittenTable(Low, Sixteen));
  }

  lemma MediumEightAsWritten()
    ensures Mirror(MediumEight()) == WrittenTable(Medium, Eight)
  {
    MatchesMirror(MediumEight(), WrittenTable(Medium, Eight));
  }

  lemma MediumTwelveAsWritten()
    ensures Mirror(MediumTwelve()) == WrittenTable(Medium, Twelve)
  {
    MatchesMirror(MediumTwelve(), WrittenTable(Medium, Twelve));
  }

  lemma MediumSixteenAsWritten()
    ensures Mirror(MediumSixteen()) == WrittenTable(Medium, Sixteen)
  {
    MatchesMirror(MediumSixteen(), WrittenTable(Medium, Sixteen));
  }

  lemma HighEightAsWritten()
    ensures Mirror(HighEight()) == WrittenTable(High, Eight)
  {
    MatchesMirror(HighEight(), WrittenTable(High, Eight));
  }

  lemma HighTwelveAsWritten()
    ensures Mirror(HighTwelve()) == WrittenTable(High, Twelve)
  {
    MatchesMirror(HighTwelve(), WrittenTable(High, Twelve));
  }

  lemma HighSixteenAsWritten()
    ensures Mirror(HighSixteen()) == WrittenTable(High, Sixteen)
  {
    MatchesMirror(HighSixteen(), WrittenTable(High, Sixteen));
  }

  /** Every table has one bucket more than rows, is symmetric, is lowest in
      the centre, and pays something in every bucket. */
  lemma TablesShaped(risk: Risk, rows: Rows)
    ensures Shaped(RiskMultipliers(risk, rows), rows.Count())
  {
    HalfTableShaped(risk, rows);
    MirrorShaped(HalfTable(risk, rows));
  }

  /** A half table for `rows` rows: from the edge to the centre, never
      increasing, always positive, and an edge bucket paying more than half
      the number of buckets. */
  ghost predicate HalfShaped(half: seq<real>, rows: nat) {
    && |half| == rows / 2 + 1
    && Descending(half) && Positive(half)
    && 2.0 * half[0] > (rows + 1) as real
  }

  function HalfTable(risk: Risk, rows: Rows): (half: seq<real>)
    ensures |half| == rows.Count() / 2 + 1
  {
    match (risk, rows)
    case (Low, Eight) => LowEight()
    case (Low, Twelve) => LowTwelve()
    case (Low, Sixteen) => LowSixteen()
    case (Medium, Eight) => MediumEight()
    case (Medium, Twelve) => MediumTwelve()
    case (Medium, Sixteen) => MediumSixteen()
    case (High, Eight) => HighEight()
    case (High, Twelve) => HighTwelve()
    case (High, Sixteen) => HighSixteen()
  }

  lemma HalfTableShaped(risk: Risk, rows: Rows)
    ensures HalfShaped(HalfTable(risk, rows), rows.Count())
  {
  }

  function LowEight(): (half: seq<real>)
    ensures HalfShaped(half, 8)
  {
    [5.6, 2.1, 1.1, 1.0, 0.5]
  }

  function LowTwelve(): (half: seq<real>)
    ensures HalfShaped(half, 12)
  {
    [8.4, 3.0, 1.6, 1.4, 1.1, 1.0, 0.5]
  }

  function LowSixteen(): (half: seq<real>)
    ensures HalfShaped(half, 16)
  {
    [16.0, 9.0, 2.0, 1.4, 1.4, 1.2, 1.1, 1.0, 0.5]
  }

  function MediumEight(): (half: seq<real>)
    ensures HalfShaped(half, 8)
  {
    [13.0, 3.0, 1.3, 0.7, 0.4]
  }

  function MediumTwelve(): (half: seq<real>)
    ensures HalfShaped(half, 12)
  {
    [33.0, 11.0, 4.0, 2.0, 1.1, 0.6, 0.3]
  }

  function MediumSixteen(): (half: seq<real>)
    ensures HalfShaped(half, 16)
  {
    [110.0, 41.0, 10.0, 5.0, 3.0, 1.5, 1.0, 0.5, 0.3]
  }

  function HighEight(): (half: seq<real>)
    ensures HalfShaped(half, 8)
  {
    [29.0, 4.0, 1.5, 0.3, 0.2]
  }

  function HighTwelve(): (half: seq<real>)
    ensures HalfShaped(half, 12)
  {
    [141.0, 23.0, 8.1, 2.0, 0.9, 0.3, 0.2]
  }

  function HighSixteen(): (half: seq<real>)
    ensures HalfShaped(half, 16)
  {
    [1000.0, 130.0, 26.0, 9.0, 4.0, 2.0, 0.2, 0.2, 0.2]
  }

  function Sum(t: seq<real>): real {
    if t == [] then 0.0 else t[0] + Sum(t[1..])
  }

  lemma {:induction false} SumAtLeastLast(t: seq<real>)
    requires |t| >= 1 && Positive(t)
    ensures Sum(t) >= t[|t| - 1]
    decreases |t|
  {
    if |t| > 1 {
      SumAtLeastLast(t[1..]);
    }
  }

  /** A mirrored table whose edge buckets together pay more than its number
      of buckets, and whose other buckets all pay something, sums to more
      than its length. */
  lemma MirrorOutweighsLength(half: seq<real>)
    requires |half| >= 2 && Positive(half)
    requires 2.0 * half[0] > (2 * |half| - 1) as real
    ensures Sum(Mirror(half)) > |Mirror(half)| as real
  {
    var t := Mirror(half);
    MirrorPositive(half);
    MirrorAt(half, |t| - 1);
    assert Positive(t[1..]) by {
      forall i | 0 <= i < |t| - 1
        ensures t[1..][i] > 0.0
      {
        assert t[1..][i] == t[i + 1];
      }
    }
    SumAtLeastLast(t[1..]);
  }

  /** Every bucket of a mirrored positive half pays something. */
  lemma MirrorPositive(half: seq<real>)
    requires |half| >= 1 && Positive(half)
    ensures Positive(Mirror(half))
  {
    var t := Mirror(half);
    forall i | 0 <= i < |t|
      ensures t[i] > 0.0
    {
      MirrorAt(half, i);
    }
  }

  /** The bucket is drawn uniformly, not binomially, so every table pays
      back more than the stake on average: its sum exceeds its length. */
  lemma UniformDrawFavoursPlayer(risk: Risk, rows: Rows)
    ensures var t := RiskMultipliers(risk, rows); Sum(t) > |t| as real
  {
    HalfTableShaped(risk, rows);
    MirrorOutweighsLength(HalfTable(risk, rows));
  }

  /** `Math.floor(Math.random() * multipliers.length)` for the draw `r`. */
  function BucketIndex(r: real, n: nat): (k: int)
    requires 0.0 <= r < 1.0 && n >= 1
    ensures 0 <= k < n
  {
    assert r * n as real < n as real;
    (r * n as real).Floor
  }

  /** The draws landing in bucket `k` are exactly those in
      `[k / n, (k + 1) / n)`: every bucket gets a slice of the same width. */
  lemma BucketSlice(r: real, n: nat, k: int)
    requires 0.0 <= r < 1.0 && n >= 1
    ensures BucketIndex(r, n) == k <==> k as real / n as real <= r < (k + 1) as real / n as real
  {
    var x := r * n as real;
    ScaledBelow(k as real, r, n as real);
    ScaledBelow((k + 1) as real, r, n as real);
    assert x.Floor == k <==> k as real <= x < (k + 1) as real;
  }

  lemma ScaledBelow(a: real, b: real, n: real)
    requires n > 0.0
    ensures a / n <= b <==> a <= b * n
  {
    assert (a / n) * n == a;
    if a / n <= b {
      assert (b - a / n) * n >= 0.0;
    } else {
      assert (a / n - b) * n > 0.0;
    }
  }

  /** The settlement of `dropBall` on the table the board shows
      (`riskMultipliers[risk][rows]`), with `r` the draw behind the bucket.
      The stake is taken, then the stake times the bucket's multiplier is
      always paid, even when it is less than the stake. */
  method DropBall(ledger: Ledger, bet: real, risk: Risk, rows: Rows, r: real) returns (played: bool, bucketIndex: int)
    requires ledger.Valid() && 0.0 <= r < 1.0
    modifies ledger
    ensures ledger.Valid()
    ensures played == old(ledger.Accepts(bet))
    ensures !played ==> unchanged(ledger)
    ensures played ==>
      && var multipliers := RiskMultipliers(risk, rows);
      && bucketIndex == BucketIndex(r, |multipliers|)
      && var multiplier := multipliers[bucketIndex];
      && ledger.balance == old(ledger.balance) - bet + Payout(bet, multiplier)
      && ledger.history == Prepended(old(ledger.history),
                                     Entry(Game.Plinko, bet, multiplier, Payout(bet, multiplier) - bet))
      && Settled(ledger.history[0])
  {
    TablesShaped(risk, rows);
    played, bucketIndex := DropOnTable(ledger, bet, RiskMultipliers(risk, rows), r);
  }

  /** `DropBall` on any table of positive multipliers. */
  method DropOnTable(ledger: Ledger, bet: real, multipliers: seq<real>, r: real) returns (played: bool, bucketIndex: int)
    requires ledger.Valid() && |multipliers| >= 1 && Positive(multipliers)
    requires 0.0 <= r < 1.0
    modifies ledger
    ensures ledger.Valid()
    ensures played == old(ledger.Accepts(bet))
    ensures !played ==> unchanged(ledger)
    ensures played ==>
      && bucketIndex == BucketIndex(r, |multipliers|)
      && var multiplier := multipliers[bucketIndex];
      && ledger.balance == old(ledger.balance) - bet + Payout(bet, multiplier)
      && ledger.history == Prepended(old(ledger.history),
                                     Entry(Game.Plinko, bet, multiplier, Payout(bet, multiplier) - bet))
      && Settled(ledger.history[0])
  {
    played, bucketIndex := ledger.Accepts(bet), 0;
    if !played {
      return;
    }
    bucketIndex := BucketIndex(r, |multipliers|);
    var multiplier := multipliers[bucketIndex];
    ledger.StakeAndSettle(Game.Plinko, bet, multiplier);
  }
}
