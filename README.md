# Wagering engine of the stakerep casino app, in Dafny

This project models the part of `src/App.js` that decides money, and proves
properties of it:

- **Bankroll** (`ledger.dfy`): the one balance every game debits and
  credits, clamped at zero (`updateBalance`), and the bet history of at most
  50 entries, newest first (`addToHistory`). The `Ledger` class holds both.
- **Sampling** (`sampling.dfy`): the rejection-sampling loops that place mines
  and eggs, with the counting facts the rounds rely on.
- **Mines** (`mines.dfy`): the `MinesRound` class is the round of
  `MinesGame`, with start, reveal and cash-out. It also models
  `calculateMinesMultiplier`, which evaluates to exactly 1 because the round
  passes `safeSpots = 25 - mineCount`.
- **Dragon** (`dragon.dfy`): the `DragonRound` class is the round of
  `DragonGame`, covering 9 floors of 4 doors, the difficulty table, door
  selection with the automatic payout on the top floor, and cash-out.
- **Plinko** (`plinko.dfy`): the nine multiplier tables, the uniform bucket
  draw, and the settlement of `dropBall`.
- **Dice** (`dice.dfy`): the win chance, the multiplier rounded to four
  decimals, the win test, and the settlement of `rollDice`.
- **Limbo** (`limbo.dfy`): `generateCrashPoint`, the win rule, and the
  settlement of `startGame`.

Money and multipliers are exact `real`s. Every draw of `Math.random()` is a
parameter:

| Game | Draw parameter |
|---|---|
| Mines | the mine positions |
| Dragon | the egg doors of each floor |
| Plinko | the draw behind the bucket |
| Dice | the draw behind the roll |
| Limbo | the draw behind the crash point |

Every parameter is constrained to what the source's draws can produce.

Properties proved, besides each operation's full effect on the round and the
ledger:

- An accepted stake is never clamped. A settled bet leaves
  `balance - bet + payout` and records `profit = payout - bet`.
- The history is always the newest 50 entries of everything recorded.
- Mines commits exactly `mineCount` distinct cells. The Mines multiplier is
  exactly 1.
- Every Dragon floor has exactly `eggs` egg doors. After `f` floors the
  multiplier is `factor^f`, and a cash-out pays more than the stake.
- The Plinko tables are exactly the ones the source writes. Every table has
  `rows + 1` buckets, reads the same from both ends,
  is lowest in the centre and is positive. Because the bucket is drawn
  uniformly, each table returns more than the stake on average. Each bucket
  gets a slice of draws of width `1/n`.
- The Dice multiplier times the win chance is 99, up to the rounding, so
  the house keeps 1%.
- A Limbo target `k/100` is reached exactly when `r <= 100/k`, so the crash
  formula leaves no house edge.

## Model

| member | source | states |
|---|---|---|
| Bankroll.Clamped | src/App.js:16-18 | the new balance is never negative, never below `prev + amount`, and is either exactly `prev + amount` or 0 |
| Bankroll.Prepended | src/App.js:20-29 | the new entry comes first and the previous entries follow in order; the length grows by one up to 50 and stays at 50 after that |
| Bankroll.RecordAllKeepsNewest | src/App.js:20-29 | after any sequence of `addToHistory` calls, the history is the 50 newest of all entries ever recorded, newest first |
| Bankroll.StakeThenSettle | src/App.js:16-18 | an accepted stake (at least 0.10 and at most the balance) is debited without clamping; a non-negative payout credited after it is not clamped either, so the balance ends at `balance - bet + payout` |
| Bankroll.Ledger.constructor | src/App.js:4-10 | the balance starts at the saved balance, or at 100.00 when none is saved, and the history starts empty |
| Bankroll.Ledger.UpdateBalance | src/App.js:16-18 | the balance becomes `max(0, old + amount)` and the history is unchanged |
| Bankroll.Ledger.AddToHistory | src/App.js:20-29 | the history becomes the entry followed by the previous entries, cut to 50; the balance is unchanged |
| Bankroll.Ledger.Settle | src/App.js:184-189 | a payout credits `bet * multiplier` and records the multiplier with profit `payout - bet` |
| Bankroll.Ledger.StakeAndSettle | src/App.js:513-525 | stake then payout: the balance ends at `old - bet + bet * multiplier` and the recorded entry is settled |
| Sampling.Dedup | src/App.js:131-135 | dropping repeated draws leaves no repeats and exactly the positions drawn, first occurrences in the order drawn |
| Sampling.DedupPrefix | src/App.js:131-135 | taking more draws only appends positions: the deduplicated prefix of a stream is a prefix of the deduplicated stream |
| Sampling.DrawDistinct | src/App.js:131-135 | the rejection loop takes exactly the first `count` distinct draws in the order drawn (all of them when the stream offers fewer), so they are distinct and in range; it runs dry only after taking every position the stream offered |
| Sampling.DistinctElements | src/App.js:131-135 | a sequence without repeats has as many elements as positions |
| Sampling.DisjointSamplesFit | src/App.js:146-153 | distinct revealed cells and the mines are disjoint, so together they number at most 25 |
| Mines.MultiplierIsOne | src/App.js:167-169 | with `safeSpots = 25 - mines`, the product is exactly 1 for every number of gems up to `25 - mines` |
| Mines.CalculateMinesMultiplier | src/App.js:193-199 | the `for` loop computes the product of `(safeSpots - i) / (25 - mines - i)` over `i < gems`, which is 1 when `safeSpots = 25 - mines` |
| Mines.MinesRound.constructor | src/App.js:118-125 | the initial state has stake 1.00, 3 mines, no round, multiplier 1 and no gems |
| Mines.MinesRound.InitializeGame | src/App.js:127-144 | a stake under 0.10 or over the balance changes nothing; otherwise the round starts with exactly `count` distinct mines in [0, 25), no revealed cells, no gems and multiplier 1, and the stake is debited |
| Mines.MinesRound.RevealCell | src/App.js:146-179 | nothing happens when no round is active or the cell is already open; otherwise the cell is appended; a mine ends the round, credits nothing and records (0, -bet); a gem adds exactly one to `gemsFound` and keeps the multiplier at 1 |
| Mines.MinesRound.CashOut | src/App.js:181-191 | nothing happens without an active round and a gem; otherwise the round ends, and the ledger is credited `bet * multiplier`, which is the stake, and records that payout |
| Dragon.DifficultySettings | src/App.js:309-313 | each difficulty has 1 to 3 eggs among 4 doors and a factor above 1 |
| Dragon.FloorReturn | src/App.js:309-313 | the chance of a safe door times the factor is 1.125 (easy), 1 (medium) and 0.75 (hard) |
| Dragon.PowGrows | src/App.js:352-353 | with a factor of at least 1, the multiplier is at least 1 and never shrinks as floors are climbed |
| Dragon.PlaceEggs | src/App.js:320-332 | a floor has 4 doors, and a door hides an egg exactly when its position was sampled |
| Dragon.BuildTower | src/App.js:318-333 | the board has 9 floors of 4 doors, each with exactly `eggs` egg doors at the sampled positions |
| Dragon.DragonRound.constructor | src/App.js:302-307 | the initial state has stake 1.00, easy difficulty, no round and multiplier 1 |
| Dragon.DragonRound.InitializeGame | src/App.js:315-340 | a stake under 0.10 or over the balance changes nothing; otherwise the round starts on floor 0 with multiplier 1 on a well-formed tower, and the stake is debited |
| Dragon.DragonRound.SelectDoor | src/App.js:342-369 | nothing happens without an active round; an egg ends the round, credits nothing and records (0, -bet); a safe door makes the multiplier `factor^(floor + 1)`; below the top it climbs one floor, and on floor 8 it ends the round, crediting `bet * multiplier` |
| Dragon.DragonRound.HitEgg | src/App.js:345-349 | the egg branch ends the round, keeps the floor and multiplier, credits nothing and records (0, -bet) |
| Dragon.DragonRound.ClimbFloor | src/App.js:350-368 | the safe branch makes the multiplier `factor^(floor + 1)`; below the top it climbs one floor and leaves the ledger untouched; on floor 8 it ends the round, crediting `bet * multiplier` and recording that multiplier |
| Dragon.DragonRound.CashOut | src/App.js:371-381 | nothing happens without an active round and a cleared floor; otherwise the round ends and pays `bet * factor^floor`, which is more than the stake |
| Plinko.RiskMultipliers | src/App.js:492-508 | each table has `rows + 1` buckets |
| Plinko.TablesAsWritten | src/App.js:492-506 | each mirrored table equals the table the source writes, bucket for bucket, right halves included |
| Plinko.TablesShaped | src/App.js:492-508 | every table has `rows + 1` buckets, reads the same from both ends, never increases from the edge to the centre, and is positive |
| Plinko.UniformDrawFavoursPlayer | src/App.js:518-521 | every table's multipliers sum to more than its number of buckets, so a uniformly drawn bucket returns more than the stake on average |
| Plinko.BucketIndex | src/App.js:519 | the bucket index lies in [0, n) |
| Plinko.BucketSlice | src/App.js:519 | bucket `k` is drawn exactly when `k/n <= r < (k+1)/n` |
| Plinko.DropBall | src/App.js:510-534 | a stake under 0.10 or over the balance changes nothing; otherwise the bucket is drawn from `riskMultipliers[risk][rows]`, the stake is debited and `bet * table[bucket]` is always credited, even below the stake, and recorded with profit `payout - bet` |
| Plinko.DropOnTable | src/App.js:510-534 | the same settlement on any table of positive multipliers |
| Dice.WinChanceMeasuresWins | src/App.js:633-649 | the win chance is strictly between 0 and 100; rolling over wins exactly above `100 - chance`, and rolling under wins exactly below `chance` |
| Dice.ToFixed4 | src/App.js:635 | rounding to four decimals moves the value by at most 0.00005, keeps it within [1, 99], and leaves at most four decimals |
| Dice.DiceMultiplier | src/App.js:633-636 | the multiplier times the win chance is 99 up to the rounding, and the multiplier is between 1 and 99 |
| Dice.HouseEdge | src/App.js:633-636 | one unit staked returns 0.99 on average, up to the rounding |
| Dice.WinNeverLoses | src/App.js:649-651 | a winning roll pays at least the stake |
| Dice.RollDice | src/App.js:638-663 | a stake under 0.10 or over the balance changes nothing; otherwise the roll is `r * 100`, a win is decided by the over/under test, the balance ends at `old - bet + payout` with payout 0 on a loss, and the entry records the multiplier or 0 |
| Limbo.CrashPoint | src/App.js:825-829 | the crash point is at least 1 |
| Limbo.CrashReaches | src/App.js:825-829 | a target of `k/100` is reached exactly when `r <= 100/k` |
| Limbo.ReachedLowTargetLoses | src/App.js:805-809 | a target below 1 loses money even when it is reached |
| Limbo.StartGame | src/App.js:783-829 | a stake under 0.10 or over the balance changes nothing; otherwise the win is `target <= crash`; a win credits `bet * target` and records the target; a loss credits nothing and records (0, -bet) |

## Left out

- Rendering (JSX and CSS), sounds and `console.log` are left out: they do not
  change money or round state.
- Mines `gameBoard` is left out: the grid the board shows only repeats
  `minePositions` and `revealedCells`.
- Persisting the balance in `localStorage` is left out because it is I/O. The
  constructor takes what was saved, already parsed, as a parameter, and
  starts from `DefaultBalance` (100.00) when nothing was saved.
- The `id` and `timestamp` of a history entry (`Date.now()`, `new Date()`)
  are left out because they are clock reads.
- `Math.random()` is a parameter, because randomness cannot be modelled.
  The rejection-sampling loops run until they succeed. `DrawDistinct` runs
  them over a finite stream of draws, and the rounds take the sample they
  commit.
- The `setTimeout` delays of Plinko and Dice are left out. The `setInterval`
  climb of Limbo in steps of 0.01 is also left out: its outcome does not
  depend on the steps. Each settlement is one atomic step once the draw is
  known.
- `isDropping`, `isRolling` and `isPlaying` are left out, because with
  atomic settlement these guards are always false.
- React state batching and stale closures are left out. For example, the
  Limbo interval reads the `targetMultiplier` and `betAmount` of the render
  that started it. The model uses the values at the call.
- Mines.MinesRound.InitializeGame and Dragon.DragonRound.InitializeGame
  require that no round is active. The source only hides the start button
  while a round is active (src/App.js:240-256, 421-437).
- IEEE-754 doubles are modelled as exact reals. This affects the Dice
  multiplier, the Limbo crash point and every product of stake and
  multiplier.
- Limbo.CrashPoint requires `0 < r`: a draw of exactly 0 gives `Infinity`
  in the source.
- Each Plinko table is defined as its left half mirrored.
  Plinko.TablesAsWritten proves that the result equals every bucket of the
  table the source writes (`WrittenTable`).
- Mines.MinesRound.InitializeGame requires 1 to 24 mines, the options of
  the selector (src/App.js:226-235).
- Dice.RollDice requires a prediction in [1, 99], the slider's range
  (src/App.js:721-727).
- Limbo.StartGame does not restrict the target. The input accepts any
  number, including numbers below its 1.01 minimum
  (src/App.js:856-861).
- The balance and bet inputs are taken as given numbers. Parsing them with
  `parseFloat` is left out.
- Switching games while a Mines or Dragon round is active is left out.
  Switching unmounts the game's component (src/App.js:84-88). Its round state
  is then lost after the stake was debited, and no history entry is written.
  The model keeps one round object per game and has no unmount step.
