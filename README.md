# SlotTracker simulation core in Dafny

SlotTracker is a dashboard that simulates online slot machines and tracks their return to player (RTP). Every second, each tracked slot spins a batch of 100 times at the global stake. The batch is folded into that slot's running statistics, and the simulated wallet balance moves by the tick's wins minus its stakes. This project models the non-visual logic behind that loop:

- **`SimulationEngine`** (`simulation_engine.dfy`) generates one spin and runs the batch loop.
  - A spin is a hit exactly when the uniform draw falls below the slot's hit frequency.
  - A miss pays 0 and reports multiplier 0.
  - On a hit, a positive log-normal sample is scaled by `rtp/100 * 1/hitFreq`, floored at 0.1 and capped at 5000.
  - The hit's win is the stake times that *unrounded* multiplier. The reported multiplier is rounded to two decimals.
- **`Aggregation`** (`aggregation.dfy`) is the per-slot fold `ApplyBatch`. It updates the cumulative spins, stakes and wins, the live RTP (with a fallback to the configured RTP while nothing was staked), the running maximum multiplier, the keep-last-100 spin history, the keep-last-30 RTP history and the up/down trend. `StatsInv` is the invariant every slot's statistics keep.
- **`Constants`** (`constants.dfy`) holds the four configured slots and the loop that builds the initial statistics map.
- **`Dashboard`** (`app.dfy`) is the dashboard state as a class `App`. It holds the configurations, the statistics map, the tracked ids, the balance, the stake and the pause flag. Its methods are:
  - one tick, `ProcessSimulations`, which delegates to the loop method `SimulateTick`;
  - tracking toggles;
  - volatility edits;
  - pause and stake changes.

  Each method is proved against specification functions: `TickMap`, `TickStakes`, `TickWins`, `Without` and `WithVolatility`.
- **`Types`** (`types.dfy`) holds `SlotConfig`, `SpinResult` and `SlotStats` of `types.ts`.

Numbers are exact `real`s. Randomness and the clock are inputs. A `Draw` carries the uniform hit draw, the positive log-normal sample `exp(u + s*z)` and the timestamp of one spin. A tick takes a map from each tracked id to its 100 draws.

## Model

| member | source | states |
|---|---|---|
| SimulationEngine.IsHit | services/simulationEngine.ts:5 | `Math.random() < config.hitFreq`: the spin is a hit exactly when the uniform draw is below the hit frequency. Predicate with no contract of its own; CalculateSpinResult and SpinOutcomeCases state what a hit and a miss pay. |
| SimulationEngine.CalculateSpinResult | services/simulationEngine.ts:4-40 | The stake and the timestamp are echoed. A miss (draw >= hitFreq) returns win 0 and multiplier 0. A hit returns win = stake * Clamp(raw multiplier) and multiplier = Round2 of that clamped value, which lies in [0.1, 5000]. |
| SimulationEngine.SpinOutcomeCases | services/simulationEngine.ts:5-39 | For a positive stake: multiplier 0 iff the spin missed, win 0 iff the spin missed, and the result is well formed (positive stake, non-negative win and multiplier). |
| SimulationEngine.WinRoundingError | services/simulationEngine.ts:34-37 | For a non-negative stake, the win differs from stake times the reported (rounded) multiplier by at most stake * 0.005. |
| SimulationEngine.Clamp | services/simulationEngine.ts:28-32 | The result is in [0.1, 5000]. A value already in range is unchanged, one below is raised to 0.1, one above is cut to 5000. |
| SimulationEngine.RawMultiplier | services/simulationEngine.ts:26 | The unclamped multiplier sample * (rtp/100) * (1/hitFreq). Specification function with no contract of its own; RawMultiplierPositive and HitRawMultiplierPositive state its sign. |
| SimulationEngine.RawMultiplierPositive | services/simulationEngine.ts:26 | A positive sample with positive RTP and hitFreq gives a positive raw multiplier. |
| SimulationEngine.HitRawMultiplierPositive | services/simulationEngine.ts:26 | On a hit with a positive sample and a positive RTP, hitFreq is positive and the unclamped multiplier sample * (rtp/100) * (1/hitFreq) is positive. |
| SimulationEngine.Round2 | services/simulationEngine.ts:37 | The two-decimal rounding moves a value by more than -0.005 and at most +0.005. |
| SimulationEngine.Round2FixesBounds | services/simulationEngine.ts:29-32 | 0.1 and 5000 are fixed points of the rounding. |
| SimulationEngine.Round2StaysInRange | services/simulationEngine.ts:29-37 | Rounding a value in [0.1, 5000] gives a value in [0.1, 5000]. |
| SimulationEngine.Round2Monotone | services/simulationEngine.ts:37 | The rounding is monotone. |
| SimulationEngine.Batch | services/simulationEngine.ts:42-52 | The batch is the spin of each draw, in generation order. Specification function of RunBatchSimulation; BatchValid states what every element satisfies. |
| SimulationEngine.RunBatchSimulation | services/simulationEngine.ts:42-52 | Returns exactly `iterations` results, the i-th being the spin of the i-th draw (generation order): `Batch(config, stake, draws)`. |
| SimulationEngine.BatchValid | services/simulationEngine.ts:42-52 | At a positive stake every result of a batch is well formed and carries exactly that stake. |
| Aggregation.KeepLast | App.tsx:113-114 | `slice(-n)` for n > 0. Specification function with no contract of its own; KeepLastFacts and KeepLastAppend state its behaviour. For n = 0 it returns the empty sequence, whereas `slice(-0)` returns everything; the source only uses n = 100 and n = 30. |
| Aggregation.KeepLastFacts | App.tsx:113-114 | For n > 0, `slice(-n)` keeps at most n elements, exactly n once there are that many, and they are the newest suffix. |
| Aggregation.KeepLastAppend | App.tsx:113 | Truncating to the last n after each append equals truncating once after both appends. |
| Aggregation.Stakes | App.tsx:95 | The stakes of a batch, in order. Specification function with no contract of its own; summed by Sum in ApplyBatchTotals. |
| Aggregation.Wins | App.tsx:96 | The wins of a batch, in order. Specification function with no contract of its own; summed by Sum in ApplyBatchTotals. |
| Aggregation.Multipliers | App.tsx:97 | `batchResults.map(r => r.multiplier)`, in order. Specification function with no contract of its own; ApplyBatchTotals and MaxOfBounds state the maximum taken over it. |
| Aggregation.Sum | App.tsx:95-96 | The `reduce((a, r) => a + r.x, 0)` sum, left to right. Specification function with no contract of its own; SumConcat, SumNonNegative and SumConstant state its properties. |
| Aggregation.SumConcat | App.tsx:95-96 | The sum of a concatenation is the sum of the sums. |
| Aggregation.SumNonNegative | App.tsx:96 | A sum of non-negative values is non-negative. |
| Aggregation.SumConstant | App.tsx:95 | A sequence of n copies of x sums to n * x. |
| Aggregation.Max | App.tsx:112 | The two-argument `Math.max`. Helper with no contract of its own; MaxOfBounds states the bounds of the running maximum built from it. |
| Aggregation.MaxOf | App.tsx:97 | `Math.max(current, ...xs)`. Specification function with no contract of its own; MaxOfBounds and MaxOfConcat state its properties. |
| Aggregation.MaxOfConcat | App.tsx:97 | The maximum over a concatenation equals the maximum over the second part, started from the maximum over the first. |
| Aggregation.MaxOfBounds | App.tsx:97 | The running maximum is >= the previous maximum and >= every batch multiplier, and it is one of them. On an empty batch it is the previous maximum, as `Math.max(m, -Infinity)` is. |
| Aggregation.LiveRtp | App.tsx:104 | Wins over stakes times 100, or the configured RTP when nothing was staked. Specification function with no contract of its own; LiveRtpMeaning states what it means. |
| Aggregation.LiveRtpMeaning | App.tsx:104 | With positive stakes, liveRtp * stakes = wins * 100. Otherwise the live RTP is the configured RTP. |
| Aggregation.ApplyBatch | App.tsx:102-116 | The fold of one batch into a slot's statistics. The spin history holds at most 100 entries. The RTP history is non-empty, holds at most 30 entries and ends in the new live RTP. The trend is never Neutral after a fold. The lemmas below state the totals, the exact windows and the invariant. |
| Aggregation.ApplyBatchTotals | App.tsx:95-112 | Spins, stakes and wins grow by the batch's length, stake sum and win sum. The new live RTP is that of the new totals. The maximum never decreases, bounds every batch multiplier and is the old maximum or a batch multiplier. |
| Aggregation.ApplyBatchWindowsAndTrend | App.tsx:113-115 | Exact new lengths of both histories (at most 100 and 30). The RTP history is non-empty and ends in the new live RTP. The trend is Up iff the live RTP rose, and is never Neutral after a fold. |
| Aggregation.ApplyBatchWindows | App.tsx:113-114 | The new spin history is the newest part of old history ++ batch. The new RTP history is the newest part of old RTP history ++ [new live RTP]. |
| Aggregation.ApplyBatchConcatTotals | App.tsx:102-112 | Folding two batches in turn gives the same spins, stakes, wins, live RTP and maximum as folding their concatenation once. |
| Aggregation.ApplyBatchConcatHistory | App.tsx:113-114 | Two folds give the same spin history as one fold of the concatenation. Their RTP history records both intermediate snapshots, in order. |
| Aggregation.ApplyBatchKeepsInv | App.tsx:95-116 | A fold of well-formed spins preserves `StatsInv`: window bounds, last RTP snapshot = live RTP, non-negative totals, no spins iff no stakes, live RTP = wins/stakes or the configured RTP, history entries are well formed and bounded by the maximum, Neutral only before the first spin. |
| Constants.SlotsWellFormed | constants.tsx:4-37 | There are four slots with pairwise distinct ids, hitFreq in (0,1], rtp in (0,100] and volatility in [1,20]. |
| Constants.FreshStats | constants.tsx:40-49 | The fresh record has live RTP = the slot's RTP; zero spins, stakes, wins and maximum; empty history; Neutral trend; and an RTP history of 20 copies of the slot's RTP. |
| Constants.FreshStatsInv | constants.tsx:39-51 | Every fresh record satisfies the fold's invariant. |
| Constants.BuildInitialStatsMap | constants.tsx:39-51 | The keys are exactly the slot ids, and each id maps to the fresh record of its slot (the later slot wins if ids repeat). |
| Constants.FirstTickShape | constants.tsx:39-51 | The first 100-spin fold into a fresh Book of Dead record gives 100 spins, a history equal to the batch and 21 RTP snapshots. |
| Dashboard.FindConfig | App.tsx:89 | `find` returns the first configuration of the list with that id: every earlier entry has another id. It returns none iff no configuration has that id. |
| Dashboard.FindConfigOfMember | App.tsx:89 | With distinct ids, looking up a configuration's id finds that configuration. |
| Dashboard.WithVolatility | App.tsx:77 | Same length and order. Every field except volatility is kept. Volatility is replaced exactly at the entries with the given id. |
| Dashboard.WithVolatilityKeepsWellFormed | App.tsx:76-78 | A volatility edit keeps the configuration well formed and keeps its set of ids. |
| Dashboard.WithVolatilityRestore | App.tsx:76-78 | Setting a slot's volatility back to its old value restores the configuration list. |
| Dashboard.Without | App.tsx:70 | `Set.delete`: y is kept iff it was present and differs from x. Deleting an absent element changes nothing. Distinctness is preserved. |
| Dashboard.WithoutKeepsOrder | App.tsx:70 | In a set of distinct ids, deleting the k-th one leaves the ids before it and after it, in their order. |
| Dashboard.WithoutOnly | App.tsx:70 | Deleting an element that occurs only at position k removes exactly that position. |
| Dashboard.WithoutAppended | App.tsx:69-71 | Deleting an element just added restores the set, order included. |
| Dashboard.TickStakes | App.tsx:86-122 | The sum of the stakes of every tracked, configured slot's batch, in tracking order. Specification function with no contract of its own; TickStakesUniform, TickPrefixStep and SimulateTick state its value. |
| Dashboard.TickWins | App.tsx:86-122 | The sum of the wins of every tracked, configured slot's batch, in tracking order. Specification function with no contract of its own; TickWinsNonNegative, TickPrefixStep and SimulateTick state its value. |
| Dashboard.SlotAfterTick | App.tsx:89-116 | The `forEach` body for one id: an id without a configuration keeps its record; a tracked, configured id is folded with its batch. Specification function with no contract of its own; TickMapEntries and TickPrefixStep state its effect. |
| Dashboard.TickMap | App.tsx:86-122 | The statistics map after a tick keeps the same keys. TickMapEntries states each entry. |
| Dashboard.TickMapEntries | App.tsx:86-117 | The tick keeps the map's keys. An id that is not tracked or has no configuration keeps its record. A tracked, configured id gets its record folded with its own batch at its configured RTP. |
| Dashboard.TickStakesUniform | App.tsx:93-99 | The tick's total stake is (number of tracked, configured ids) * 100 * stake. |
| Dashboard.TickWinsNonNegative | App.tsx:96-100 | The tick's total win is never negative. |
| Dashboard.TickPrefixStep | App.tsx:88-117 | Processing one more tracked id adds that slot's stakes and wins to the totals, changes only that slot's record, and folds it from its pre-tick record. |
| Dashboard.TickMapKeepsInv | App.tsx:86-117 | A tick keeps every configured slot's invariant and the map's keys. |
| Dashboard.SimulateSlot | App.tsx:88-117 | One `forEach` step: skip an id without a configuration; otherwise run its batch, fold it in and add its stakes and wins to the totals. This keeps the loop's progress predicate. |
| Dashboard.SimulateTick | App.tsx:83-120 | The loop over the tracked ids returns exactly `TickMap`, `TickStakes` and `TickWins` of its inputs. |
| Dashboard.App.constructor | App.tsx:28-37 | The initial state is the four slots, the statistics from the initial map, tracked ids book-of-dead and razor-shark, balance 10000, stake 1.0 and not paused. It satisfies `Valid`. |
| Dashboard.App.ProcessSimulations | App.tsx:80-124 | When paused, the statistics map and the balance are unchanged. Otherwise the map becomes `TickMap` (only tracked, configured slots rewritten) and balance' = balance - tick stakes + tick wins. `Valid` is kept. |
| Dashboard.App.ToggleSlotTracking | App.tsx:67-74 | Flips the membership of `id` only. Deleting keeps the others' order (WithoutKeepsOrder). Adding appends at the end. `Valid` is kept. |
| Dashboard.App.HandleVolatilityChange | App.tsx:76-78 | The configurations become `WithVolatility(old, id, v)`. `Valid` is kept. |
| Dashboard.App.TogglePause | App.tsx:224 | Flips the pause flag. |
| Dashboard.App.SetGlobalStake | App.tsx:277-280 | Sets the stake to the selected option. |

## Left out

- The Box–Muller transform, `Math.random`, `Math.log`, `Math.cos`, `Math.sqrt` and `Math.exp` (services/simulationEngine.ts:19-24) are not modelled. The uniform hit draw and the positive log-normal sample are inputs, bundled as one `Draw` per spin. In the source `Math.random()` can return exactly 0 at services/simulationEngine.ts:23, which makes `z` infinite and the sample 0 or Infinity (clamped to 0.1 or 5000); `ValidDraw` excludes that case by requiring a finite, positive sample.
- `Date.now` is an input too (the `at` field of a `Draw`).
- SimulationEngine.CalculateSpinResult: in the source a miss consumes one random number and a hit three. The model takes one `Draw` record per spin either way, so the order in which random numbers are consumed is not modelled.
- SimulationEngine.Round2: for x >= 0, `toFixed(2)` is modelled on exact reals as rounding half up to the nearest hundredth. For negative ties `toFixed` rounds away from zero and the model rounds up, but only clamped multipliers in [0.1, 5000] are rounded. Binary floating-point effects of IEEE doubles (e.g. 1.005 printing as "1.00") are not modelled. No result depends on more than its bounds, its fixed points at 0.1 and 5000, and its monotonicity.
- Floating-point arithmetic in general: sums, products and the RTP division are exact, with no rounding and no overflow.
- Statistical properties (the hit rate tending to hitFreq, the live RTP tending to the configured RTP) are probabilistic and are not stated.
- The empty batch needs no precondition. `Math.max(m, ...[])` is `Math.max(m, -Infinity) = m`, and `MaxOf` returns exactly that. The app always passes batches of 100.
- React plumbing is not modelled:
  - the state setters and their updater functions, which run one tick as one synchronous method call;
  - `useCallback` closures that capture `activeSlots`, `globalStake` and `slotConfigs`;
  - a StrictMode double call of an updater;
  - `setInterval`/`clearInterval` (App.tsx:126-133).
- A JavaScript `Set` is modelled as a sequence of distinct ids in insertion order, which is the order `forEach` visits them.
- Dashboard.App.SetGlobalStake: requires the stake to be one of the selector's options (App.tsx:277-280), the only way the page sets it. The invariant uses this to know the stake is positive.
- Dashboard.App.ProcessSimulations: requires a full batch of valid draws for every tracked id. This is the randomness the source draws internally.
- The Gemini and ML services, and `refreshML`/`refreshAI` in App.tsx, are not modelled. They are asynchronous calls to an external API.
- rrweb session recording and replay (`toggleRecording`, components/SessionReplay.tsx) are not modelled. They are a foreign library driving the DOM.
- The view layer (components/*.tsx, src/pages/*.tsx) only chooses CSS classes and renders. The volatility slider's range 1..20 (components/SlotCard.tsx:45-48) is stated only for the configured slots. It is not an invariant, because the handler accepts any number.
- `runBatchSimulation`'s default stake of 1.0 is not modelled: every call passes the stake explicitly.
