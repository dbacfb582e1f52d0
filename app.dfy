/** The dashboard's simulation state and the operations that change it: one simulation
    tick over the tracked slots, toggling a slot's tracking and changing its volatility. */
module Dashboard {
  import opened Types
  import opened SimulationEngine
  import opened Aggregation
  import opened Constants

  /** Spins simulated per tracked slot and tick. */
  const BatchSize: nat := 100
  /** The denominations the stake selector offers. */
  const StakeOptions: seq<real> := [0.1, 0.2, 0.5, 1.0, 2.0, 5.0, 10.0, 50.0, 100.0]
  const InitialBalance: real := 10000.0
  const InitialStake: real := 1.0
  const InitialActiveSlots: seq<string> := ["book-of-dead", "razor-shark"]

  lemma StakeOptionPositive(stake: real)
    requires stake in StakeOptions
    ensures stake > 0.0
  {
  }

  // ---------------------------------------------------------------------------
  // Looking up and editing configurations

  /** `configs.find(s => s.id === id)`: the first configuration with that id. */
  function FindConfig(configs: seq<SlotConfig>, id: string): (r: Option<SlotConfig>)
    ensures r.Some? ==> r.value in configs && r.value.id == id
    ensures r.None? <==> id !in ConfigIds(configs)
    ensures r.Some? ==> exists k :: 0 <= k < |configs| && configs[k] == r.value &&
                                    forall j :: 0 <= j < k ==> configs[j].id != id
  {
    if configs == [] then None
    else if configs[0].id == id then Some(configs[0])
    else
      var rest := FindConfig(configs[1..], id);
      assert ConfigIds(configs) == {configs[0].id} + ConfigIds(configs[1..]) by {
        assert forall c :: c in configs <==> c == configs[0] || c in configs[1..];
      }
      assert rest.Some? ==> exists k :: 0 <= k < |configs| && configs[k] == rest.value &&
                                        forall j :: 0 <= j < k ==> configs[j].id != id by {
        if rest.Some? {
          var k' :| 0 <= k' < |configs[1..]| && configs[1..][k'] == rest.value &&
                    forall j :: 0 <= j < k' ==> configs[1..][j].id != id;
          forall j | 0 <= j < k' + 1 ensures configs[j].id != id {
            if j > 0 {
              assert configs[j] == configs[1..][j - 1];
            }
          }
          assert configs[k' + 1] == rest.value;
        }
      }
      rest
  }

  /** With distinct ids, looking up a configuration's id finds that configuration. */
  lemma {:induction false} FindConfigOfMember(configs: seq<SlotConfig>, c: SlotConfig)
    requires DistinctIds(configs) && c in configs
    ensures FindConfig(configs, c.id) == Some(c)
  {
    if configs[0] != c {
      var k :| 0 <= k < |configs| && configs[k] == c;
      assert k != 0 && configs[0].id != c.id;
      assert configs[1..][k - 1] == c;
      FindConfigOfMember(configs[1..], c);
    }
  }

  /** `configs.map(c => c.id === id ? { ...c, volatility } : c)`. */
  function WithVolatility(configs: seq<SlotConfig>, id: string, volatility: real): (r: seq<SlotConfig>)
    ensures |r| == |configs|
    ensures forall i :: 0 <= i < |r| ==>
              r[i].id == configs[i].id && r[i].name == configs[i].name && r[i].rtp == configs[i].rtp &&
              r[i].hitFreq == configs[i].hitFreq && r[i].color == configs[i].color
    ensures forall i :: 0 <= i < |r| ==>
              r[i].volatility == if configs[i].id == id then volatility else configs[i].volatility
  {
    seq(|configs|, i requires 0 <= i < |configs| =>
      if configs[i].id == id then configs[i].(volatility := volatility) else configs[i])
  }

  /** Changing a volatility keeps the configuration well formed and keeps its ids. */
  lemma WithVolatilityKeepsWellFormed(configs: seq<SlotConfig>, id: string, volatility: real)
    requires ConfigsWellFormed(configs)
    ensures ConfigsWellFormed(WithVolatility(configs, id, volatility))
    ensures ConfigIds(WithVolatility(configs, id, volatility)) == ConfigIds(configs)
  {
    var r := WithVolatility(configs, id, volatility);
    forall x | x in ConfigIds(r) ensures x in ConfigIds(configs) {
      var c :| c in r && c.id == x;
      var k :| 0 <= k < |r| && r[k] == c;
      assert configs[k] in configs;
    }
    forall x | x in ConfigIds(configs) ensures x in ConfigIds(r) {
      var c :| c in configs && c.id == x;
      var k :| 0 <= k < |configs| && configs[k] == c;
      assert r[k] in r;
    }
  }

  /** Setting a slot's volatility back to its previous value restores the configuration. */
  lemma WithVolatilityRestore(configs: seq<SlotConfig>, c: SlotConfig, volatility: real)
    requires DistinctIds(configs) && c in configs
    ensures WithVolatility(WithVolatility(configs, c.id, volatility), c.id, c.volatility) == configs
  {
    var k :| 0 <= k < |configs| && configs[k] == c;
    var r := WithVolatility(WithVolatility(configs, c.id, volatility), c.id, c.volatility);
    forall i | 0 <= i < |configs| ensures r[i] == configs[i] {
      if configs[i].id == c.id {
        assert i == k;
      }
    }
  }

  // ---------------------------------------------------------------------------
  // The tracked set

  /** `Set.delete`: `s` without `x`, the other elements in their order. */
  function Without(s: seq<string>, x: string): (r: seq<string>)
    ensures forall y :: y in r <==> y in s && y != x
    ensures x !in s ==> r == s
    ensures Distinct(s) ==> Distinct(r)
  {
    if s == [] then []
    else
      var rest := Without(s[1..], x);
      if s[0] == x then rest
      else
        assert Distinct(s) ==> s[0] !in rest by {
          if Distinct(s) {
            forall k | 0 <= k < |s[1..]| ensures s[1..][k] != s[0] {
              assert s[1..][k] == s[k + 1];
            }
          }
        }
        assert Distinct(s) ==> Distinct(s[1..]) by {
          if Distinct(s) {
            forall i, j | 0 <= i < j < |s[1..]| ensures s[1..][i] != s[1..][j] {
              assert s[1..][i] == s[i + 1] && s[1..][j] == s[j + 1];
            }
          }
        }
        [s[0]] + rest
  }

  /** Deleting the member at position `k` of a set of distinct ids removes exactly that
      occurrence and keeps the others in their order. */
  lemma WithoutKeepsOrder(s: seq<string>, k: nat)
    requires k < |s| && Distinct(s)
    ensures Without(s, s[k]) == s[..k] + s[k + 1..]
  {
    var before, after := s[..k], s[k + 1..];
    forall j | 0 <= j < |before| ensures before[j] != s[k] {
      assert before[j] == s[j];
    }
    forall j | 0 <= j < |after| ensures after[j] != s[k] {
      assert after[j] == s[k + 1 + j];
    }
    WithoutOnly(s, k);
  }

  /** Deleting an element that occurs only at position `k` removes that position. */
  lemma {:induction false} WithoutOnly(s: seq<string>, k: nat)
    requires k < |s| && s[k] !in s[..k] && s[k] !in s[k + 1..]
    ensures Without(s, s[k]) == s[..k] + s[k + 1..]
  {
    if k == 0 {
      assert s[..0] + s[1..] == s[1..];
    } else {
      var t := s[1..];
      assert t[k - 1] == s[k];
      assert t[..k - 1] == s[1..k] && t[k..] == s[k + 1..];
      assert s[k] !in t[..k - 1] by {
        assert forall y :: y in s[1..k] ==> y in s[..k];
      }
      WithoutOnly(t, k - 1);
      assert s[0] != s[k] by {
        assert s[0] == s[..k][0];
      }
      assert [s[0]] + s[1..k] == s[..k];
    }
  }

  /** Deleting an element that was just added restores the set, order included. */
  lemma {:induction false} WithoutAppended(s: seq<string>, x: string)
    requires x !in s
    ensures Without(s + [x], x) == s
  {
    if s != [] {
      assert (s + [x])[1..] == s[1..] + [x];
      WithoutAppended(s[1..], x);
    }
  }

  // ---------------------------------------------------------------------------
  // What one tick computes

  /** The draws the tick consumes: a full batch's worth for every tracked slot. */
  predicate DrawsFor(ids: seq<string>, draws: map<string, seq<Draw>>) {
    forall id :: id in ids ==> id in draws && |draws[id]| == BatchSize && ValidDraws(draws[id])
  }

  /** The stakes of all batches of a tick, summed in the order the slots are tracked. */
  function TickStakes(ids: seq<string>, configs: seq<SlotConfig>, stake: real, draws: map<string, seq<Draw>>): real
    requires DrawsFor(ids, draws)
  {
    if ids == [] then 0.0
    else
      var id := ids[|ids| - 1];
      assert DrawsFor(ids[..|ids| - 1], draws) by {
        assert forall x :: x in ids[..|ids| - 1] ==> x in ids;
      }
      TickStakes(ids[..|ids| - 1], configs, stake, draws) +
        match FindConfig(configs, id)
        case None => 0.0
        case Some(c) => Sum(Stakes(Batch(c, stake, draws[id])))
  }

  /** The wins of all batches of a tick, summed in the order the slots are tracked. */
  function TickWins(ids: seq<string>, configs: seq<SlotConfig>, stake: real, draws: map<string, seq<Draw>>): real
    requires DrawsFor(ids, draws)
  {
    if ids == [] then 0.0
    else
      var id := ids[|ids| - 1];
      assert DrawsFor(ids[..|ids| - 1], draws) by {
        assert forall x :: x in ids[..|ids| - 1] ==> x in ids;
      }
      TickWins(ids[..|ids| - 1], configs, stake, draws) +
        match FindConfig(configs, id)
        case None => 0.0
        case Some(c) => Sum(Wins(Batch(c, stake, draws[id])))
  }

  /** How many tracked ids have a configuration, so that the tick simulates them. */
  function ProcessedCount(ids: seq<string>, configs: seq<SlotConfig>): nat {
    if ids == [] then 0
    else ProcessedCount(ids[..|ids| - 1], configs) + if FindConfig(configs, ids[|ids| - 1]).Some? then 1 else 0
  }

  /** A tick stakes one full batch at the global stake for every slot it simulates. */
  lemma TickStakesUniform(ids: seq<string>, configs: seq<SlotConfig>, stake: real, draws: map<string, seq<Draw>>)
    requires DrawsFor(ids, draws)
    ensures TickStakes(ids, configs, stake, draws) == ProcessedCount(ids, configs) as real * (BatchSize as real * stake)
  {
    TickStakesRepeated(ids, configs, stake, draws);
    RepeatedIsProduct(ProcessedCount(ids, configs), BatchSize as real * stake);
  }

  /** `n` copies of `k`, added up. */
  function Repeated(n: nat, k: real): real {
    if n == 0 then 0.0 else Repeated(n - 1, k) + k
  }

  lemma {:induction false} RepeatedIsProduct(n: nat, k: real)
    ensures Repeated(n, k) == n as real * k
  {
    if n > 0 {
      RepeatedIsProduct(n - 1, k);
    }
  }

  lemma {:induction false} TickStakesRepeated(ids: seq<string>, configs: seq<SlotConfig>, stake: real, draws: map<string, seq<Draw>>)
    requires DrawsFor(ids, draws)
    ensures TickStakes(ids, configs, stake, draws) == Repeated(ProcessedCount(ids, configs), BatchSize as real * stake)
  {
    if ids != [] {
      TickStakesLast(ids, configs, stake, draws);
      TickStakesRepeated(ids[..|ids| - 1], configs, stake, draws);
    }
  }

  /** The last tracked id adds one full batch's stakes when it has a configuration. */
  lemma TickStakesLast(ids: seq<string>, configs: seq<SlotConfig>, stake: real, draws: map<string, seq<Draw>>)
    requires ids != [] && DrawsFor(ids, draws)
    ensures DrawsFor(ids[..|ids| - 1], draws)
    ensures var init := ids[..|ids| - 1];
            var hit := FindConfig(configs, ids[|ids| - 1]).Some?;
            TickStakes(ids, configs, stake, draws) ==
              TickStakes(init, configs, stake, draws) + (if hit then BatchSize as real * stake else 0.0) &&
            ProcessedCount(ids, configs) == ProcessedCount(init, configs) + (if hit then 1 else 0)
  {
    var id := ids[|ids| - 1];
    var init := ids[..|ids| - 1];
    assert forall x :: x in init ==> x in ids;
    match FindConfig(configs, id)
    case None =>
      assert TickStakes(ids, configs, stake, draws) == TickStakes(init, configs, stake, draws);
    case Some(c) =>
      var total := Sum(Stakes(Batch(c, stake, draws[id])));
      assert TickStakes(ids, configs, stake, draws) == TickStakes(init, configs, stake, draws) + total;
      BatchStakesTotal(c, stake, draws[id]);
  }

  /** A full batch stakes `stake` once per spin. */
  lemma BatchStakesTotal(c: SlotConfig, stake: real, ds: seq<Draw>)
    requires ValidDraws(ds) && |ds| == BatchSize
    ensures Sum(Stakes(Batch(c, stake, ds))) == BatchSize as real * stake
  {
    var xs := Stakes(Batch(c, stake, ds));
    assert forall i :: 0 <= i < |xs| ==> xs[i] == stake;
    SumConstant(xs, stake);
    assert |xs| == BatchSize;
  }

  /** A tick never wins back a negative amount. */
  lemma {:induction false} TickWinsNonNegative(ids: seq<string>, configs: seq<SlotConfig>, stake: real, draws: map<string, seq<Draw>>)
    requires DrawsFor(ids, draws) && stake > 0.0
    ensures TickWins(ids, configs, stake, draws) >= 0.0
  {
    if ids != [] {
      var id := ids[|ids| - 1];
      assert DrawsFor(ids[..|ids| - 1], draws) by {
        assert forall x :: x in ids[..|ids| - 1] ==> x in ids;
      }
      TickWinsNonNegative(ids[..|ids| - 1], configs, stake, draws);
      match FindConfig(configs, id)
      case None =>
      case Some(c) =>
        BatchValid(c, stake, draws[id]);
        SumNonNegative(Wins(Batch(c, stake, draws[id])));
    }
  }

  /** A slot's record after a tick: folded with its batch when it is tracked and configured,
      untouched otherwise. */
  function SlotAfterTick(m: map<string, SlotStats>, configs: seq<SlotConfig>, ids: seq<string>,
                         stake: real, draws: map<string, seq<Draw>>, id: string): SlotStats
    requires id in m && DrawsFor(ids, draws)
  {
    match FindConfig(configs, id)
    case Some(c) =>
      if id in ids then ApplyBatch(m[id], Batch(c, stake, draws[id]), c.rtp) else m[id]
    case None => m[id]
  }

  /** The statistics map after a tick: only tracked, configured slots are rewritten. */
  function TickMap(m: map<string, SlotStats>, configs: seq<SlotConfig>, ids: seq<string>,
                   stake: real, draws: map<string, seq<Draw>>): (r: map<string, SlotStats>)
    requires DrawsFor(ids, draws)
    ensures r.Keys == m.Keys
  {
    map id | id in m :: SlotAfterTick(m, configs, ids, stake, draws, id)
  }

  /** What a tick does to each entry of the map: a tracked id with a configuration gets its
      record folded with its batch; every other entry is left as it was. */
  lemma TickMapEntries(m: map<string, SlotStats>, configs: seq<SlotConfig>, ids: seq<string>,
                       stake: real, draws: map<string, seq<Draw>>)
    requires DrawsFor(ids, draws)
    ensures TickMap(m, configs, ids, stake, draws).Keys == m.Keys
    ensures forall id :: id in m && (id !in ids || id !in ConfigIds(configs)) ==>
              TickMap(m, configs, ids, stake, draws)[id] == m[id]
    ensures forall c :: c in configs && c.id in m && c.id in ids && FindConfig(configs, c.id) == Some(c) ==>
              TickMap(m, configs, ids, stake, draws)[c.id] == ApplyBatch(m[c.id], Batch(c, stake, draws[c.id]), c.rtp)
  {
  }

  /** Extending the processed prefix of the tracked ids by one id: the tick totals grow by
      that slot's batch (if it is configured), only that slot's record changes, and it is
      folded from its record before the tick, since the ids are distinct. */
  lemma TickPrefixStep(m: map<string, SlotStats>, configs: seq<SlotConfig>, ids: seq<string>, i: nat,
                       stake: real, draws: map<string, seq<Draw>>)
    requires i < |ids| && Distinct(ids) && DrawsFor(ids, draws)
    ensures DrawsFor(ids[..i], draws) && DrawsFor(ids[..i + 1], draws)
    ensures TickStakes(ids[..i + 1], configs, stake, draws) ==
              TickStakes(ids[..i], configs, stake, draws) +
              match FindConfig(configs, ids[i])
              case None => 0.0
              case Some(c) => Sum(Stakes(Batch(c, stake, draws[ids[i]])))
    ensures TickWins(ids[..i + 1], configs, stake, draws) ==
              TickWins(ids[..i], configs, stake, draws) +
              match FindConfig(configs, ids[i])
              case None => 0.0
              case Some(c) => Sum(Wins(Batch(c, stake, draws[ids[i]])))
    ensures forall id :: id in m && id != ids[i] ==>
              SlotAfterTick(m, configs, ids[..i + 1], stake, draws, id) ==
              SlotAfterTick(m, configs, ids[..i], stake, draws, id)
    ensures ids[i] in m ==> SlotAfterTick(m, configs, ids[..i], stake, draws, ids[i]) == m[ids[i]]
    ensures ids[i] in m ==>
              SlotAfterTick(m, configs, ids[..i + 1], stake, draws, ids[i]) ==
              match FindConfig(configs, ids[i])
              case None => m[ids[i]]
              case Some(c) => ApplyBatch(m[ids[i]], Batch(c, stake, draws[ids[i]]), c.rtp)
  {
    var p := ids[..i + 1];
    assert p[..i] == ids[..i] && p[i] == ids[i];
    assert forall x :: x in p <==> x in ids[..i] || x == ids[i];
    assert forall x :: x in ids[..i] ==> x in ids;
    forall k | 0 <= k < i ensures ids[..i][k] != ids[i] {
      assert ids[..i][k] == ids[k];
    }
  }

  /** A tick keeps every configured slot's statistics invariant. */
  lemma TickMapKeepsInv(m: map<string, SlotStats>, configs: seq<SlotConfig>, ids: seq<string>,
                        stake: real, draws: map<string, seq<Draw>>)
    requires DrawsFor(ids, draws) && stake > 0.0 && DistinctIds(configs)
    requires forall c :: c in configs ==> c.id in m && StatsInv(m[c.id], c.rtp)
    ensures TickMap(m, configs, ids, stake, draws).Keys == m.Keys
    ensures forall c :: c in configs ==> StatsInv(TickMap(m, configs, ids, stake, draws)[c.id], c.rtp)
  {
    forall c | c in configs
      ensures StatsInv(TickMap(m, configs, ids, stake, draws)[c.id], c.rtp)
    {
      FindConfigOfMember(configs, c);
      if c.id in ids {
        BatchValid(c, stake, draws[c.id]);
        ApplyBatchKeepsInv(m[c.id], Batch(c, stake, draws[c.id]), c.rtp);
      }
    }
  }

  /** What the tick's loop keeps after processing the first `i` tracked ids: the map holds
      the records after a tick over that prefix, and the totals are that prefix's. */
  predicate TickProgress(prev: map<string, SlotStats>, configs: seq<SlotConfig>, ids: seq<string>, i: nat,
                         stake: real, draws: map<string, seq<Draw>>,
                         cur: map<string, SlotStats>, stakes: real, wins: real)
  {
    i <= |ids| && DrawsFor(ids[..i], draws) &&
    cur.Keys == prev.Keys &&
    (forall id :: id in cur ==> cur[id] == SlotAfterTick(prev, configs, ids[..i], stake, draws, id)) &&
    stakes == TickStakes(ids[..i], configs, stake, draws) &&
    wins == TickWins(ids[..i], configs, stake, draws)
  }

  /** One step of the tick's loop over an id without a configuration: nothing changes. */
  lemma TickProgressSkip(prev: map<string, SlotStats>, configs: seq<SlotConfig>, ids: seq<string>, i: nat,
                         stake: real, draws: map<string, seq<Draw>>,
                         cur: map<string, SlotStats>, stakes: real, wins: real)
    requires i < |ids| && Distinct(ids) && DrawsFor(ids, draws)
    requires FindConfig(configs, ids[i]).None?
    requires TickProgress(prev, configs, ids, i, stake, draws, cur, stakes, wins)
    ensures TickProgress(prev, configs, ids, i + 1, stake, draws, cur, stakes, wins)
  {
    TickPrefixStep(prev, configs, ids, i, stake, draws);
  }

  /** One step of the tick's loop over an id with configuration `c`: the id has a record,
      which is replaced by its fold with the id's batch, and the batch's stakes and wins are
      added to the totals. */
  lemma TickProgressHit(prev: map<string, SlotStats>, configs: seq<SlotConfig>, ids: seq<string>, i: nat,
                        stake: real, draws: map<string, seq<Draw>>,
                        cur: map<string, SlotStats>, stakes: real, wins: real,
                        c: SlotConfig, batch: seq<SpinResult>)
    requires i < |ids| && Distinct(ids) && DrawsFor(ids, draws)
    requires forall c :: c in configs ==> c.id in prev
    requires FindConfig(configs, ids[i]) == Some(c) && batch == Batch(c, stake, draws[ids[i]])
    requires TickProgress(prev, configs, ids, i, stake, draws, cur, stakes, wins)
    ensures ids[i] in cur
    ensures TickProgress(prev, configs, ids, i + 1, stake, draws,
                         cur[ids[i] := ApplyBatch(cur[ids[i]], batch, c.rtp)],
                         stakes + Sum(Stakes(batch)), wins + Sum(Wins(batch)))
  {
    TickPrefixStep(prev, configs, ids, i, stake, draws);
  }

  /** Once every tracked id is processed, the loop's map and totals are the tick's. */
  lemma TickProgressComplete(prev: map<string, SlotStats>, configs: seq<SlotConfig>, ids: seq<string>,
                             stake: real, draws: map<string, seq<Draw>>,
                             cur: map<string, SlotStats>, stakes: real, wins: real)
    requires DrawsFor(ids, draws)
    requires TickProgress(prev, configs, ids, |ids|, stake, draws, cur, stakes, wins)
    ensures cur == TickMap(prev, configs, ids, stake, draws)
    ensures stakes == TickStakes(ids, configs, stake, draws)
    ensures wins == TickWins(ids, configs, stake, draws)
  {
    assert ids[..|ids|] == ids;
    var tick := TickMap(prev, configs, ids, stake, draws);
    assert cur.Keys == tick.Keys;
    assert forall id :: id in cur ==> cur[id] == tick[id];
  }

  /** The loop body of one tick, for the tracked id at position `i`: an id without a
      configuration is skipped; otherwise its batch is run, folded into its record and its
      stakes and wins are added to the tick's totals. */
  method SimulateSlot(prev: map<string, SlotStats>, configs: seq<SlotConfig>, activeSlots: seq<string>, i: nat,
                      stake: real, draws: map<string, seq<Draw>>,
                      nextMap: map<string, SlotStats>, totalStakesInBatch: real, totalWinsInBatch: real)
    returns (nextMap': map<string, SlotStats>, totalStakesInBatch': real, totalWinsInBatch': real)
    requires i < |activeSlots| && Distinct(activeSlots) && DrawsFor(activeSlots, draws)
    requires forall c :: c in configs ==> c.id in prev
    requires TickProgress(prev, configs, activeSlots, i, stake, draws, nextMap, totalStakesInBatch, totalWinsInBatch)
    ensures TickProgress(prev, configs, activeSlots, i + 1, stake, draws, nextMap', totalStakesInBatch', totalWinsInBatch')
  {
    var slotId := activeSlots[i];
    var config := FindConfig(configs, slotId);
    match config
    case None =>
      TickProgressSkip(prev, configs, activeSlots, i, stake, draws, nextMap, totalStakesInBatch, totalWinsInBatch);
      nextMap', totalStakesInBatch', totalWinsInBatch' := nextMap, totalStakesInBatch, totalWinsInBatch;
    case Some(c) =>
      var batchResults := RunBatchSimulation(c, BatchSize, stake, draws[slotId]);
      TickProgressHit(prev, configs, activeSlots, i, stake, draws, nextMap, totalStakesInBatch, totalWinsInBatch,
                      c, batchResults);
      var currentStats := nextMap[slotId];
      var batchStakes := Sum(Stakes(batchResults));
      var batchWins := Sum(Wins(batchResults));
      totalStakesInBatch' := totalStakesInBatch + batchStakes;
      totalWinsInBatch' := totalWinsInBatch + batchWins;
      nextMap' := nextMap[slotId := ApplyBatch(currentStats, batchResults, c.rtp)];
  }

  /** The state updater of one tick: walks the tracked ids in order, skips those without a
      configuration, runs a batch for each of the others, folds it into a copy of the map
      and accumulates the tick's stakes and wins. */
  method SimulateTick(prev: map<string, SlotStats>, configs: seq<SlotConfig>, activeSlots: seq<string>,
                      stake: real, draws: map<string, seq<Draw>>)
    returns (nextMap: map<string, SlotStats>, totalStakesInBatch: real, totalWinsInBatch: real)
    requires DrawsFor(activeSlots, draws) && Distinct(activeSlots)
    requires forall c :: c in configs ==> c.id in prev
    ensures nextMap == TickMap(prev, configs, activeSlots, stake, draws)
    ensures totalStakesInBatch == TickStakes(activeSlots, configs, stake, draws)
    ensures totalWinsInBatch == TickWins(activeSlots, configs, stake, draws)
  {
    totalStakesInBatch := 0.0;
    totalWinsInBatch := 0.0;
    nextMap := prev;
    var i := 0;
    while i < |activeSlots|
      invariant TickProgress(prev, configs, activeSlots, i, stake, draws, nextMap, totalStakesInBatch, totalWinsInBatch)
    {
      nextMap, totalStakesInBatch, totalWinsInBatch :=
        SimulateSlot(prev, configs, activeSlots, i, stake, draws, nextMap, totalStakesInBatch, totalWinsInBatch);
      i := i + 1;
    }
    TickProgressComplete(prev, configs, activeSlots, stake, draws, nextMap, totalStakesInBatch, totalWinsInBatch);
  }

  // ---------------------------------------------------------------------------
  // The dashboard's state

  class App {
    var slotConfigs: seq<SlotConfig>
    var statsMap: map<string, SlotStats>
    /** The tracked slot ids, in the order they were added (a JavaScript Set's order). */
    var activeSlots: seq<string>
    var simulatedBalance: real
    var globalStake: real
    var isPaused: bool

    ghost predicate Valid()
      reads this
    {
      ConfigsWellFormed(slotConfigs) &&
      statsMap.Keys == ConfigIds(slotConfigs) &&
      (forall c :: c in slotConfigs ==> c.id in statsMap && StatsInv(statsMap[c.id], c.rtp)) &&
      Distinct(activeSlots) &&
      globalStake in StakeOptions
    }

    constructor ()
      ensures Valid()
      ensures slotConfigs == Slots && activeSlots == InitialActiveSlots
      ensures statsMap.Keys == ConfigIds(Slots)
      ensures forall c :: c in Slots ==> statsMap[c.id] == FreshStats(c.rtp)
      ensures simulatedBalance == InitialBalance && globalStake == InitialStake && !isPaused
    {
      var m := BuildInitialStatsMap(Slots);
      SlotsWellFormed();
      slotConfigs := Slots;
      statsMap := m;
      activeSlots := InitialActiveSlots;
      simulatedBalance := InitialBalance;
      globalStake := InitialStake;
      isPaused := false;
      forall c | c in Slots ensures StatsInv(m[c.id], c.rtp) {
        FreshStatsInv(c.rtp);
      }
    }

    /** Starts tracking `id` when it is not tracked and stops tracking it when it is. */
    method ToggleSlotTracking(id: string)
      requires Valid()
      modifies this`activeSlots
      ensures Valid()
      ensures id in activeSlots <==> id !in old(activeSlots)
      ensures forall x :: x != id ==> (x in activeSlots <==> x in old(activeSlots))
      ensures id in old(activeSlots) ==> activeSlots == Without(old(activeSlots), id)
      ensures id !in old(activeSlots) ==> activeSlots == old(activeSlots) + [id]
    {
      if id in activeSlots {
        activeSlots := Without(activeSlots, id);
      } else {
        activeSlots := activeSlots + [id];
      }
    }

    /** Sets the volatility of the slot with that id; nothing else in the configuration changes. */
    method HandleVolatilityChange(id: string, newVolatility: real)
      requires Valid()
      modifies this`slotConfigs
      ensures Valid()
      ensures slotConfigs == WithVolatility(old(slotConfigs), id, newVolatility)
    {
      var before := slotConfigs;
      WithVolatilityKeepsWellFormed(before, id, newVolatility);
      slotConfigs := WithVolatility(before, id, newVolatility);
      forall c | c in slotConfigs ensures c.id in statsMap && StatsInv(statsMap[c.id], c.rtp) {
        var k :| 0 <= k < |slotConfigs| && slotConfigs[k] == c;
        assert before[k] in before;
      }
    }

    method TogglePause()
      requires Valid()
      modifies this`isPaused
      ensures Valid() && isPaused == !old(isPaused)
    {
      isPaused := !isPaused;
    }

    method SetGlobalStake(stake: real)
      requires Valid() && stake in StakeOptions
      modifies this`globalStake
      ensures Valid() && globalStake == stake
    {
      globalStake := stake;
    }

    /** One tick: unless paused, fold a fresh batch into every tracked, configured slot and
        move the balance by the tick's wins minus its stakes. */
    method ProcessSimulations(draws: map<string, seq<Draw>>)
      requires Valid() && DrawsFor(activeSlots, draws)
      modifies this`statsMap, this`simulatedBalance
      ensures Valid()
      ensures old(isPaused) ==> statsMap == old(statsMap) && simulatedBalance == old(simulatedBalance)
      ensures !isPaused ==> statsMap == TickMap(old(statsMap), slotConfigs, activeSlots, globalStake, draws)
      ensures !isPaused ==>
                simulatedBalance == old(simulatedBalance)
                                    - TickStakes(activeSlots, slotConfigs, globalStake, draws)
                                    + TickWins(activeSlots, slotConfigs, globalStake, draws)
    {
      if !isPaused {
        var nextMap, totalStakesInBatch, totalWinsInBatch :=
          SimulateTick(statsMap, slotConfigs, activeSlots, globalStake, draws);
        StakeOptionPositive(globalStake);
        TickMapKeepsInv(statsMap, slotConfigs, activeSlots, globalStake, draws);
        statsMap := nextMap;
        simulatedBalance := simulatedBalance - totalStakesInBatch + totalWinsInBatch;
      }
    }
  }
}
