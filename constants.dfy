/** The configured slots and the initial statistics map built from them. */
module Constants {
  import opened Types
  import opened Aggregation

  /** How many copies of the configured RTP seed a slot's RTP history. */
  const InitialRtpHistoryLength: nat := 20

  const Slots: seq<SlotConfig> := [
    SlotConfig("book-of-dead", "Book of Dead", 96.21, 0.29, 5.0, "#fbbf24"),
    SlotConfig("razor-shark", "Razor Shark", 96.70, 0.18, 12.0, "#06b6d4"),
    SlotConfig("sweet-bonanza", "Sweet Bonanza", 96.48, 0.35, 3.5, "#ec4899"),
    SlotConfig("gates-of-olympus", "Gates of Olympus", 96.50, 0.22, 9.0, "#8b5cf6")
  ]

  /** The configured slots have distinct ids, keep to the configuration ranges and start
      with a volatility the slider can show. */
  lemma SlotsWellFormed()
    ensures |Slots| == 4 && ConfigsWellFormed(Slots)
    ensures forall i :: 0 <= i < |Slots| ==> VolatilityInRange(Slots[i])
  {
  }

  /** The record a slot starts from: nothing spun yet, live RTP at the configured RTP. */
  function FreshStats(rtp: real): (s: SlotStats)
    ensures s.liveRtp == rtp && s.trend == Neutral && s.history == []
    ensures s.totalSpins == 0 && s.totalStakes == 0.0 && s.totalWins == 0.0 && s.maxMultiplier == 0.0
    ensures |s.recentRtpHistory| == InitialRtpHistoryLength
    ensures forall i :: 0 <= i < |s.recentRtpHistory| ==> s.recentRtpHistory[i] == rtp
  {
    SlotStats(rtp, 0, 0.0, 0.0, 0.0, [], Neutral, seq(InitialRtpHistoryLength, _ => rtp))
  }

  /** The fold's invariant holds of every fresh record. */
  lemma FreshStatsInv(rtp: real)
    ensures StatsInv(FreshStats(rtp), rtp)
  {
  }

  /** The initial statistics map: one fresh record per configured slot, keyed by its id;
      when two slots share an id, the later one's record is kept. */
  method BuildInitialStatsMap(slots: seq<SlotConfig>) returns (m: map<string, SlotStats>)
    ensures m.Keys == ConfigIds(slots)
    ensures forall i :: 0 <= i < |slots| && (forall j :: i < j < |slots| ==> slots[j].id != slots[i].id) ==>
              m[slots[i].id] == FreshStats(slots[i].rtp)
    ensures DistinctIds(slots) ==> forall c :: c in slots ==> m[c.id] == FreshStats(c.rtp)
  {
    m := map[];
    var i := 0;
    while i < |slots|
      invariant 0 <= i <= |slots|
      invariant m.Keys == ConfigIds(slots[..i])
      invariant forall k :: 0 <= k < i && (forall j :: k < j < i ==> slots[j].id != slots[k].id) ==>
                  m[slots[k].id] == FreshStats(slots[k].rtp)
    {
      assert slots[..i + 1] == slots[..i] + [slots[i]];
      m := m[slots[i].id := FreshStats(slots[i].rtp)];
      i := i + 1;
    }
    assert slots[..i] == slots;
    if DistinctIds(slots) {
      forall c | c in slots
        ensures m[c.id] == FreshStats(c.rtp)
      {
        var k :| 0 <= k < |slots| && slots[k] == c;
      }
    }
  }

  /** The first tick of a fresh Book of Dead record with a full batch of 100 spins. */
  lemma FirstTickShape(batch: seq<SpinResult>)
    requires |batch| == 100
    ensures var r := ApplyBatch(FreshStats(Slots[0].rtp), batch, Slots[0].rtp);
            r.totalSpins == 100 && |r.history| == 100 && r.history == batch &&
            |r.recentRtpHistory| == InitialRtpHistoryLength + 1
  {
    var r := ApplyBatch(FreshStats(Slots[0].rtp), batch, Slots[0].rtp);
    assert [] + batch == batch;
  }
}
