/** The records shared by the simulator and the dashboard state:
    a slot's configuration, one spin's outcome and a slot's running statistics. */
module Types {

  datatype Option<T> = None | Some(value: T)

  /** A slot's statistical profile. `rtp` is a percentage, `hitFreq` a probability. */
  datatype SlotConfig = SlotConfig(
    id: string,
    name: string,
    rtp: real,
    hitFreq: real,
    volatility: real,
    color: string)

  /** One spin. `timestamp` is the wall-clock reading taken when it was generated. */
  datatype SpinResult = SpinResult(win: real, stake: real, multiplier: real, timestamp: int)

  datatype Trend = Up | Down | Neutral

  /** The running statistics kept per slot. */
  datatype SlotStats = SlotStats(
    liveRtp: real,
    totalSpins: nat,
    totalStakes: real,
    totalWins: real,
    maxMultiplier: real,
    history: seq<SpinResult>,
    trend: Trend,
    recentRtpHistory: seq<real>)

  /** What every spin the generator produces for a positive stake satisfies. */
  predicate ValidResult(r: SpinResult) {
    r.stake > 0.0 && r.win >= 0.0 && r.multiplier >= 0.0
  }

  /** A positive hit frequency that is a probability and a positive RTP percentage. */
  predicate WellFormedConfig(c: SlotConfig) {
    0.0 < c.hitFreq <= 1.0 && 0.0 < c.rtp <= 100.0
  }

  /** The range of the volatility slider. */
  predicate VolatilityInRange(c: SlotConfig) {
    1.0 <= c.volatility <= 20.0
  }

  predicate DistinctIds(configs: seq<SlotConfig>) {
    forall i, j :: 0 <= i < j < |configs| ==> configs[i].id != configs[j].id
  }

  predicate ConfigsWellFormed(configs: seq<SlotConfig>) {
    DistinctIds(configs) && forall i :: 0 <= i < |configs| ==> WellFormedConfig(configs[i])
  }

  function ConfigIds(configs: seq<SlotConfig>): set<string> {
    set c | c in configs :: c.id
  }

  predicate Distinct<T(==)>(s: seq<T>) {
    forall i, j :: 0 <= i < j < |s| ==> s[i] != s[j]
  }
}
