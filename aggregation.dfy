/** The per-slot fold: one batch of spins folded into a slot's running statistics
    (cumulative totals, live RTP, running maximum, bounded histories and trend). */
module Aggregation {
  import opened Types

  /** How many spins a slot's history keeps. */
  const HistoryWindow: nat := 100
  /** How many live-RTP snapshots a slot keeps. */
  const RtpWindow: nat := 30

  // ---------------------------------------------------------------------------
  // Keep-last-N windows

  /** `s.slice(-n)` for n > 0: the last `n` elements of `s`, or all of `s` when it is
      shorter. (`slice(-0)` would return all of `s`; the fold only uses n = 100 and n = 30.) */
  function KeepLast<T>(s: seq<T>, n: nat): seq<T> {
    if |s| <= n then s else s[|s| - n..]
  }

  /** The window holds at most `n` elements, exactly `n` once `s` has that many, and is
      the newest part of `s`. */
  lemma KeepLastFacts<T>(s: seq<T>, n: nat)
    ensures |KeepLast(s, n)| <= n && |KeepLast(s, n)| <= |s|
    ensures |KeepLast(s, n)| == if |s| <= n then |s| else n
    ensures KeepLast(s, n) == s[|s| - |KeepLast(s, n)|..]
  {
  }

  /** Truncating after every append is the same as truncating once at the end. */
  lemma KeepLastAppend<T>(a: seq<T>, b: seq<T>, n: nat)
    ensures KeepLast(KeepLast(a, n) + b, n) == KeepLast(a + b, n)
  {
    if |a| > n {
      var k := a[|a| - n..];
      assert KeepLast(a, n) == k;
      if b == [] {
        assert k + b == k && a + b == a;
      } else {
        var t := k + b;
        var u := (a + b)[|a| + |b| - n..];
        assert KeepLast(t, n) == t[|b|..];
        assert KeepLast(a + b, n) == u;
        assert |t[|b|..]| == |u| == n;
        forall j | 0 <= j < n ensures t[|b|..][j] == u[j] {
          if |b| + j < n {
            assert t[|b| + j] == a[|a| - n + |b| + j];
          } else {
            assert t[|b| + j] == b[|b| + j - n];
          }
        }
      }
    }
  }

  // ---------------------------------------------------------------------------
  // Reductions over a batch

  function Stakes(batch: seq<SpinResult>): seq<real> {
    seq(|batch|, i requires 0 <= i < |batch| => batch[i].stake)
  }

  function Wins(batch: seq<SpinResult>): seq<real> {
    seq(|batch|, i requires 0 <= i < |batch| => batch[i].win)
  }

  function Multipliers(batch: seq<SpinResult>): seq<real> {
    seq(|batch|, i requires 0 <= i < |batch| => batch[i].multiplier)
  }

  /** `xs.reduce((sum, x) => sum + x, 0)`, adding from left to right. */
  function Sum(xs: seq<real>): real {
    if xs == [] then 0.0 else Sum(xs[..|xs| - 1]) + xs[|xs| - 1]
  }

  lemma {:induction false} SumConcat(a: seq<real>, b: seq<real>)
    ensures Sum(a + b) == Sum(a) + Sum(b)
  {
    if b != [] {
      assert (a + b)[..|a + b| - 1] == a + b[..|b| - 1];
      SumConcat(a, b[..|b| - 1]);
    } else {
      assert a + b == a;
    }
  }

  lemma {:induction false} SumNonNegative(xs: seq<real>)
    requires forall i :: 0 <= i < |xs| ==> xs[i] >= 0.0
    ensures Sum(xs) >= 0.0
  {
    if xs != [] {
      SumNonNegative(xs[..|xs| - 1]);
    }
  }

  lemma {:induction false} SumPositive(xs: seq<real>)
    requires xs != [] && forall i :: 0 <= i < |xs| ==> xs[i] > 0.0
    ensures Sum(xs) > 0.0
  {
    SumNonNegative(xs[..|xs| - 1]);
  }

  /** A sequence of equal values sums to their count times the value. */
  lemma {:induction false} SumConstant(xs: seq<real>, x: real)
    requires forall i :: 0 <= i < |xs| ==> xs[i] == x
    ensures Sum(xs) == |xs| as real * x
  {
    if xs != [] {
      SumConstant(xs[..|xs| - 1], x);
    }
  }

  function Max(a: real, b: real): real {
    if a >= b then a else b
  }

  /** `Math.max(current, ...xs)`. On an empty `xs` it is `current`, since JavaScript's
      `Math.max()` of no arguments is minus infinity. */
  function MaxOf(current: real, xs: seq<real>): real {
    if xs == [] then current else Max(MaxOf(current, xs[..|xs| - 1]), xs[|xs| - 1])
  }

  /** The running maximum bounds `current` and every element, and is one of them. */
  lemma {:induction false} MaxOfBounds(current: real, xs: seq<real>)
    ensures current <= MaxOf(current, xs)
    ensures forall i :: 0 <= i < |xs| ==> xs[i] <= MaxOf(current, xs)
    ensures MaxOf(current, xs) == current || MaxOf(current, xs) in xs
  {
    if xs != [] {
      var init := xs[..|xs| - 1];
      MaxOfBounds(current, init);
      forall i | 0 <= i < |xs| - 1 ensures xs[i] <= MaxOf(current, xs) {
        assert xs[i] == init[i];
      }
      if MaxOf(current, init) in init {
        var k :| 0 <= k < |init| && init[k] == MaxOf(current, init);
        assert xs[k] == init[k];
      }
    }
  }

  lemma {:induction false} MaxOfConcat(current: real, a: seq<real>, b: seq<real>)
    ensures MaxOf(MaxOf(current, a), b) == MaxOf(current, a + b)
  {
    if b != [] {
      assert (a + b)[..|a + b| - 1] == a + b[..|b| - 1];
      MaxOfConcat(current, a, b[..|b| - 1]);
    } else {
      assert a + b == a;
    }
  }

  // ---------------------------------------------------------------------------
  // The fold

  /** Wins over stakes as a percentage, or the configured RTP while nothing was staked. */
  function LiveRtp(totalStakes: real, totalWins: real, rtp: real): real {
    if totalStakes > 0.0 then (totalWins / totalStakes) * 100.0 else rtp
  }

  /** The live RTP is the percentage the wins are of the stakes, and falls back to the
      configured RTP exactly when nothing was staked. */
  lemma LiveRtpMeaning(totalStakes: real, totalWins: real, rtp: real)
    ensures totalStakes > 0.0 ==> LiveRtp(totalStakes, totalWins, rtp) * totalStakes == totalWins * 100.0
    ensures totalStakes <= 0.0 ==> LiveRtp(totalStakes, totalWins, rtp) == rtp
  {
  }

  /** One batch folded into a slot's statistics; `rtp` is the slot's configured RTP. */
  function ApplyBatch(stats: SlotStats, batch: seq<SpinResult>, rtp: real): (r: SlotStats)
    ensures |r.history| <= HistoryWindow && 0 < |r.recentRtpHistory| <= RtpWindow
    ensures r.recentRtpHistory[|r.recentRtpHistory| - 1] == r.liveRtp
    ensures r.trend != Neutral
  {
    var totalStakes := stats.totalStakes + Sum(Stakes(batch));
    var totalWins := stats.totalWins + Sum(Wins(batch));
    var liveRtp := LiveRtp(totalStakes, totalWins, rtp);
    stats.(
      liveRtp := liveRtp,
      totalSpins := stats.totalSpins + |batch|,
      totalStakes := totalStakes,
      totalWins := totalWins,
      maxMultiplier := MaxOf(stats.maxMultiplier, Multipliers(batch)),
      history := KeepLast(stats.history + batch, HistoryWindow),
      recentRtpHistory := KeepLast(stats.recentRtpHistory + [liveRtp], RtpWindow),
      trend := if liveRtp > stats.liveRtp then Up else Down)
  }

  /** The totals grow by the batch's length, stakes and wins; the live RTP is wins over
      stakes of the new totals; the maximum never decreases and bounds the batch. */
  lemma ApplyBatchTotals(stats: SlotStats, batch: seq<SpinResult>, rtp: real)
    ensures var r := ApplyBatch(stats, batch, rtp);
            r.totalSpins == stats.totalSpins + |batch| &&
            r.totalStakes == stats.totalStakes + Sum(Stakes(batch)) &&
            r.totalWins == stats.totalWins + Sum(Wins(batch)) &&
            (r.totalStakes > 0.0 ==> r.liveRtp * r.totalStakes == r.totalWins * 100.0) &&
            (r.totalStakes <= 0.0 ==> r.liveRtp == rtp) &&
            stats.maxMultiplier <= r.maxMultiplier &&
            (forall i :: 0 <= i < |batch| ==> batch[i].multiplier <= r.maxMultiplier) &&
            (r.maxMultiplier == stats.maxMultiplier || r.maxMultiplier in Multipliers(batch))
  {
    var r := ApplyBatch(stats, batch, rtp);
    LiveRtpMeaning(r.totalStakes, r.totalWins, rtp);
    MaxOfBounds(stats.maxMultiplier, Multipliers(batch));
    forall i | 0 <= i < |batch| ensures batch[i].multiplier <= r.maxMultiplier {
      assert Multipliers(batch)[i] == batch[i].multiplier;
    }
  }

  /** The histories stay within their windows, the last RTP snapshot is the new live RTP,
      and the trend is up exactly when the live RTP rose; the fold never writes neutral. */
  lemma ApplyBatchWindowsAndTrend(stats: SlotStats, batch: seq<SpinResult>, rtp: real)
    ensures var r := ApplyBatch(stats, batch, rtp);
            |r.history| == (if |stats.history| + |batch| <= HistoryWindow then |stats.history| + |batch| else HistoryWindow) &&
            |r.recentRtpHistory| == (if |stats.recentRtpHistory| < RtpWindow then |stats.recentRtpHistory| + 1 else RtpWindow) &&
            0 < |r.recentRtpHistory| <= RtpWindow &&
            r.recentRtpHistory[|r.recentRtpHistory| - 1] == r.liveRtp &&
            (r.trend == Up <==> r.liveRtp > stats.liveRtp) &&
            r.trend != Neutral
  {
    var r := ApplyBatch(stats, batch, rtp);
    KeepLastFacts(stats.history + batch, HistoryWindow);
    KeepLastFacts(stats.recentRtpHistory + [r.liveRtp], RtpWindow);
  }

  /** The new history is the newest part of the old history followed by the batch, and the
      new RTP history the newest part of the old one followed by the new live RTP. */
  lemma ApplyBatchWindows(stats: SlotStats, batch: seq<SpinResult>, rtp: real)
    ensures var r := ApplyBatch(stats, batch, rtp);
            var all := stats.history + batch;
            var rtps := stats.recentRtpHistory + [r.liveRtp];
            r.history == all[|all| - |r.history|..] &&
            r.recentRtpHistory == rtps[|rtps| - |r.recentRtpHistory|..]
  {
    var r := ApplyBatch(stats, batch, rtp);
    KeepLastFacts(stats.history + batch, HistoryWindow);
    KeepLastFacts(stats.recentRtpHistory + [r.liveRtp], RtpWindow);
  }

  lemma ConcatStakes(stats: SlotStats, b1: seq<SpinResult>, b2: seq<SpinResult>, rtp: real)
    ensures ApplyBatch(ApplyBatch(stats, b1, rtp), b2, rtp).totalStakes == ApplyBatch(stats, b1 + b2, rtp).totalStakes
  {
    assert Stakes(b1 + b2) == Stakes(b1) + Stakes(b2);
    SumConcat(Stakes(b1), Stakes(b2));
  }

  lemma ConcatWins(stats: SlotStats, b1: seq<SpinResult>, b2: seq<SpinResult>, rtp: real)
    ensures ApplyBatch(ApplyBatch(stats, b1, rtp), b2, rtp).totalWins == ApplyBatch(stats, b1 + b2, rtp).totalWins
  {
    assert Wins(b1 + b2) == Wins(b1) + Wins(b2);
    SumConcat(Wins(b1), Wins(b2));
  }

  lemma ConcatMax(stats: SlotStats, b1: seq<SpinResult>, b2: seq<SpinResult>, rtp: real)
    ensures ApplyBatch(ApplyBatch(stats, b1, rtp), b2, rtp).maxMultiplier == ApplyBatch(stats, b1 + b2, rtp).maxMultiplier
  {
    assert Multipliers(b1 + b2) == Multipliers(b1) + Multipliers(b2);
    MaxOfConcat(stats.maxMultiplier, Multipliers(b1), Multipliers(b2));
  }

  /** Folding two batches one after the other gives the same totals, live RTP and
      maximum as folding their concatenation once. */
  lemma ApplyBatchConcatTotals(stats: SlotStats, b1: seq<SpinResult>, b2: seq<SpinResult>, rtp: real)
    ensures var two := ApplyBatch(ApplyBatch(stats, b1, rtp), b2, rtp);
            var one := ApplyBatch(stats, b1 + b2, rtp);
            two.totalSpins == one.totalSpins &&
            two.totalStakes == one.totalStakes &&
            two.totalWins == one.totalWins &&
            two.liveRtp == one.liveRtp &&
            two.maxMultiplier == one.maxMultiplier
  {
    ConcatStakes(stats, b1, b2, rtp);
    ConcatWins(stats, b1, b2, rtp);
    ConcatMax(stats, b1, b2, rtp);
  }

  /** The spin history of two folds equals that of one fold of the concatenation; the
      RTP history is order-sensitive: the two folds record two snapshots, the single
      fold one. */
  lemma ApplyBatchConcatHistory(stats: SlotStats, b1: seq<SpinResult>, b2: seq<SpinResult>, rtp: real)
    ensures var mid := ApplyBatch(stats, b1, rtp);
            var two := ApplyBatch(mid, b2, rtp);
            two.history == ApplyBatch(stats, b1 + b2, rtp).history &&
            two.recentRtpHistory == KeepLast(stats.recentRtpHistory + [mid.liveRtp, two.liveRtp], RtpWindow)
  {
    var mid := ApplyBatch(stats, b1, rtp);
    var two := ApplyBatch(mid, b2, rtp);
    var h1 := stats.history + b1;
    assert mid.history == KeepLast(h1, HistoryWindow);
    assert two.history == KeepLast(KeepLast(h1, HistoryWindow) + b2, HistoryWindow);
    KeepLastAppend(h1, b2, HistoryWindow);
    assert h1 + b2 == stats.history + (b1 + b2);
    var r1 := stats.recentRtpHistory + [mid.liveRtp];
    assert mid.recentRtpHistory == KeepLast(r1, RtpWindow);
    assert two.recentRtpHistory == KeepLast(KeepLast(r1, RtpWindow) + [two.liveRtp], RtpWindow);
    KeepLastAppend(r1, [two.liveRtp], RtpWindow);
    assert r1 + [two.liveRtp] == stats.recentRtpHistory + [mid.liveRtp, two.liveRtp];
  }

  // ---------------------------------------------------------------------------
  // The invariant every slot's statistics keep

  /** What holds of a slot's statistics from the initial record on, through every fold
      of well-formed spins. */
  predicate StatsInv(s: SlotStats, rtp: real) {
    |s.history| <= HistoryWindow && |s.history| <= s.totalSpins &&
    0 < |s.recentRtpHistory| <= RtpWindow &&
    s.recentRtpHistory[|s.recentRtpHistory| - 1] == s.liveRtp &&
    0.0 <= s.totalStakes && 0.0 <= s.totalWins && 0.0 <= s.maxMultiplier &&
    (s.totalSpins == 0 <==> s.totalStakes == 0.0) &&
    s.liveRtp == LiveRtp(s.totalStakes, s.totalWins, rtp) &&
    (forall i :: 0 <= i < |s.history| ==>
       ValidResult(s.history[i]) && s.history[i].multiplier <= s.maxMultiplier) &&
    (s.trend == Neutral ==> s.totalSpins == 0)
  }

  lemma ApplyBatchKeepsInv(s: SlotStats, batch: seq<SpinResult>, rtp: real)
    requires StatsInv(s, rtp)
    requires forall i :: 0 <= i < |batch| ==> ValidResult(batch[i])
    ensures StatsInv(ApplyBatch(s, batch, rtp), rtp)
  {
    var r := ApplyBatch(s, batch, rtp);
    ApplyBatchTotals(s, batch, rtp);
    ApplyBatchWindowsAndTrend(s, batch, rtp);
    assert 0.0 <= r.totalWins by {
      SumNonNegative(Wins(batch));
    }
    assert 0.0 <= r.totalStakes && (r.totalSpins == 0 <==> r.totalStakes == 0.0) by {
      if batch == [] {
        assert Stakes(batch) == [];
      } else {
        SumPositive(Stakes(batch));
      }
    }
    assert forall i :: 0 <= i < |r.history| ==>
             ValidResult(r.history[i]) && r.history[i].multiplier <= r.maxMultiplier
    by {
      ApplyBatchWindows(s, batch, rtp);
      var all := s.history + batch;
      var off := |all| - |r.history|;
      forall i | 0 <= i < |r.history|
        ensures ValidResult(r.history[i]) && r.history[i].multiplier <= r.maxMultiplier
      {
        assert r.history[i] == all[off + i];
        if off + i < |s.history| {
          assert all[off + i] == s.history[off + i];
        } else {
          assert all[off + i] == batch[off + i - |s.history|];
        }
      }
    }
  }
}
