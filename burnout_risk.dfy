// components/dashboard/BurnoutRisk.tsx — the burnout score of the last seven
// days and the band it falls in.
module BurnoutRisk {
  import opened Records
  import JsMath

  /** The logs stamped strictly after `cutoff`, in list order. The component
      computes `cutoff` as the current time less seven calendar days. */
  function Recent<T(!new)>(s: seq<T>, stamp: T -> Instant, cutoff: Instant): (r: seq<T>)
    ensures |r| <= |s|
  {
    if s == [] then []
    else (if stamp(s[0]) > cutoff then [s[0]] else []) + Recent(s[1..], stamp, cutoff)
  }

  /** The window holds exactly the logs strictly newer than the cutoff. */
  lemma {:induction false} RecentMembers<T(!new)>(s: seq<T>, stamp: T -> Instant, cutoff: Instant)
    ensures forall x :: x in Recent(s, stamp, cutoff) <==> x in s && stamp(x) > cutoff
  {
    if s != [] {
      RecentMembers(s[1..], stamp, cutoff);
      assert s == [s[0]] + s[1..];
    }
  }

  lemma {:induction false} RecentAppend<T(!new)>(s: seq<T>, x: T, stamp: T -> Instant, cutoff: Instant)
    ensures Recent(s + [x], stamp, cutoff) == Recent(s, stamp, cutoff) + (if stamp(x) > cutoff then [x] else [])
  {
    if s == [] {
      assert s + [x] == [x];
      assert Recent([x], stamp, cutoff) == (if stamp(x) > cutoff then [x] else []) + Recent([x][1..], stamp, cutoff);
    } else {
      var head := if stamp(s[0]) > cutoff then [s[0]] else [];
      var tail := if stamp(x) > cutoff then [x] else [];
      assert (s + [x])[0] == s[0] && (s + [x])[1..] == s[1..] + [x];
      RecentAppend(s[1..], x, stamp, cutoff);
      assert Recent(s + [x], stamp, cutoff) == head + (Recent(s[1..], stamp, cutoff) + tail);
      assert Recent(s, stamp, cutoff) == head + Recent(s[1..], stamp, cutoff);
    }
  }

  function StressStamp(l: StressLog): Instant { l.timestamp }
  function SleepStamp(l: SleepLog): Instant { l.timestamp }
  function EventStamp(l: EventLog): Instant { l.timestamp }

  function SumLevels(logs: seq<StressLog>): real
  {
    if logs == [] then 0.0 else logs[0].level + SumLevels(logs[1..])
  }

  /** The number of sleep logs under six hours. */
  function LowSleepDays(logs: seq<SleepLog>): (n: nat)
    ensures n <= |logs|
  {
    if logs == [] then 0 else (if logs[0].hours < 6.0 then 1 else 0) + LowSleepDays(logs[1..])
  }

  /** Half the score: the average level on the 0-10 scale, scaled to 50. */
  function StressComponent(recent: seq<StressLog>): real
    requires recent != []
  {
    SumLevels(recent) / |recent| as real / 10.0 * 50.0
  }

  function SleepComponent(recent: seq<SleepLog>): real
  {
    JsMath.Min(30.0, LowSleepDays(recent) as real / 7.0 * 30.0)
  }

  function EventComponent(recent: seq<EventLog>): real
  {
    JsMath.Min(20.0, |recent| as real * 5.0)
  }

  /** calculateBurnoutScore, with `cutoff` the instant seven days back. */
  function Score(stress: seq<StressLog>, sleep: seq<SleepLog>, events: seq<EventLog>, cutoff: Instant): int
  {
    var rs := Recent(stress, StressStamp, cutoff);
    if rs == [] then 0
    else
      var total := JsMath.Round(StressComponent(rs)
                                + SleepComponent(Recent(sleep, SleepStamp, cutoff))
                                + EventComponent(Recent(events, EventStamp, cutoff)));
      if total <= 100 then total else 100
  }

  // ---------------------------------------------------------------- properties

  /** Without a stress log inside the window the score is 0. */
  lemma NoRecentStressScoresZero(stress: seq<StressLog>, sleep: seq<SleepLog>, events: seq<EventLog>, cutoff: Instant)
    requires forall l :: l in stress ==> l.timestamp <= cutoff
    ensures Score(stress, sleep, events, cutoff) == 0
  {
    RecentNone(stress, StressStamp, cutoff);
  }

  lemma {:induction false} RecentNone<T(!new)>(s: seq<T>, stamp: T -> Instant, cutoff: Instant)
    requires forall x :: x in s ==> stamp(x) <= cutoff
    ensures Recent(s, stamp, cutoff) == []
  {
    if s != [] {
      assert s[0] in s;
      assert forall x :: x in s[1..] ==> x in s;
      RecentNone(s[1..], stamp, cutoff);
    }
  }

  lemma {:induction false} SumLevelsBounds(logs: seq<StressLog>, lo: real, hi: real)
    requires forall k :: 0 <= k < |logs| ==> lo <= logs[k].level <= hi
    ensures |logs| as real * lo <= SumLevels(logs) <= |logs| as real * hi
  {
    if logs != [] {
      SumLevelsBounds(logs[1..], lo, hi);
    }
  }

  /** The three parts stay inside their weights: 50, 30 and 20, the stress one
      when levels are on the 0-10 scale. */
  lemma ComponentBounds(recentStress: seq<StressLog>, recentSleep: seq<SleepLog>, recentEvents: seq<EventLog>)
    requires recentStress != []
    requires forall k :: 0 <= k < |recentStress| ==> 0.0 <= recentStress[k].level <= 10.0
    ensures 0.0 <= StressComponent(recentStress) <= 50.0
    ensures 0.0 <= SleepComponent(recentSleep) <= 30.0
    ensures 0.0 <= EventComponent(recentEvents) <= 20.0
  {
    SumLevelsBounds(recentStress, 0.0, 10.0);
    AverageBounds(SumLevels(recentStress), |recentStress| as real, 10.0);
  }

  /** An average of values in [0, hi] is in [0, hi]. */
  lemma AverageBounds(sum: real, n: real, hi: real)
    requires n > 0.0 && 0.0 <= sum <= n * hi
    ensures 0.0 <= sum / n <= hi
  {
    var avg := sum / n;
    assert avg * n == sum;
    if avg > hi {
      assert avg * n > hi * n;
    }
  }

  /** The score never exceeds 100, and is never negative while no level is. */
  lemma ScoreRange(stress: seq<StressLog>, sleep: seq<SleepLog>, events: seq<EventLog>, cutoff: Instant)
    ensures Score(stress, sleep, events, cutoff) <= 100
    ensures (forall l :: l in stress ==> 0.0 <= l.level) ==> 0 <= Score(stress, sleep, events, cutoff)
  {
    var rs := Recent(stress, StressStamp, cutoff);
    RecentMembers(stress, StressStamp, cutoff);
    if rs != [] && forall l :: l in stress ==> 0.0 <= l.level {
      forall k | 0 <= k < |rs| ensures 0.0 <= rs[k].level {
        assert rs[k] in rs;
      }
      StressComponentNonNegative(rs);
      var x := StressComponent(rs) + SleepComponent(Recent(sleep, SleepStamp, cutoff)) + EventComponent(Recent(events, EventStamp, cutoff));
      JsMath.RoundMonotone(0.0, x);
    }
  }

  lemma StressComponentNonNegative(rs: seq<StressLog>)
    requires rs != [] && forall k :: 0 <= k < |rs| ==> 0.0 <= rs[k].level
    ensures 0.0 <= StressComponent(rs)
  {
    SumLevelsLower(rs);
    AverageBounds(SumLevels(rs), |rs| as real, SumLevels(rs));
  }

  lemma {:induction false} SumLevelsLower(logs: seq<StressLog>)
    requires forall k :: 0 <= k < |logs| ==> 0.0 <= logs[k].level
    ensures 0.0 <= SumLevels(logs)
  {
    if logs != [] {
      SumLevelsLower(logs[1..]);
    }
  }

  /** Logging one more event inside the window never lowers the score. */
  lemma EventNeverLowers(stress: seq<StressLog>, sleep: seq<SleepLog>, events: seq<EventLog>, e: EventLog, cutoff: Instant)
    requires e.timestamp > cutoff
    ensures Score(stress, sleep, events, cutoff) <= Score(stress, sleep, events + [e], cutoff)
  {
    RecentAppend(events, e, EventStamp, cutoff);
    var rs := Recent(stress, StressStamp, cutoff);
    if rs != [] {
      var before := Recent(events, EventStamp, cutoff);
      var after := Recent(events + [e], EventStamp, cutoff);
      assert |after| == |before| + 1;
      assert EventComponent(before) <= EventComponent(after);
      var base := StressComponent(rs) + SleepComponent(Recent(sleep, SleepStamp, cutoff));
      JsMath.RoundMonotone(base + EventComponent(before), base + EventComponent(after));
    }
  }

  // ---------------------------------------------------------------- bands

  datatype Band = LowRisk | Elevated | HighRisk | Severe

  /** getRiskInfo, by its label. */
  function RiskBand(score: int): Band
  {
    if score < 30 then LowRisk
    else if score < 60 then Elevated
    else if score < 80 then HighRisk
    else Severe
  }

  /** Each band is exactly one interval of scores. */
  lemma BandsPartition(score: int)
    ensures RiskBand(score) == LowRisk <==> score < 30
    ensures RiskBand(score) == Elevated <==> 30 <= score < 60
    ensures RiskBand(score) == HighRisk <==> 60 <= score < 80
    ensures RiskBand(score) == Severe <==> 80 <= score
  {
  }

  /** A higher score is never in a lower band. */
  lemma BandMonotone(a: int, b: int)
    requires a <= b
    ensures BandRank(RiskBand(a)) <= BandRank(RiskBand(b))
  {
  }

  function BandRank(b: Band): nat
  {
    match b
    case LowRisk => 0
    case Elevated => 1
    case HighRisk => 2
    case Severe => 3
  }
}
