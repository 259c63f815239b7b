// components/Gamification.tsx — wellness points, today's statistics, the
// daily challenge, step logging and rewards unlocked by points.
module Gamification {
  import opened Wrappers
  import opened Records
  import JsString
  import StressData

  /** A local calendar date; `local` maps an instant to it. */
  datatype DateParts = DateParts(year: int, month: int, day: int)

  /** `isToday`: the same day, month and year as `now`. */
  predicate IsToday(t: Instant, now: Instant, local: Instant -> DateParts)
  {
    local(t).day == local(now).day && local(t).month == local(now).month && local(t).year == local(now).year
  }

  function TodaysActivities(acts: seq<WellnessActivity>, now: Instant, local: Instant -> DateParts): (r: seq<WellnessActivity>)
    ensures |r| <= |acts|
    ensures forall a :: a in r <==> a in acts && IsToday(a.timestamp, now, local)
  {
    if acts == [] then []
    else (if IsToday(acts[0].timestamp, now, local) then [acts[0]] else []) + TodaysActivities(acts[1..], now, local)
  }

  lemma {:induction false} TodaysAppend(acts: seq<WellnessActivity>, a: WellnessActivity, now: Instant, local: Instant -> DateParts)
    ensures TodaysActivities(acts + [a], now, local)
            == TodaysActivities(acts, now, local) + (if IsToday(a.timestamp, now, local) then [a] else [])
  {
    if acts == [] {
      assert acts + [a] == [a];
      assert TodaysActivities([a], now, local)
          == (if IsToday(a.timestamp, now, local) then [a] else []) + TodaysActivities([a][1..], now, local);
    } else {
      assert (acts + [a])[1..] == acts[1..] + [a];
      TodaysAppend(acts[1..], a, now, local);
    }
  }

  /** The day's steps: the sum over today's step logs. */
  function DailySteps(logs: seq<StepLog>, now: Instant, local: Instant -> DateParts): int
  {
    if logs == [] then 0
    else (if IsToday(logs[0].timestamp, now, local) then logs[0].steps else 0) + DailySteps(logs[1..], now, local)
  }

  lemma {:induction false} DailyStepsAppend(logs: seq<StepLog>, l: StepLog, now: Instant, local: Instant -> DateParts)
    ensures DailySteps(logs + [l], now, local)
            == DailySteps(logs, now, local) + (if IsToday(l.timestamp, now, local) then l.steps else 0)
  {
    if logs == [] {
      assert logs + [l] == [l];
      assert DailySteps([l], now, local)
          == (if IsToday(l.timestamp, now, local) then l.steps else 0) + DailySteps([l][1..], now, local);
    } else {
      assert (logs + [l])[1..] == logs[1..] + [l];
      DailyStepsAppend(logs[1..], l, now, local);
    }
  }

  const ChallengePrefix := "Completed Challenge"

  function Challenges(acts: seq<WellnessActivity>): nat
  {
    if acts == [] then 0
    else (if JsString.StartsWith(acts[0].activity, ChallengePrefix) then 1 else 0) + Challenges(acts[1..])
  }

  lemma {:induction false} ChallengesAppend(acts: seq<WellnessActivity>, a: WellnessActivity)
    ensures Challenges(acts + [a]) == Challenges(acts) + (if JsString.StartsWith(a.activity, ChallengePrefix) then 1 else 0)
  {
    if acts == [] {
      assert acts + [a] == [a];
      assert Challenges([a]) == (if JsString.StartsWith(a.activity, ChallengePrefix) then 1 else 0) + Challenges([a][1..]);
    } else {
      assert (acts + [a])[1..] == acts[1..] + [a];
      ChallengesAppend(acts[1..], a);
    }
  }

  /** `challengesCompleted`. */
  function ChallengesCompleted(acts: seq<WellnessActivity>, now: Instant, local: Instant -> DateParts): nat
  {
    Challenges(TodaysActivities(acts, now, local))
  }

  /** A new activity adds one completed challenge exactly when it is stamped
      today and starts with the challenge prefix. */
  lemma ChallengesCompletedAppend(acts: seq<WellnessActivity>, a: WellnessActivity, now: Instant, local: Instant -> DateParts)
    ensures ChallengesCompleted(acts + [a], now, local)
            == ChallengesCompleted(acts, now, local)
               + (if IsToday(a.timestamp, now, local) && JsString.StartsWith(a.activity, ChallengePrefix) then 1 else 0)
  {
    var t := TodaysActivities(acts, now, local);
    TodaysAppend(acts, a, now, local);
    if IsToday(a.timestamp, now, local) {
      assert TodaysActivities(acts + [a], now, local) == t + [a];
      ChallengesAppend(t, a);
    } else {
      assert TodaysActivities(acts + [a], now, local) == t + [] == t;
    }
  }

  // ---------------------------------------------------------------- mindful minutes

  const MinuteTag := "-minute"

  /** "-minute" stands at position q, character by character. */
  predicate TagFollows(s: string, q: int)
  {
    0 <= q && q + 7 <= |s| && s[q] == '-' && s[q + 1] == 'm' && s[q + 2] == 'i'
    && s[q + 3] == 'n' && s[q + 4] == 'u' && s[q + 5] == 't' && s[q + 6] == 'e'
  }

  /** The character test is the same as finding "-minute" at q. */
  lemma TagFollowsIffOccurs(s: string, q: int)
    ensures TagFollows(s, q) <==> JsString.OccursAt(s, MinuteTag, q)
  {
    if JsString.OccursAt(s, MinuteTag, q) {
      var w := s[q..q + 7];
      assert w[0] == s[q] && w[1] == s[q + 1] && w[2] == s[q + 2] && w[3] == s[q + 3];
      assert w[4] == s[q + 4] && w[5] == s[q + 5] && w[6] == s[q + 6];
    }
    if TagFollows(s, q) {
      assert s[q..q + 7] == MinuteTag;
    }
  }

  /** A digit directly followed by "-minute" at position i. */
  predicate TagAt(s: string, i: int)
  {
    0 <= i < |s| && JsString.IsDigit(s[i]) && TagFollows(s, i + 1)
  }

  /** The end of the run of digits that starts at p. */
  function RunEnd(s: string, p: nat): (q: nat)
    requires p <= |s|
    ensures p <= q <= |s|
    ensures forall k :: p <= k < q ==> JsString.IsDigit(s[k])
    ensures q < |s| ==> !JsString.IsDigit(s[q])
    decreases |s| - p
  {
    if p < |s| && JsString.IsDigit(s[p]) then RunEnd(s, p + 1) else p
  }

  /** The first match of `/(\d+)-minute/` at or after p: the leftmost digit
      run followed by "-minute", read whole. A run that is not followed by
      the tag is skipped, since no shorter part of it is either. */
  function MinuteFrom(s: string, p: nat): Option<nat>
    requires p <= |s|
    decreases |s| - p
  {
    if p == |s| then None
    else
      var q := RunEnd(s, p);
      if q > p && TagFollows(s, q) then Some(JsString.DigitsValue(s[p..q]))
      else MinuteFrom(s, if q > p then q else p + 1)
  }

  function MinuteMatch(s: string): Option<nat>
  {
    MinuteFrom(s, 0)
  }

  /** No match exactly when no digit stands directly before "-minute"; a
      match reads the whole digit run ending at the first such place. */
  lemma MinuteFromMeaning(s: string, p: nat)
    requires p <= |s|
    ensures MinuteFrom(s, p) == None <==> forall i :: p <= i < |s| ==> !TagAt(s, i)
    ensures MinuteFrom(s, p).Some? ==>
              exists i, j :: p <= i < j <= |s| && TagAt(s, j - 1)
                             && (forall k :: i <= k < j ==> JsString.IsDigit(s[k]))
                             && (forall k :: p <= k < j - 1 ==> !TagAt(s, k))
                             && MinuteFrom(s, p).value == JsString.DigitsValue(s[i..j])
  {
    MinuteFromNone(s, p);
    if MinuteFrom(s, p).Some? {
      var i, j := MinuteFromSome(s, p);
    }
  }

  /** Inside a run of digits no tag starts before its last digit. */
  lemma RunHasNoTag(s: string, p: nat)
    requires p < |s|
    ensures forall k :: p <= k < RunEnd(s, p) - 1 ==> !TagAt(s, k)
  {
    var q := RunEnd(s, p);
    forall k: int | p <= k && k + 1 < q ensures !TagAt(s, k) {
      assert JsString.IsDigit(s[k + 1]);
    }
  }

  lemma {:induction false} MinuteFromNone(s: string, p: nat)
    requires p <= |s|
    ensures MinuteFrom(s, p) == None <==> forall i :: p <= i < |s| ==> !TagAt(s, i)
    decreases |s| - p
  {
    if p < |s| {
      var q := RunEnd(s, p);
      RunHasNoTag(s, p);
      if q > p && TagFollows(s, q) {
        assert TagAt(s, q - 1);
      } else {
        var next := if q > p then q else p + 1;
        MinuteFromNone(s, next);
        assert forall k :: p <= k < next ==> !TagAt(s, k);
      }
    }
  }

  /** Where the match found from p lies: the digits s[i..j] end just before
      the tag, and no tag starts earlier. */
  lemma {:induction false} MinuteFromSome(s: string, p: nat) returns (i: nat, j: nat)
    requires p <= |s| && MinuteFrom(s, p).Some?
    ensures p <= i < j <= |s| && TagAt(s, j - 1)
    ensures forall k :: i <= k < j ==> JsString.IsDigit(s[k])
    ensures forall k :: p <= k < j - 1 ==> !TagAt(s, k)
    ensures MinuteFrom(s, p).value == JsString.DigitsValue(s[i..j])
    decreases |s| - p
  {
    var q := RunEnd(s, p);
    RunHasNoTag(s, p);
    if q > p && TagFollows(s, q) {
      i, j := p, q;
    } else {
      var next := if q > p then q else p + 1;
      i, j := MinuteFromSome(s, next);
      assert forall k :: p <= k < next ==> !TagAt(s, k);
    }
  }

  /** "N-minute" at the head of the text reads N. */
  lemma MinuteMatchOfTag(n: nat, tail: string)
    ensures MinuteMatch(JsString.NatToString(n) + MinuteTag + tail) == Some(n)
  {
    var d := JsString.NatToString(n);
    var s := d + MinuteTag + tail;
    assert s[|d|] == '-';
    assert forall k :: 0 <= k < |d| ==> s[k] == d[k];
    assert RunEnd(s, 0) == |d|;
    assert s[0..|d|] == d;
    assert s[|d|..|d| + |MinuteTag|] == MinuteTag;
    TagFollowsIffOccurs(s, |d|);
    JsString.DigitsOfNat(n);
  }

  /** What one of today's activities adds to the mindful minutes. */
  function ActivityMinutes(text: string): nat
  {
    if JsString.Contains(JsString.ToLower(text), "meditation") then
      match MinuteMatch(text)
      case Some(n) => n
      case None => 5
    else 0
  }

  function SumMinutes(acts: seq<WellnessActivity>): nat
  {
    if acts == [] then 0 else ActivityMinutes(acts[0].activity) + SumMinutes(acts[1..])
  }

  /** `mindfulMinutes`. */
  function MindfulMinutes(acts: seq<WellnessActivity>, now: Instant, local: Instant -> DateParts): nat
  {
    SumMinutes(TodaysActivities(acts, now, local))
  }

  lemma {:induction false} SumMinutesAppend(acts: seq<WellnessActivity>, a: WellnessActivity)
    ensures SumMinutes(acts + [a]) == SumMinutes(acts) + ActivityMinutes(a.activity)
  {
    if acts == [] {
      assert acts + [a] == [a];
      assert SumMinutes([a]) == ActivityMinutes(a.activity) + SumMinutes([a][1..]);
    } else {
      assert (acts + [a])[1..] == acts[1..] + [a];
      SumMinutesAppend(acts[1..], a);
    }
  }

  /** A new activity adds its minutes to today's total exactly when stamped today. */
  lemma MindfulMinutesAppend(acts: seq<WellnessActivity>, a: WellnessActivity, now: Instant, local: Instant -> DateParts)
    ensures MindfulMinutes(acts + [a], now, local)
            == MindfulMinutes(acts, now, local) + (if IsToday(a.timestamp, now, local) then ActivityMinutes(a.activity) else 0)
  {
    var t := TodaysActivities(acts, now, local);
    TodaysAppend(acts, a, now, local);
    if IsToday(a.timestamp, now, local) {
      assert TodaysActivities(acts + [a], now, local) == t + [a];
      SumMinutesAppend(t, a);
    } else {
      assert TodaysActivities(acts + [a], now, local) == t + [] == t;
    }
  }

  /** Activities that do not mention meditation add nothing; a generic
      meditation adds five. */
  lemma ActivityMinutesCases(text: string)
    ensures !JsString.Contains(JsString.ToLower(text), "meditation") ==> ActivityMinutes(text) == 0
    ensures (JsString.Contains(JsString.ToLower(text), "meditation")
             && forall i :: 0 <= i < |text| ==> !TagAt(text, i))
            ==> ActivityMinutes(text) == 5
  {
    MinuteFromMeaning(text, 0);
  }

  // ---------------------------------------------------------------- rewards

  /** The points of the eight rewards, in display order. */
  const RewardPoints: seq<int> := [10, 50, 100, 150, 200, 300, 500, 750]

  function Unlocked(points: int, k: nat): bool
    requires k < |RewardPoints|
  {
    points >= RewardPoints[k]
  }

  /** The thresholds strictly increase, so an unlocked reward unlocks every
      earlier one, and more points never lock one. */
  lemma UnlockedPrefix(points: int, i: nat, j: nat)
    requires i <= j < |RewardPoints|
    ensures RewardPoints[i] <= RewardPoints[j]
    ensures Unlocked(points, j) ==> Unlocked(points, i)
  {
  }

  lemma UnlockedMonotone(p: int, q: int, k: nat)
    requires p <= q && k < |RewardPoints|
    ensures Unlocked(p, k) ==> Unlocked(q, k)
  {
  }

  // ---------------------------------------------------------------- the component

  function ChallengeActivity(challenge: string): string
  {
    ChallengePrefix + ": " + JsString.Substring(challenge, 0, 50) + "..."
  }

  /** The three localStorage keys of the challenge card. They outlive a
      mounted card: a card mounted later reads what an earlier one wrote. */
  class ChallengeStorage {
    var dailyChallenge: Option<string>
    var challengeDate: Option<string>
    var challengeCompleted: Option<string>

    constructor (challenge: Option<string>, date: Option<string>, completed: Option<string>)
      ensures dailyChallenge == challenge && challengeDate == date && challengeCompleted == completed
    {
      dailyChallenge, challengeDate, challengeCompleted := challenge, date, completed;
    }

    /** `storedChallenge && storedDate === today`: a non-empty challenge stored under today's date. */
    predicate HoldsToday(today: string)
      reads this
    {
      dailyChallenge.Some? && dailyChallenge.value != [] && challengeDate == Some(today)
    }
  }

  class Panel {
    const store: StressData.StressStore
    const storage: ChallengeStorage
    var challenge: string
    var isLoading: bool
    var isCompleted: bool
    var stepsToAdd: string

    constructor (store: StressData.StressStore, storage: ChallengeStorage)
      ensures this.store == store && this.storage == storage
      ensures challenge == [] && isLoading && !isCompleted && stepsToAdd == []
    {
      this.store := store;
      this.storage := storage;
      challenge := [];
      isLoading := true;
      isCompleted := false;
      stepsToAdd := [];
    }

    /** The fetch effect: today's stored challenge, completed when stored as
        completed, and storage untouched; otherwise `generated`, not
        completed, and stored as today's challenge, not completed. */
    method LoadChallenge(today: string, generated: string)
      modifies this, storage
      ensures !isLoading && stepsToAdd == old(stepsToAdd)
      ensures old(storage.HoldsToday(today)) ==>
                challenge == old(storage.dailyChallenge.value)
                && isCompleted == (old(isCompleted) || storage.challengeCompleted == Some("true"))
                && unchanged(storage)
      ensures !old(storage.HoldsToday(today)) ==>
                challenge == generated && !isCompleted
                && storage.dailyChallenge == Some(generated) && storage.challengeDate == Some(today)
                && storage.challengeCompleted == Some("false")
    {
      if storage.HoldsToday(today) {
        challenge := storage.dailyChallenge.value;
        if storage.challengeCompleted == Some("true") {
          isCompleted := true;
        }
      } else {
        challenge := generated;
        storage.dailyChallenge := Some(generated);
        storage.challengeDate := Some(today);
        storage.challengeCompleted := Some("false");
        isCompleted := false;
      }
      isLoading := false;
    }

    /** handleCompleteChallenge: once per challenge, each completion is one
        more challenge today, and the stored flag says completed. */
    method CompleteChallenge(id: string, now: Instant, local: Instant -> DateParts)
      modifies this`isCompleted, store`wellnessActivities, storage`challengeCompleted
      ensures isCompleted
      ensures old(isCompleted) ==>
                store.wellnessActivities == old(store.wellnessActivities)
                && storage.challengeCompleted == old(storage.challengeCompleted)
      ensures !old(isCompleted) ==>
                store.wellnessActivities == old(store.wellnessActivities)
                                            + [WellnessActivity(id, ChallengeActivity(challenge), StressData.ActivityPoints, now)]
                && storage.challengeCompleted == Some("true")
      ensures !old(isCompleted) ==>
                ChallengesCompleted(store.wellnessActivities, now, local)
                == ChallengesCompleted(old(store.wellnessActivities), now, local) + 1
    {
      if isCompleted {
        return;
      }
      var a := WellnessActivity(id, ChallengeActivity(challenge), StressData.ActivityPoints, now);
      TodaysAppend(store.wellnessActivities, a, now, local);
      ChallengesAppend(TodaysActivities(store.wellnessActivities, now, local), a);
      assert JsString.StartsWith(a.activity, ChallengePrefix) by {
        assert a.activity[..|ChallengePrefix|] == ChallengePrefix;
      }
      store.AddWellnessActivity(ChallengeActivity(challenge), id, now);
      isCompleted := true;
      storage.challengeCompleted := Some("true");
    }

    /** handleCompleteChallenge with the button also disabled while the
        challenge loads: a click before the load changes nothing. */
    method CompleteChallengeWhenLoaded(id: string, now: Instant, local: Instant -> DateParts)
      modifies this`isCompleted, store`wellnessActivities, storage`challengeCompleted
      ensures isCompleted == (old(isCompleted) || !isLoading)
      ensures old(isCompleted) || isLoading ==>
                store.wellnessActivities == old(store.wellnessActivities)
                && storage.challengeCompleted == old(storage.challengeCompleted)
      ensures !old(isCompleted) && !isLoading ==>
                store.wellnessActivities == old(store.wellnessActivities)
                                            + [WellnessActivity(id, ChallengeActivity(challenge), StressData.ActivityPoints, now)]
                && storage.challengeCompleted == Some("true")
                && ChallengesCompleted(store.wellnessActivities, now, local)
                   == ChallengesCompleted(old(store.wellnessActivities), now, local) + 1
    {
      if isLoading {
        return;
      }
      CompleteChallenge(id, now, local);
    }

    method SetStepsToAdd(text: string)
      modifies this`stepsToAdd
      ensures stepsToAdd == text
    {
      stepsToAdd := text;
    }

    /** handleLogSteps: a positive whole number logs its steps and one
        activity and clears the box; anything else changes nothing. */
    method LogSteps(stepId: string, activityId: string, now: Instant, local: Instant -> DateParts)
      modifies this`stepsToAdd, store`stepLogs, store`wellnessActivities
      ensures var p := JsString.ParseInt(old(stepsToAdd));
              if p.Some? && p.value > 0 then
                store.stepLogs == old(store.stepLogs) + [StepLog(stepId, p.value, now)]
                && store.wellnessActivities == old(store.wellnessActivities)
                   + [WellnessActivity(activityId, "Logged " + JsString.NatToString(p.value) + " steps", StressData.ActivityPoints, now)]
                && stepsToAdd == []
                && DailySteps(store.stepLogs, now, local) == DailySteps(old(store.stepLogs), now, local) + p.value
              else
                store.stepLogs == old(store.stepLogs) && store.wellnessActivities == old(store.wellnessActivities)
                && stepsToAdd == old(stepsToAdd)
    {
      var steps := JsString.ParseInt(stepsToAdd);
      if steps.Some? && steps.value > 0 {
        DailyStepsAppend(store.stepLogs, StepLog(stepId, steps.value, now), now, local);
        store.AddStepLog(steps.value, stepId, now);
        store.AddWellnessActivity("Logged " + JsString.NatToString(steps.value) + " steps", activityId, now);
        stepsToAdd := [];
      }
    }
  }

  /** A same-day reload after a completion: a second card on the same
      storage shows the first card's challenge, already completed. */
  method ReloadAfterCompletion(store: StressData.StressStore, storage: ChallengeStorage, today: string,
                               first: string, second: string, id: string, now: Instant, local: Instant -> DateParts)
    returns (before: Panel, after: Panel)
    requires first != []
    modifies store`wellnessActivities, storage
    ensures after.challenge == before.challenge && after.isCompleted && !after.isLoading
    ensures storage.HoldsToday(today) && storage.challengeCompleted == Some("true")
  {
    before := new Panel(store, storage);
    before.LoadChallenge(today, first);
    assert storage.HoldsToday(today) && storage.dailyChallenge.value == before.challenge;
    assert before.isCompleted ==> storage.challengeCompleted == Some("true");
    before.CompleteChallenge(id, now, local);
    after := new Panel(store, storage);
    after.LoadChallenge(today, second);
  }

  /** The button is enabled while the challenge loads (line 169 disables it
      only when completed): a click then, the load that resets the flag, and
      a second click log two completions on one day. */
  method ClickWhileLoading(store: StressData.StressStore, storage: ChallengeStorage, today: string,
                           generated: string, id1: string, id2: string, now: Instant, local: Instant -> DateParts)
    returns (p: Panel)
    requires !storage.HoldsToday(today)
    modifies store`wellnessActivities, storage
    ensures ChallengesCompleted(store.wellnessActivities, now, local)
            == ChallengesCompleted(old(store.wellnessActivities), now, local) + 2
  {
    p := new Panel(store, storage);
    p.CompleteChallenge(id1, now, local);
    p.LoadChallenge(today, generated);
    p.CompleteChallenge(id2, now, local);
  }

  /** The same clicks with the button waiting for the load: one completion. */
  method ClickWhileLoadingGuarded(store: StressData.StressStore, storage: ChallengeStorage, today: string,
                                  generated: string, id1: string, id2: string, now: Instant, local: Instant -> DateParts)
    returns (p: Panel)
    requires !storage.HoldsToday(today)
    modifies store`wellnessActivities, storage
    ensures ChallengesCompleted(store.wellnessActivities, now, local)
            == ChallengesCompleted(old(store.wellnessActivities), now, local) + 1
    ensures p.isCompleted && storage.challengeCompleted == Some("true")
  {
    p := new Panel(store, storage);
    p.CompleteChallengeWhenLoaded(id1, now, local);
    p.LoadChallenge(today, generated);
    p.CompleteChallengeWhenLoaded(id2, now, local);
  }
}
