// components/tools/EmotionWheel.tsx — a five-step journal entry: primary
// emotion, secondary emotion, intensity, notes, then the logged entry.
module EmotionWheel {
  import opened Wrappers
  import opened Records
  import JsString
  import StressData

  datatype Step = Primary | Secondary | Intensity | Notes | Complete

  /** Where a step stands in the sequence. */
  function Rank(s: Step): nat
  {
    match s
    case Primary => 0
    case Secondary => 1
    case Intensity => 2
    case Notes => 3
    case Complete => 4
  }

  /** A primary emotion: its English key and its translated secondary labels. */
  datatype Info = Info(key: string, secondary: seq<string>)

  const PrimaryKeys: seq<string> := ["joy", "sadness", "anger", "fear", "surprise", "disgust"]
  const SecondaryCounts: seq<nat> := [5, 5, 5, 5, 4, 4]

  /** The translation key of the k-th primary label. */
  function LabelKey(k: nat): string
    requires k < |PrimaryKeys|
  {
    "emotion_" + PrimaryKeys[k]
  }

  function SecondaryLabels(t: string -> string, k: nat): (r: seq<string>)
    requires k < |PrimaryKeys|
    ensures |r| == SecondaryCounts[k]
  {
    seq(SecondaryCounts[k], i requires 0 <= i < SecondaryCounts[k] =>
          t("emotion_" + PrimaryKeys[k] + "_secondary_" + JsString.NatToString(i + 1)))
  }

  /** `emotionData` over the first n emotions: an object keyed by translated
      label, so a later entry replaces an earlier one of the same label. */
  function EmotionData(t: string -> string, n: nat): (d: map<string, Info>)
    requires n <= |PrimaryKeys|
    ensures d.Keys == set k | 0 <= k < n :: t(LabelKey(k))
  {
    if n == 0 then map[]
    else EmotionData(t, n - 1)[t(LabelKey(n - 1)) := Info(PrimaryKeys[n - 1], SecondaryLabels(t, n - 1))]
  }

  /** The labels of the language in use are distinct. */
  predicate DistinctLabels(t: string -> string)
  {
    forall i, j :: 0 <= i < j < |PrimaryKeys| ==> t(LabelKey(i)) != t(LabelKey(j))
  }

  lemma {:induction false} EmotionDataAt(t: string -> string, n: nat, k: nat)
    requires DistinctLabels(t) && k < n <= |PrimaryKeys|
    ensures EmotionData(t, n)[t(LabelKey(k))] == Info(PrimaryKeys[k], SecondaryLabels(t, k))
  {
    if k < n - 1 {
      EmotionDataAt(t, n - 1, k);
    }
  }

  /** `emotionData[primaryEmotion]?.key || primaryEmotion`. */
  function PrimaryKey(data: map<string, Info>, name: string): string
  {
    if name in data && data[name].key != [] then data[name].key else name
  }

  /** A known label is logged by its English key, anything else as itself. */
  lemma PrimaryKeyMeaning(t: string -> string, name: string)
    requires DistinctLabels(t)
    ensures forall k :: 0 <= k < |PrimaryKeys| && name == t(LabelKey(k)) ==>
              PrimaryKey(EmotionData(t, |PrimaryKeys|), name) == PrimaryKeys[k]
    ensures (forall k :: 0 <= k < |PrimaryKeys| ==> name != t(LabelKey(k))) ==>
              PrimaryKey(EmotionData(t, |PrimaryKeys|), name) == name
  {
    forall k | 0 <= k < |PrimaryKeys| && name == t(LabelKey(k))
      ensures PrimaryKey(EmotionData(t, |PrimaryKeys|), name) == PrimaryKeys[k]
    {
      EmotionDataAt(t, |PrimaryKeys|, k);
    }
  }

  class Wheel {
    const store: StressData.StressStore
    const data: map<string, Info>
    var step: Step
    var primaryEmotion: string
    var secondaryEmotion: string
    var intensity: int
    var notes: string

    /** The first screen: nothing chosen, intensity 5. */
    predicate Fresh()
      reads this
    {
      step == Primary && primaryEmotion == [] && secondaryEmotion == [] && intensity == 5 && notes == []
    }

    constructor (store: StressData.StressStore, t: string -> string)
      ensures this.store == store && data == EmotionData(t, |PrimaryKeys|)
      ensures Fresh()
    {
      this.store := store;
      data := EmotionData(t, |PrimaryKeys|);
      step := Primary;
      primaryEmotion := [];
      secondaryEmotion := [];
      intensity := 5;
      notes := [];
    }

    /** handlePrimarySelect, from the primary buttons. */
    method PrimarySelect(emotion: string)
      requires step == Primary
      modifies this`primaryEmotion, this`step
      ensures primaryEmotion == emotion && step == Secondary && Rank(step) == Rank(old(step)) + 1
    {
      primaryEmotion := emotion;
      step := Secondary;
    }

    /** The secondary buttons offered: that emotion's list, or none. */
    function SecondaryChoices(): seq<string>
      reads this
    {
      if primaryEmotion in data then data[primaryEmotion].secondary else []
    }

    /** handleSecondarySelect, from the secondary buttons. */
    method SecondarySelect(emotion: string)
      requires step == Secondary
      modifies this`secondaryEmotion, this`step
      ensures secondaryEmotion == emotion && step == Intensity && Rank(step) == Rank(old(step)) + 1
    {
      secondaryEmotion := emotion;
      step := Intensity;
    }

    /** The 1-10 slider. */
    method SetIntensity(value: int)
      requires step == Intensity && 1 <= value <= 10
      modifies this`intensity
      ensures intensity == value
    {
      intensity := value;
    }

    method Continue()
      requires step == Intensity
      modifies this`step
      ensures step == Notes && Rank(step) == Rank(old(step)) + 1
    {
      step := Notes;
    }

    method SetNotes(text: string)
      requires step == Notes
      modifies this`notes
      ensures notes == text
    {
      notes := text;
    }

    /** handleLogEmotion: the only step that writes the journal, and it adds
        exactly one entry. */
    method LogEmotion(id: string, now: Instant)
      requires step == Notes
      modifies this`step, store`emotionJournal
      ensures step == Complete && Rank(step) == Rank(old(step)) + 1
      ensures store.emotionJournal == old(store.emotionJournal) + [EmotionJournalEntry(
                id, now, PrimaryKey(data, primaryEmotion), secondaryEmotion, intensity, Some(notes))]
    {
      store.AddEmotionJournalEntry(PrimaryKey(data, primaryEmotion), secondaryEmotion, intensity, Some(notes), id, now);
      step := Complete;
    }

    /** `reset`, from the completion screen. */
    method Reset()
      requires step == Complete
      modifies this`step, this`primaryEmotion, this`secondaryEmotion, this`intensity, this`notes
      ensures Fresh()
    {
      step := Primary;
      primaryEmotion := [];
      secondaryEmotion := [];
      intensity := 5;
      notes := [];
    }

    /** The back button: on the first step it leaves the tool; on any other it
        starts over without clearing what was chosen. */
    method Back() returns (leave: bool)
      modifies this`step
      ensures leave == (old(step) == Primary)
      ensures step == Primary
    {
      leave := step == Primary;
      step := Primary;
    }
  }
}
