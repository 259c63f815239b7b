// components/BurnoutPredictorPage.tsx — the burnout predictor: a form whose
// answer comes back as a risk percentage and contributing factors.
module BurnoutPredictor {
  import opened Wrappers
  import StableSort

  datatype Factor = Factor(name: string, contribution: real)

  /** What the prediction service answers: a risk of -1 reports a failure,
      and the factor list may be missing. */
  datatype Response = Response(riskPercentage: real, factors: Option<seq<Factor>>)

  /** A result the page shows. */
  datatype Prediction = Prediction(riskPercentage: real, factors: seq<Factor>)

  datatype View = Form | ResultView

  datatype Field = WorkHours | PatientsSeen | HeartRate | SleepHours
  datatype FormData = FormData(workHours: real, patientsSeen: real, heartRate: real, sleepHours: real)

  const DefaultForm := FormData(8.0, 15.0, 80.0, 7.0)

  /** The four factors shown, at 25 each, when the answer's are unusable. */
  const FallbackFactors: seq<Factor> := [
    Factor("High Workload", 25.0), Factor("Patient Load", 25.0),
    Factor("Physiological Strain", 25.0), Factor("Poor Recovery", 25.0)]

  function TotalContribution(fs: seq<Factor>): real
  {
    if fs == [] then 0.0 else fs[0].contribution + TotalContribution(fs[1..])
  }

  lemma FallbackSumsTo100()
    ensures |FallbackFactors| == 4 && TotalContribution(FallbackFactors) == 100.0
    ensures forall k :: 0 <= k < 4 ==> FallbackFactors[k].contribution == 25.0
  {
    assert FallbackFactors[1..] == [Factor("Patient Load", 25.0), Factor("Physiological Strain", 25.0), Factor("Poor Recovery", 25.0)];
    assert FallbackFactors[1..][1..] == [Factor("Physiological Strain", 25.0), Factor("Poor Recovery", 25.0)];
    assert FallbackFactors[1..][1..][1..] == [Factor("Poor Recovery", 25.0)];
  }

  /** The page's check on the factors: present, and every name non-empty. */
  predicate Usable(factors: Option<seq<Factor>>)
  {
    factors.Some? && forall k :: 0 <= k < |factors.value| ==> factors.value[k].name != []
  }

  /** The result shown for an answer that is not an error. */
  function Shown(r: Response): (p: Prediction)
    ensures p.riskPercentage == r.riskPercentage
    ensures Usable(r.factors) ==> p.factors == r.factors.value
    ensures !Usable(r.factors) ==> p.factors == FallbackFactors
  {
    Prediction(r.riskPercentage, if Usable(r.factors) then r.factors.value else FallbackFactors)
  }

  /** Every factor has a name, so a usable answer of no factors passes. */
  lemma EmptyFactorsUsable()
    ensures Usable(Some([]))
  {
  }

  /** The corrected check: present, non-empty and named. */
  predicate UsableCorrected(factors: Option<seq<Factor>>)
  {
    Usable(factors) && factors.value != []
  }

  function ShownCorrected(r: Response): (p: Prediction)
    ensures p.factors != []
    ensures p.riskPercentage == r.riskPercentage
    ensures UsableCorrected(r.factors) ==> p.factors == r.factors.value
    ensures !UsableCorrected(r.factors) ==> p.factors == FallbackFactors
  {
    Prediction(r.riskPercentage, if UsableCorrected(r.factors) then r.factors.value else FallbackFactors)
  }

  // ---------------------------------------------------------------- the result view

  function Contribution(f: Factor): real { f.contribution }

  /** `sortedFactors`: the bar chart order. */
  function SortedFactors(fs: seq<Factor>): seq<Factor>
  {
    StableSort.Sort(fs, Contribution)
  }

  /** The bars are the factors, each once, in ascending contribution. */
  lemma SortedFactorsAscending(fs: seq<Factor>)
    ensures multiset(SortedFactors(fs)) == multiset(fs)
    ensures forall i, j :: 0 <= i < j < |SortedFactors(fs)| ==>
              SortedFactors(fs)[i].contribution <= SortedFactors(fs)[j].contribution
  {
    StableSort.SortPermutes(fs, Contribution);
    StableSort.SortSorted(fs, Contribution);
    var r := SortedFactors(fs);
    forall i, j | 0 <= i < j < |r| ensures r[i].contribution <= r[j].contribution {
      assert Contribution(r[i]) <= Contribution(r[j]);
    }
  }

  /** The reduce step: the accumulator is replaced only on a strictly larger
      contribution. */
  function Reduce(max: Factor, rest: seq<Factor>): Factor
    decreases |rest|
  {
    if rest == [] then max
    else Reduce(if rest[0].contribution > max.contribution then rest[0] else max, rest[1..])
  }

  /** `topFactor`: the reduce seeded with `factors[0]`. For no factors the
      seed is `undefined`, and reading its name throws; None stands for that. */
  function TopFactor(fs: seq<Factor>): Option<Factor>
  {
    if fs == [] then None else Some(Reduce(fs[0], fs))
  }

  /** The reduce ends on the first greatest of the seed and the rest: either
      the seed, when nothing beats it, or the earliest element of the greatest
      contribution. */
  lemma {:induction false} ReduceFirstMax(max: Factor, rest: seq<Factor>)
    ensures var m := Reduce(max, rest);
            max.contribution <= m.contribution
            && (forall j :: 0 <= j < |rest| ==> rest[j].contribution <= m.contribution)
            && (m == max ||
                exists i :: 0 <= i < |rest| && m == rest[i] && max.contribution < m.contribution
                            && forall j :: 0 <= j < i ==> rest[j].contribution < m.contribution)
    decreases |rest|
  {
    if rest != [] {
      var next := if rest[0].contribution > max.contribution then rest[0] else max;
      ReduceFirstMax(next, rest[1..]);
      var m := Reduce(max, rest);
      assert m == Reduce(next, rest[1..]);
      forall j | 0 <= j < |rest| ensures rest[j].contribution <= m.contribution {
        if j > 0 { assert rest[j] == rest[1..][j - 1]; }
      }
      if m != next {
        var i :| 0 <= i < |rest[1..]| && m == rest[1..][i] && next.contribution < m.contribution
                 && forall j :: 0 <= j < i ==> rest[1..][j].contribution < m.contribution;
        assert m == rest[i + 1];
        forall j | 0 <= j < i + 1 ensures rest[j].contribution < m.contribution {
          if j > 0 { assert rest[j] == rest[1..][j - 1]; }
        }
      } else if next != max {
        assert m == rest[0];
      }
    }
  }

  /** For a non-empty list, the top factor is the earliest one of maximal
      contribution. */
  lemma TopFactorIsEarliestMax(fs: seq<Factor>)
    requires fs != []
    ensures TopFactor(fs).Some?
    ensures exists i :: 0 <= i < |fs| && TopFactor(fs).value == fs[i]
                        && (forall j :: 0 <= j < |fs| ==> fs[j].contribution <= fs[i].contribution)
                        && (forall j :: 0 <= j < i ==> fs[j].contribution < fs[i].contribution)
  {
    ReduceFirstMax(fs[0], fs);
    var m := Reduce(fs[0], fs);
    if m == fs[0] {
      assert 0 <= 0 < |fs| && m == fs[0];
    } else {
      var i :| 0 <= i < |fs| && m == fs[i] && fs[0].contribution < m.contribution
               && forall j :: 0 <= j < i ==> fs[j].contribution < m.contribution;
    }
  }

  datatype RiskColor = Red | Amber | Emerald

  /** `riskColor`. */
  function ColorOf(risk: real): RiskColor
  {
    if risk > 70.0 then Red else if risk > 35.0 then Amber else Emerald
  }

  lemma ColorBands(risk: real)
    ensures ColorOf(risk) == Red <==> risk > 70.0
    ensures ColorOf(risk) == Amber <==> 35.0 < risk <= 70.0
    ensures ColorOf(risk) == Emerald <==> risk <= 35.0
  {
  }

  // ---------------------------------------------------------------- the page

  class Page {
    var view: View
    var isLoading: bool
    var result: Option<Prediction>
    var error: Option<string>
    var formData: FormData

    /** The result view shows a result whose top factor exists. */
    predicate RendersSafely()
      reads this
    {
      view == ResultView && result.Some? ==> TopFactor(result.value.factors).Some?
    }

    constructor ()
      ensures view == Form && !isLoading && result == None && error == None && formData == DefaultForm
      ensures RendersSafely()
    {
      view := Form;
      isLoading := false;
      result := None;
      error := None;
      formData := DefaultForm;
    }

    /** handleInputChange: one slider's value. */
    method InputChange(field: Field, value: real)
      modifies this
      ensures formData == match field
                          case WorkHours => old(formData).(workHours := value)
                          case PatientsSeen => old(formData).(patientsSeen := value)
                          case HeartRate => old(formData).(heartRate := value)
                          case SleepHours => old(formData).(sleepHours := value)
      ensures view == old(view) && result == old(result) && error == old(error) && isLoading == old(isLoading)
    {
      match field
      case WorkHours => formData := formData.(workHours := value);
      case PatientsSeen => formData := formData.(patientsSeen := value);
      case HeartRate => formData := formData.(heartRate := value);
      case SleepHours => formData := formData.(sleepHours := value);
    }

    /** handleSubmit, with `response` the service's answer to the form. */
    method Submit(response: Response, errorText: string)
      modifies this
      ensures !isLoading && formData == old(formData)
      ensures response.riskPercentage == -1.0 ==>
                error == Some(errorText) && result == None && view == old(view)
      ensures response.riskPercentage != -1.0 ==>
                error == None && result == Some(Shown(response)) && view == ResultView
    {
      isLoading := true;
      result := None;
      error := None;
      if response.riskPercentage == -1.0 {
        error := Some(errorText);
      } else {
        result := Some(Shown(response));
        view := ResultView;
      }
      isLoading := false;
    }

    /** handleSubmit with the corrected check: the result view is always safe
        to draw. */
    method SubmitCorrected(response: Response, errorText: string)
      requires RendersSafely()
      modifies this
      ensures RendersSafely()
      ensures !isLoading && formData == old(formData)
      ensures response.riskPercentage == -1.0 ==>
                error == Some(errorText) && result == None && view == old(view)
      ensures response.riskPercentage != -1.0 ==>
                error == None && result == Some(ShownCorrected(response)) && view == ResultView
    {
      isLoading := true;
      result := None;
      error := None;
      if response.riskPercentage == -1.0 {
        error := Some(errorText);
      } else {
        var p := ShownCorrected(response);
        result := Some(p);
        view := ResultView;
      }
      isLoading := false;
    }

    /** handleReset. */
    method Reset()
      modifies this
      ensures view == Form && result == None && error == None
      ensures isLoading == old(isLoading) && formData == old(formData)
      ensures RendersSafely()
    {
      view := Form;
      result := None;
      error := None;
    }
  }

  /** An answer with an empty factor list reaches the result view with no
      top factor: the page as written throws while drawing it. */
  method EmptyFactorsBreakRender(page: Page)
    modifies page
    ensures page.view == ResultView && page.result == Some(Prediction(50.0, []))
    ensures !page.RendersSafely()
  {
    page.Submit(Response(50.0, Some([])), "error");
  }
}
