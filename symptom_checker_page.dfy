/**
 * The state of the symptom-checker page: the ordered, duplicate-free list of
 * selected symptom names, the name-to-severity map fed by the sliders, and the
 * fields the submit step writes (error text, OPG advice and score, whether the
 * result is shown).
 */
module SymptomCheckerPage {
  import opened JsBuiltins
  import opened Toggle
  import opened SymptomsCatalogue
  import opened OpgScoring

  const DefaultSeverity: int := 5
  const NoSymptomError: string := "Please select at least one symptom"
  const AnalysisError: string := "Failed to analyze symptoms. Please try again."

  /** Slider positions run from 1 to 10. */
  predicate SliderValue(v: int) {
    1 <= v <= 10
  }

  /** Every stored severity is a slider position. */
  predicate SliderSeverities(severity: map<string, int>) {
    forall name :: name in severity ==> SliderValue(severity[name])
  }

  /** `!symptomSeverity[name]`: no severity stored, or a falsy one. */
  predicate NoStoredSeverity(severity: map<string, int>, name: string) {
    name !in severity || severity[name] == 0
  }

  /**
   * `symptomSeverity[name] || 5`: never the falsy 0; 5 when nothing truthy
   * is stored; a stored slider position is used as it is, so with slider
   * severities the result is one too.
   */
  function SeverityOf(severity: map<string, int>, name: string): (v: int)
    ensures v != 0
    ensures NoStoredSeverity(severity, name) ==> v == DefaultSeverity
    ensures name in severity && SliderValue(severity[name]) ==> v == severity[name]
    ensures SliderSeverities(severity) ==> SliderValue(v)
  {
    if NoStoredSeverity(severity, name) then DefaultSeverity else severity[name]
  }

  /**
   * How selecting or deselecting `name` changes the severity map: only
   * `name`'s entry can change, the severity submitted for `name` stays
   * the same, and slider severities stay slider severities.
   */
  function SeverityAfterToggle(selected: seq<string>, severity: map<string, int>, name: string): (r: map<string, int>)
    ensures forall n :: n != name ==> (n in r <==> n in severity)
    ensures forall n :: n != name && n in severity ==> r[n] == severity[n]
    ensures SeverityOf(r, name) == SeverityOf(severity, name)
    ensures SliderSeverities(severity) ==> SliderSeverities(r)
  {
    if NoStoredSeverity(severity, name) && name !in selected then severity[name := DefaultSeverity]
    else severity
  }

  /** `symptomsData`: the selected names in selection order, each with its stored severity or 5. */
  function SymptomsData(selected: seq<string>, severity: map<string, int>): (data: seq<SelectedSymptom>)
    ensures |data| == |selected|
    ensures forall i :: 0 <= i < |data| ==> data[i].name == selected[i]
    ensures forall i :: 0 <= i < |data| ==> data[i].severity == SeverityOf(severity, selected[i])
  {
    if selected == [] then []
    else SymptomsData(selected[..|selected| - 1], severity)
         + [SelectedSymptom(selected[|selected| - 1], SeverityOf(severity, selected[|selected| - 1]))]
  }

  /** The names of the submitted data. */
  function Names(data: seq<SelectedSymptom>): seq<string> {
    seq(|data|, i requires 0 <= i < |data| => data[i].name)
  }

  /**
   * When every stored severity is a slider value, the submitted data has
   * exactly the selected names, no name twice, and only slider severities, so
   * its OPG score lies in [0, 60] and never reaches the strong tier.
   */
  lemma SubmittedDataWellFormed(selected: seq<string>, severity: map<string, int>)
    requires NoDup(selected)
    requires SliderSeverities(severity)
    ensures Names(SymptomsData(selected, severity)) == selected
    ensures NoDup(Names(SymptomsData(selected, severity)))
    ensures SeveritiesWithin(SymptomsData(selected, severity), 1, 10)
    ensures Recommend(SymptomsList, SymptomsData(selected, severity)).advice != StrongAdvice
    ensures 0 <= Recommend(SymptomsList, SymptomsData(selected, severity)).score <= 60
  {
    var data := SymptomsData(selected, severity);
    assert Names(data) == selected;
    StrongTierUnreachable(data);
  }

  /**
   * Deselecting a name keeps its stored severity, so selecting it again
   * submits the same severity as before.
   */
  lemma ReselectRestoresSeverity(selected: seq<string>, severity: map<string, int>, name: string)
    requires name in selected
    ensures SeverityAfterToggle(selected, severity, name) == severity
    ensures var deselected := Toggled(selected, name);
            var severity' := SeverityAfterToggle(deselected, severity, name);
            && name in Toggled(deselected, name)
            && SeverityOf(severity', name) == SeverityOf(severity, name)
            && (!NoStoredSeverity(severity, name) ==> severity' == severity)
  {
  }

  /** Selecting a name with no stored severity stores 5, and only for that name. */
  lemma FirstSelectionStoresDefault(selected: seq<string>, severity: map<string, int>, name: string)
    requires name !in selected && name !in severity
    ensures SeverityAfterToggle(selected, severity, name) == severity[name := DefaultSeverity]
    ensures SeverityOf(SeverityAfterToggle(selected, severity, name), name) == DefaultSeverity
  {
  }

  class SymptomChecker {
    var selectedSymptoms: seq<string>
    var symptomSeverity: map<string, int>
    var error: string
    var opgAdvice: string
    var opgScore: int
    var showResult: bool

    /** No name is selected twice. */
    ghost predicate Valid()
      reads this
    {
      NoDup(selectedSymptoms)
    }

    constructor ()
      ensures Valid()
      ensures selectedSymptoms == [] && symptomSeverity == map[]
      ensures error == "" && opgAdvice == "" && opgScore == 0 && !showResult
    {
      selectedSymptoms := [];
      symptomSeverity := map[];
      error := "";
      opgAdvice := "";
      opgScore := 0;
      showResult := false;
    }

    /** `handleChange`: toggle `symptom`; a first selection without a stored severity stores 5. */
    method HandleChange(symptom: string)
      requires Valid()
      modifies this`selectedSymptoms, this`symptomSeverity
      ensures Valid()
      ensures SliderSeverities(old(symptomSeverity)) ==> SliderSeverities(symptomSeverity)
      ensures selectedSymptoms == Toggled(old(selectedSymptoms), symptom)
      ensures symptomSeverity == SeverityAfterToggle(old(selectedSymptoms), old(symptomSeverity), symptom)
    {
      var newSelection := Toggled(selectedSymptoms, symptom);
      if NoStoredSeverity(symptomSeverity, symptom) && symptom !in selectedSymptoms {
        symptomSeverity := symptomSeverity[symptom := DefaultSeverity];
      }
      selectedSymptoms := newSelection;
    }

    /**
     * `handleSliderChange`: store the value for `symptom`, leaving every other
     * entry alone; a value from the 1..10 slider keeps all stored severities
     * slider positions.
     */
    method HandleSliderChange(symptom: string, value: int)
      requires Valid()
      modifies this`symptomSeverity
      ensures Valid()
      ensures SliderValue(value) && SliderSeverities(old(symptomSeverity)) ==> SliderSeverities(symptomSeverity)
      ensures symptomSeverity == old(symptomSeverity)[symptom := value]
      ensures forall name :: name != symptom && name in old(symptomSeverity) ==>
                name in symptomSeverity && symptomSeverity[name] == old(symptomSeverity)[name]
    {
      symptomSeverity := symptomSeverity[symptom := value];
    }

    /**
     * `handleSubmit`, with the prediction request's outcome as `predictionOk`.
     * An empty selection sets the error and sends nothing. Otherwise the
     * symptom data is sent; only when the prediction succeeds is the OPG
     * recommendation computed and shown, and a failure sets the retry error.
     */
    method HandleSubmit(predictionOk: bool) returns (request: Option<seq<SelectedSymptom>>)
      requires Valid()
      modifies this`error, this`opgAdvice, this`opgScore, this`showResult
      ensures Valid()
      ensures old(selectedSymptoms) == [] ==>
                && request == None
                && error == NoSymptomError
                && opgAdvice == old(opgAdvice) && opgScore == old(opgScore) && showResult == old(showResult)
      ensures old(selectedSymptoms) != [] ==>
                request == Some(SymptomsData(selectedSymptoms, symptomSeverity))
      ensures old(selectedSymptoms) != [] && predictionOk ==>
                && error == ""
                && opgAdvice == Recommend(SymptomsList, SymptomsData(selectedSymptoms, symptomSeverity)).advice
                && opgScore == Recommend(SymptomsList, SymptomsData(selectedSymptoms, symptomSeverity)).score
                && showResult
      ensures old(selectedSymptoms) != [] && predictionOk && SliderSeverities(symptomSeverity) ==>
                0 <= opgScore <= 60 && opgAdvice != StrongAdvice
      ensures old(selectedSymptoms) != [] && !predictionOk ==>
                && error == AnalysisError
                && opgAdvice == old(opgAdvice) && opgScore == old(opgScore) && showResult == old(showResult)
    {
      if |selectedSymptoms| == 0 {
        error := NoSymptomError;
        return None;
      }
      error := "";
      var symptomsData := SymptomsData(selectedSymptoms, symptomSeverity);
      request := Some(symptomsData);
      if !predictionOk {
        error := AnalysisError;
        return;
      }
      var opgResult := CalculateOPGRecommendation(SymptomsList, symptomsData);
      if SliderSeverities(symptomSeverity) {
        SubmittedDataWellFormed(selectedSymptoms, symptomSeverity);
      }
      opgAdvice := opgResult.advice;
      opgScore := opgResult.score;
      showResult := true;
    }
  }
}
