/**
 * The older rule-based symptom checker: a toggle list of selected names and a
 * first-match chain over four pairs of symptoms that picks one suggestion.
 */
module RuleChecker {
  import opened Toggle

  const GingivitisSuggestion: string :=
    "🪥 Likely Gingivitis – Consider professional cleaning and improving oral hygiene."
  const PeriodontitisSuggestion: string :=
    "⚠️ Possible Periodontitis – Seek dental care immediately to avoid bone loss."
  const CariesSuggestion: string :=
    "🦷 You may have Dental Caries (Cavities). A filling might be required."
  const FractureSuggestion: string :=
    "⚠️ Potential Tooth Fracture – You should see a dentist urgently."
  const EmptySuggestion: string := "⚠️ Please select at least one symptom."
  const ConsultSuggestion: string := "🩺 These symptoms need expert evaluation. Please consult a dentist."

  /** Both symptoms of a rule's pair are selected. */
  predicate HasPair(selected: seq<string>, first: string, second: string) {
    first in selected && second in selected
  }

  predicate GingivitisPair(selected: seq<string>) {
    HasPair(selected, "Bleeding gums", "Swollen or red gums")
  }

  predicate PeriodontitisPair(selected: seq<string>) {
    HasPair(selected, "Loose teeth", "Pus or swelling near tooth")
  }

  predicate CariesPair(selected: seq<string>) {
    HasPair(selected, "Tooth pain or sensitivity", "Visible holes or pits in teeth")
  }

  predicate FracturePair(selected: seq<string>) {
    HasPair(selected, "Cracked or chipped tooth", "Pain when chewing")
  }

  /** `generateReport`'s chain: the first rule whose pair is selected wins. */
  function Suggestion(selected: seq<string>): string {
    if GingivitisPair(selected) then GingivitisSuggestion
    else if PeriodontitisPair(selected) then PeriodontitisSuggestion
    else if CariesPair(selected) then CariesSuggestion
    else if FracturePair(selected) then FractureSuggestion
    else if |selected| == 0 then EmptySuggestion
    else ConsultSuggestion
  }

  /** The six suggestions are pairwise different texts (their lengths already differ). */
  lemma SuggestionsDistinct()
    ensures GingivitisSuggestion != PeriodontitisSuggestion && GingivitisSuggestion != CariesSuggestion
    ensures GingivitisSuggestion != FractureSuggestion && GingivitisSuggestion != EmptySuggestion
    ensures GingivitisSuggestion != ConsultSuggestion
    ensures PeriodontitisSuggestion != CariesSuggestion && PeriodontitisSuggestion != FractureSuggestion
    ensures PeriodontitisSuggestion != EmptySuggestion && PeriodontitisSuggestion != ConsultSuggestion
    ensures CariesSuggestion != FractureSuggestion && CariesSuggestion != EmptySuggestion
    ensures CariesSuggestion != ConsultSuggestion
    ensures FractureSuggestion != EmptySuggestion && FractureSuggestion != ConsultSuggestion
    ensures EmptySuggestion != ConsultSuggestion
  {
    assert |GingivitisSuggestion| == 80 && |PeriodontitisSuggestion| == 76;
    assert |CariesSuggestion| == 69 && |FractureSuggestion| == 64;
    assert |EmptySuggestion| == 38 && |ConsultSuggestion| == 66;
  }

  /**
   * Each diagnosis is reported exactly when its pair is selected and no
   * earlier rule's pair is; the empty-selection message exactly for an empty
   * selection; the generic advice exactly for a non-empty selection that
   * matches no pair. So exactly one non-empty suggestion comes out.
   */
  lemma FirstMatchWins(selected: seq<string>)
    ensures Suggestion(selected) == GingivitisSuggestion <==> GingivitisPair(selected)
    ensures Suggestion(selected) == PeriodontitisSuggestion <==>
              !GingivitisPair(selected) && PeriodontitisPair(selected)
    ensures Suggestion(selected) == CariesSuggestion <==>
              !GingivitisPair(selected) && !PeriodontitisPair(selected) && CariesPair(selected)
    ensures Suggestion(selected) == FractureSuggestion <==>
              !GingivitisPair(selected) && !PeriodontitisPair(selected) && !CariesPair(selected)
              && FracturePair(selected)
    ensures Suggestion(selected) == EmptySuggestion <==> selected == []
    ensures Suggestion(selected) == ConsultSuggestion <==>
              selected != [] && !GingivitisPair(selected) && !PeriodontitisPair(selected)
              && !CariesPair(selected) && !FracturePair(selected)
    ensures Suggestion(selected) != ""
  {
    SuggestionsDistinct();
  }

  /** The suggestion depends only on which names are selected, not on their order or repetition. */
  lemma SuggestionIgnoresOrder(a: seq<string>, b: seq<string>)
    requires forall x :: x in a <==> x in b
    ensures Suggestion(a) == Suggestion(b)
  {
    if a != [] {
      assert a[0] in b;
    }
    if b != [] {
      assert b[0] in a;
    }
  }

  class SymptomChecker {
    var selected: seq<string>
    var report: string

    constructor ()
      ensures selected == [] && report == ""
    {
      selected := [];
      report := "";
    }

    /** `handleChange`: append an absent value, remove every copy of a present one. */
    method HandleChange(value: string)
      modifies this`selected
      ensures selected == Toggled(old(selected), value)
    {
      selected := Toggled(selected, value);
    }

    /** `generateReport`: store the suggestion for the current selection. */
    method GenerateReport()
      modifies this`report
      ensures report == Suggestion(selected)
      ensures report != ""
    {
      var suggestion := "";
      if HasPair(selected, "Bleeding gums", "Swollen or red gums") {
        suggestion := GingivitisSuggestion;
      } else if HasPair(selected, "Loose teeth", "Pus or swelling near tooth") {
        suggestion := PeriodontitisSuggestion;
      } else if HasPair(selected, "Tooth pain or sensitivity", "Visible holes or pits in teeth") {
        suggestion := CariesSuggestion;
      } else if HasPair(selected, "Cracked or chipped tooth", "Pain when chewing") {
        suggestion := FractureSuggestion;
      } else if |selected| == 0 {
        suggestion := EmptySuggestion;
      } else {
        suggestion := ConsultSuggestion;
      }
      report := suggestion;
    }
  }
}
