/**
 * The OPG (panoramic X-ray) recommendation: a weighted average of the selected
 * symptoms' contributions, classified into three tiers at 70 and 40 and
 * reported with its nearest-integer score.
 *
 * Each selection whose name is in the catalogue contributes
 * `weight * (severity / 5) * 20`; an unknown name contributes nothing but is
 * still counted when averaging.
 */
module OpgScoring {
  import opened JsBuiltins
  import opened SymptomsCatalogue

  /** One entry of the submitted symptom data. */
  datatype SelectedSymptom = SelectedSymptom(name: string, severity: int)

  /** What the scorer returns: advice text, whether an OPG is advised, and the rounded score. */
  datatype Recommendation = Recommendation(advice: string, needsOPG: bool, score: int)

  const StrongAdvice: string := "🦷 STRONGLY RECOMMEND OPG: High probability of significant findings"
  const ConsiderAdvice: string := "📸 Consider OPG: Moderate probability of clinical findings"
  const NotNecessaryAdvice: string := "✅ OPG not necessary: Low probability of significant findings"

  /** What one selection adds to the total. */
  function Contribution(catalog: seq<Symptom>, s: SelectedSymptom): real {
    match Find(catalog, s.name)
    case None => 0.0
    case Some(entry) => entry.weight * (s.severity as real / 5.0) * 20.0
  }

  /**
   * A catalogue entry contributes four times its weight times the severity;
   * an unknown name contributes nothing.
   */
  lemma ContributionFormula(catalog: seq<Symptom>, s: SelectedSymptom)
    ensures Find(catalog, s.name).None? ==> Contribution(catalog, s) == 0.0
    ensures Find(catalog, s.name).Some? ==>
              Contribution(catalog, s) == 4.0 * Find(catalog, s.name).value.weight * s.severity as real
  {
  }

  /** The total over the selections, accumulated from first to last. */
  function TotalScore(catalog: seq<Symptom>, sels: seq<SelectedSymptom>): real
    decreases |sels|
  {
    if sels == [] then 0.0
    else TotalScore(catalog, sels[..|sels| - 1]) + Contribution(catalog, sels[|sels| - 1])
  }

  /** The total divided by the number of ALL selections; 0 for no selection. */
  function AverageScore(catalog: seq<Symptom>, sels: seq<SelectedSymptom>): real {
    if |sels| > 0 then TotalScore(catalog, sels) / (|sels| as real) else 0.0
  }

  /** `Math.round`: the nearest integer, halves rounded up. */
  function Round(x: real): (r: int)
    ensures x - 0.5 < r as real <= x + 0.5
  {
    (x + 0.5).Floor
  }

  /** The three tiers on the unrounded average, first match wins. */
  function Classify(average: real): (r: Recommendation)
    ensures r.needsOPG <==> average >= 40.0
    ensures r.advice == StrongAdvice <==> average >= 70.0
    ensures r.advice == ConsiderAdvice <==> 40.0 <= average < 70.0
    ensures r.advice == NotNecessaryAdvice <==> average < 40.0
    ensures average - 0.5 < r.score as real <= average + 0.5
  {
    if average >= 70.0 then Recommendation(StrongAdvice, true, Round(average))
    else if average >= 40.0 then Recommendation(ConsiderAdvice, true, Round(average))
    else Recommendation(NotNecessaryAdvice, false, Round(average))
  }

  /** The recommendation for a list of selections, against a catalogue. */
  function Recommend(catalog: seq<Symptom>, sels: seq<SelectedSymptom>): Recommendation {
    Classify(AverageScore(catalog, sels))
  }

  /**
   * The scorer as the page runs it: a loop accumulating the total, then the
   * three-way branch. The page passes the shipped catalogue as `catalog`.
   */
  method CalculateOPGRecommendation(catalog: seq<Symptom>, symptoms: seq<SelectedSymptom>) returns (r: Recommendation)
    ensures r == Recommend(catalog, symptoms)
    ensures r.needsOPG <==> AverageScore(catalog, symptoms) >= 40.0
    ensures symptoms == [] ==> r == Recommendation(NotNecessaryAdvice, false, 0)
  {
    var totalScore := 0.0;
    var i := 0;
    while i < |symptoms|
      invariant 0 <= i <= |symptoms|
      invariant totalScore == TotalScore(catalog, symptoms[..i])
    {
      assert symptoms[..i + 1][..i] == symptoms[..i];
      assert TotalScore(catalog, symptoms[..i + 1]) == TotalScore(catalog, symptoms[..i]) + Contribution(catalog, symptoms[i]);
      ghost var before := totalScore;
      var symptomData := Find(catalog, symptoms[i].name);
      if symptomData.Some? {
        var severityMultiplier := symptoms[i].severity as real / 5.0;
        totalScore := totalScore + (symptomData.value.weight * severityMultiplier) * 20.0;
      }
      assert totalScore == before + Contribution(catalog, symptoms[i]);
      i := i + 1;
    }
    assert symptoms[..i] == symptoms;
    var averageScore := if |symptoms| > 0 then totalScore / |symptoms| as real else 0.0;
    assert averageScore == AverageScore(catalog, symptoms);
    if averageScore >= 70.0 {
      r := Recommendation(StrongAdvice, true, Round(averageScore));
    } else if averageScore >= 40.0 {
      r := Recommendation(ConsiderAdvice, true, Round(averageScore));
    } else {
      r := Recommendation(NotNecessaryAdvice, false, Round(averageScore));
    }
  }

  // ---------------------------------------------------------------------------
  // Properties of the scorer

  /** Selections none of which is in the catalogue total 0. */
  lemma {:induction false} UnknownNamesTotalZero(catalog: seq<Symptom>, sels: seq<SelectedSymptom>)
    requires forall i :: 0 <= i < |sels| ==> Find(catalog, sels[i].name).None?
    ensures TotalScore(catalog, sels) == 0.0
  {
    if sels != [] {
      UnknownNamesTotalZero(catalog, sels[..|sels| - 1]);
    }
  }

  /** Appending one selection adds its contribution to the total. */
  lemma TotalAppend(catalog: seq<Symptom>, sels: seq<SelectedSymptom>, s: SelectedSymptom)
    ensures TotalScore(catalog, sels + [s]) == TotalScore(catalog, sels) + Contribution(catalog, s)
  {
    assert (sels + [s])[..|sels|] == sels;
  }

  /** Every severity lies in [lo, hi]. */
  predicate SeveritiesWithin(sels: seq<SelectedSymptom>, lo: int, hi: int) {
    forall i :: 0 <= i < |sels| ==> lo <= sels[i].severity <= hi
  }

  /** With weights in [0, 1.5] and severities in [0, 10], one contribution lies in [0, 60]. */
  lemma ContributionBounds(catalog: seq<Symptom>, s: SelectedSymptom)
    requires WeightsWithin(catalog, 0.0, 1.5)
    requires 0 <= s.severity <= 10
    ensures 0.0 <= Contribution(catalog, s) <= 60.0
  {
    var found := Find(catalog, s.name);
    if found.Some? {
      var w := found.value.weight;
      var m := s.severity as real / 5.0;
      assert 0.0 <= w <= 1.5 by {
        var k :| 0 <= k < |catalog| && catalog[k] == found.value;
      }
      assert 0.0 <= m <= 2.0;
      assert w * m <= 1.5 * m;
      assert 1.5 * m <= 3.0;
      assert 0.0 <= w * m;
    }
  }

  /** The total of n selections lies in [0, 60 n]. */
  lemma {:induction false} TotalBounds(catalog: seq<Symptom>, sels: seq<SelectedSymptom>)
    requires WeightsWithin(catalog, 0.0, 1.5)
    requires SeveritiesWithin(sels, 0, 10)
    ensures 0.0 <= TotalScore(catalog, sels) <= 60.0 * |sels| as real
  {
    if sels != [] {
      var init := sels[..|sels| - 1];
      assert SeveritiesWithin(init, 0, 10);
      TotalBounds(catalog, init);
      ContributionBounds(catalog, sels[|sels| - 1]);
    }
  }

  /** Dividing bounds on a total by a positive count bounds the quotient. */
  lemma QuotientBounds(t: real, n: real, lo: real, hi: real)
    requires n > 0.0 && lo * n <= t <= hi * n
    ensures lo <= t / n <= hi
  {
    assert t / n * n == t;
  }

  /**
   * With the catalogue's weight bound and slider severities, the average and
   * the score both lie in [0, 60].
   */
  lemma ScoreBounds(catalog: seq<Symptom>, sels: seq<SelectedSymptom>)
    requires WeightsWithin(catalog, 0.0, 1.5)
    requires SeveritiesWithin(sels, 0, 10)
    ensures 0.0 <= AverageScore(catalog, sels) <= 60.0
    ensures 0 <= Recommend(catalog, sels).score <= 60
  {
    TotalBounds(catalog, sels);
    if |sels| > 0 {
      QuotientBounds(TotalScore(catalog, sels), |sels| as real, 0.0, 60.0);
    }
  }

  /**
   * With the shipped catalogue and slider severities (1..10) the strong tier is
   * never reached: an OPG is advised only in the "Consider" tier.
   */
  lemma StrongTierUnreachable(sels: seq<SelectedSymptom>)
    requires SeveritiesWithin(sels, 1, 10)
    ensures Recommend(SymptomsList, sels).advice != StrongAdvice
    ensures Recommend(SymptomsList, sels).needsOPG ==> Recommend(SymptomsList, sels).advice == ConsiderAdvice
    ensures 0 <= Recommend(SymptomsList, sels).score <= 60
  {
    CatalogueShape();
    ScoreBounds(SymptomsList, sels);
  }

  /** Raising a selection's severity never lowers its contribution, when weights are non-negative. */
  lemma ContributionMonotone(catalog: seq<Symptom>, s: SelectedSymptom, severity: int)
    requires WeightsNonNegative(catalog)
    requires s.severity <= severity
    ensures Contribution(catalog, s) <= Contribution(catalog, s.(severity := severity))
  {
    var found := Find(catalog, s.name);
    if found.Some? {
      var w := found.value.weight;
      assert 0.0 <= w by {
        var j :| 0 <= j < |catalog| && catalog[j] == found.value;
      }
      var v, v' := s.severity as real, severity as real;
      assert w * v <= w * v';
    }
  }

  /** Raising one selection's severity never lowers the total, when weights are non-negative. */
  lemma {:induction false} TotalMonotone(catalog: seq<Symptom>, sels: seq<SelectedSymptom>, k: nat, severity: int)
    requires WeightsNonNegative(catalog)
    requires k < |sels| && sels[k].severity <= severity
    ensures TotalScore(catalog, sels) <= TotalScore(catalog, sels[k := sels[k].(severity := severity)])
  {
    var raised := sels[k := sels[k].(severity := severity)];
    var n := |sels|;
    var prefix, raisedPrefix := sels[..n - 1], raised[..n - 1];
    assert TotalScore(catalog, sels) == TotalScore(catalog, prefix) + Contribution(catalog, sels[n - 1]);
    assert TotalScore(catalog, raised) == TotalScore(catalog, raisedPrefix) + Contribution(catalog, raised[n - 1]);
    if k == n - 1 {
      assert raisedPrefix == prefix;
      ContributionMonotone(catalog, sels[k], severity);
    } else {
      assert raisedPrefix == prefix[k := sels[k].(severity := severity)];
      assert raised[n - 1] == sels[n - 1];
      TotalMonotone(catalog, prefix, k, severity);
    }
  }

  /** Dividing by the same positive count keeps the order. */
  lemma QuotientMonotone(t: real, t': real, n: real)
    requires n > 0.0 && t <= t'
    ensures t / n <= t' / n
  {
    assert t / n * n == t && t' / n * n == t';
  }

  /** The rounded score never decreases as the average grows. */
  lemma RoundMonotone(x: real, y: real)
    requires x <= y
    ensures Round(x) <= Round(y)
  {
  }

  /**
   * Raising the severity of one selection, holding the others fixed, never
   * lowers the average or the score.
   */
  lemma SeverityMonotone(catalog: seq<Symptom>, sels: seq<SelectedSymptom>, k: nat, severity: int)
    requires WeightsNonNegative(catalog)
    requires k < |sels| && sels[k].severity <= severity
    ensures AverageScore(catalog, sels) <= AverageScore(catalog, sels[k := sels[k].(severity := severity)])
    ensures Recommend(catalog, sels).score <= Recommend(catalog, sels[k := sels[k].(severity := severity)]).score
  {
    var raised := sels[k := sels[k].(severity := severity)];
    TotalMonotone(catalog, sels, k, severity);
    if |sels| > 0 {
      QuotientMonotone(TotalScore(catalog, sels), TotalScore(catalog, raised), |sels| as real);
    }
    RoundMonotone(AverageScore(catalog, sels), AverageScore(catalog, raised));
  }

  /** Appending a name that is not in the catalogue leaves the total unchanged but enlarges the count. */
  lemma DilutedAverage(catalog: seq<Symptom>, sels: seq<SelectedSymptom>, unknown: SelectedSymptom)
    requires Find(catalog, unknown.name).None?
    ensures TotalScore(catalog, sels + [unknown]) == TotalScore(catalog, sels)
    ensures AverageScore(catalog, sels + [unknown]) == TotalScore(catalog, sels) / (|sels| + 1) as real
  {
    var longer := sels + [unknown];
    assert longer[..|longer| - 1] == sels;
  }

  /** Appending a name that is not in the catalogue strictly lowers a positive average. */
  lemma Dilution(catalog: seq<Symptom>, sels: seq<SelectedSymptom>, unknown: SelectedSymptom)
    requires Find(catalog, unknown.name).None?
    ensures AverageScore(catalog, sels) > 0.0 ==> AverageScore(catalog, sels + [unknown]) < AverageScore(catalog, sels)
  {
    DilutedAverage(catalog, sels, unknown);
    if AverageScore(catalog, sels) > 0.0 {
      var t, n := TotalScore(catalog, sels), |sels| as real;
      assert AverageScore(catalog, sels) == t / n;
      assert (|sels| + 1) as real == n + 1.0;
      QuotientShrinks(t, n);
    }
  }

  /** A positive quotient shrinks strictly when the divisor grows by one. */
  lemma QuotientShrinks(t: real, n: real)
    requires n > 0.0 && t / n > 0.0
    ensures t / (n + 1.0) < t / n
  {
    var a, b := t / (n + 1.0), t / n;
    assert a * (n + 1.0) == t && b * n == t;
    assert t > 0.0;
    assert a > 0.0;
    assert a * n < t;
  }

  /** The contributions of three catalogue entries used by the worked examples. */
  lemma ExampleContributions()
    ensures Contribution(SymptomsList, SelectedSymptom("Bleeding gums", 5)) == 24.0
    ensures Contribution(SymptomsList, SelectedSymptom("Loose teeth", 10)) == 60.0
    ensures Contribution(SymptomsList, SelectedSymptom("Discoloration or dark spots", 10)) == 60.0
  {
    CatalogueWeights();
  }

  /** A name outside the shipped catalogue is not found. */
  lemma UnknownNotFound()
    ensures Find(SymptomsList, "Unknown symptom").None?
  {
    var unknown := "Unknown symptom";
    assert |unknown| == 15;
    forall i | 0 <= i < |SymptomsList| ensures SymptomsList[i].name != unknown {
      assert |SymptomsList[i].name| != |unknown|;
    }
  }

  /** A single neutral-severity symptom: 1.2 * 1 * 20 = 24, below the "Consider" tier. */
  lemma ExampleNeutralSeverity()
    ensures Recommend(SymptomsList, [SelectedSymptom("Bleeding gums", 5)])
         == Recommendation(NotNecessaryAdvice, false, 24)
  {
    ExampleContributions();
    var sels := [SelectedSymptom("Bleeding gums", 5)];
    assert sels[..0] == [];
  }

  /** A single maximal-severity symptom: 1.5 * 2 * 20 = 60, the "Consider" tier. */
  lemma ExampleMaximalSeverity()
    ensures Recommend(SymptomsList, [SelectedSymptom("Loose teeth", 10)])
         == Recommendation(ConsiderAdvice, true, 60)
  {
    ExampleContributions();
    var sels := [SelectedSymptom("Loose teeth", 10)];
    assert sels[..0] == [];
  }

  /** Two maximal-severity symptoms: (60 + 60) / 2 = 60, the "Consider" tier. */
  lemma ExampleTwoMaximal()
    ensures Recommend(SymptomsList, [SelectedSymptom("Loose teeth", 10), SelectedSymptom("Discoloration or dark spots", 10)])
         == Recommendation(ConsiderAdvice, true, 60)
  {
    ExampleContributions();
    AverageOfTwo(SymptomsList, SelectedSymptom("Loose teeth", 10), SelectedSymptom("Discoloration or dark spots", 10));
    assert Round(60.0) == 60;
  }

  /** Two selections average the mean of their contributions. */
  lemma AverageOfTwo(catalog: seq<Symptom>, a: SelectedSymptom, b: SelectedSymptom)
    ensures AverageScore(catalog, [a, b]) == (Contribution(catalog, a) + Contribution(catalog, b)) / 2.0
  {
    TotalAppend(catalog, [], a);
    TotalAppend(catalog, [a], b);
    assert [] + [a] == [a];
    assert [a] + [b] == [a, b];
  }

  /** "Loose teeth"@10 alone totals 60. */
  lemma ExampleMaximalTotal()
    ensures TotalScore(SymptomsList, [SelectedSymptom("Loose teeth", 10)]) == 60.0
  {
    ExampleContributions();
    var loose := SelectedSymptom("Loose teeth", 10);
    TotalAppend(SymptomsList, [], loose);
    assert [] + [loose] == [loose];
  }

  /** "Loose teeth"@10 next to an unknown name averages 60 / 2 = 30. */
  lemma ExampleDilutedAverage()
    ensures AverageScore(SymptomsList, [SelectedSymptom("Loose teeth", 10), SelectedSymptom("Unknown symptom", 10)]) == 30.0
  {
    UnknownNotFound();
    ExampleMaximalTotal();
    HalvedByUnknown(SymptomsList, SelectedSymptom("Loose teeth", 10), SelectedSymptom("Unknown symptom", 10));
  }

  /** A known selection followed by an unknown name averages half the known one's total. */
  lemma HalvedByUnknown(catalog: seq<Symptom>, known: SelectedSymptom, unknown: SelectedSymptom)
    requires Find(catalog, unknown.name).None?
    ensures AverageScore(catalog, [known, unknown]) == TotalScore(catalog, [known]) / 2.0
  {
    DilutedAverage(catalog, [known], unknown);
    assert [known] + [unknown] == [known, unknown];
  }

  /** An unknown name next to a maximal symptom dilutes it below the "Consider" tier. */
  lemma ExampleDilution()
    ensures Recommend(SymptomsList, [SelectedSymptom("Loose teeth", 10), SelectedSymptom("Unknown symptom", 10)])
         == Recommendation(NotNecessaryAdvice, false, 30)
  {
    ExampleDilutedAverage();
    assert Round(30.0) == 30;
  }

  /** The tier bounds are inclusive: exactly 70 is strong and exactly 40 is "Consider". */
  lemma BoundaryExactness()
    ensures Classify(70.0) == Recommendation(StrongAdvice, true, 70)
    ensures Classify(40.0) == Recommendation(ConsiderAdvice, true, 40)
    ensures Classify(69.6) == Recommendation(ConsiderAdvice, true, 70)
  {
  }
}
