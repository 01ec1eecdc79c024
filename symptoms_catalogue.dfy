/**
 * The fixed symptom catalogue (`symptomsList`): each entry has a name, an
 * importance weight, whether it shows a severity slider, and the conditions
 * it is associated with. Weights are exact reals.
 */
module SymptomsCatalogue {
  import opened JsBuiltins

  datatype Symptom = Symptom(name: string, weight: real, hasSlider: bool, conditions: seq<string>)

  const SymptomsList: seq<Symptom> := [
    Symptom("Tooth sensitivity", 1.0, true, ["Caries", "Enamel erosion"]),
    Symptom("Swollen gums", 1.2, true, ["Infection", "Periodontitis"]),
    Symptom("Persistent bad breath", 1.0, true, ["Gum disease", "Poor hygiene"]),
    Symptom("Pain while chewing", 1.5, true, ["Caries", "Fractured tooth", "Impacted teeth"]),
    Symptom("Loose teeth", 1.5, true, ["Gum disease", "Bone loss", "Possible diabetes"]),
    Symptom("Bleeding gums", 1.2, true, ["Gingivitis"]),
    Symptom("Jaw pain or difficulty opening mouth", 1.3, true, ["TMJ disorders", "Impacted tooth"]),
    Symptom("Discoloration or dark spots", 1.5, true, ["Dental caries", "Necrosis"]),
    Symptom("Ulcers or white patches", 1.5, true, ["Oral thrush", "Canker sores", "Leukoplakia"]),
    Symptom("Dry mouth", 1.4, true, ["Possible diabetes", "Salivary dysfunction"])
  ]

  /** No two entries share a name. */
  predicate DistinctNames(catalog: seq<Symptom>) {
    forall i, j :: 0 <= i < j < |catalog| ==> catalog[i].name != catalog[j].name
  }

  /** Every weight lies in [lo, hi]. */
  predicate WeightsWithin(catalog: seq<Symptom>, lo: real, hi: real) {
    forall i :: 0 <= i < |catalog| ==> lo <= catalog[i].weight <= hi
  }

  /** No weight is negative. */
  predicate WeightsNonNegative(catalog: seq<Symptom>) {
    forall i :: 0 <= i < |catalog| ==> 0.0 <= catalog[i].weight
  }

  /** The first entry at or after index `k` with that name, if any. */
  function FindFrom(catalog: seq<Symptom>, name: string, k: nat): (r: Option<Symptom>)
    decreases |catalog| - k
    ensures r.Some? ==> r.value in catalog && r.value.name == name
    ensures r.None? <==> forall i :: k <= i < |catalog| ==> catalog[i].name != name
  {
    if k >= |catalog| then None
    else if catalog[k].name == name then Some(catalog[k])
    else FindFrom(catalog, name, k + 1)
  }

  /** `catalog.find(s => s.name === name)`: the first entry with that name, if any. */
  function Find(catalog: seq<Symptom>, name: string): (r: Option<Symptom>)
    ensures r.Some? ==> r.value in catalog && r.value.name == name
    ensures r.None? <==> forall i :: 0 <= i < |catalog| ==> catalog[i].name != name
  {
    FindFrom(catalog, name, 0)
  }

  /** Searching from `j` finds entry `k` when no entry between them has its name. */
  lemma {:induction false} FindFromFirst(catalog: seq<Symptom>, k: nat, j: nat)
    requires j <= k < |catalog|
    requires forall i :: j <= i < k ==> catalog[i].name != catalog[k].name
    ensures FindFrom(catalog, catalog[k].name, j) == Some(catalog[k])
    decreases k - j
  {
    if j < k {
      FindFromFirst(catalog, k, j + 1);
    }
  }

  /** `find` returns the first matching entry. */
  lemma FindFirst(catalog: seq<Symptom>, k: nat)
    requires k < |catalog|
    requires forall j :: 0 <= j < k ==> catalog[j].name != catalog[k].name
    ensures Find(catalog, catalog[k].name) == Some(catalog[k])
  {
    FindFromFirst(catalog, k, 0);
  }

  /** With pairwise distinct names, looking up an entry's name yields that entry. */
  lemma FindUnique(catalog: seq<Symptom>, k: nat)
    requires DistinctNames(catalog)
    requires k < |catalog|
    ensures Find(catalog, catalog[k].name) == Some(catalog[k])
  {
    FindFirst(catalog, k);
  }

  /** Names whose lengths are pairwise different are pairwise distinct. */
  lemma DistinctByLength(catalog: seq<Symptom>, lengths: seq<int>)
    requires |lengths| == |catalog|
    requires forall i :: 0 <= i < |catalog| ==> |catalog[i].name| == lengths[i]
    requires forall i, j :: 0 <= i < j < |lengths| ==> lengths[i] != lengths[j]
    ensures DistinctNames(catalog)
  {
  }

  /** The shipped names are pairwise distinct (they already differ in length). */
  lemma CatalogueDistinct()
    ensures DistinctNames(SymptomsList)
  {
    var lengths := [17, 12, 21, 18, 11, 13, 36, 27, 23, 9];
    forall i | 0 <= i < |SymptomsList| ensures |SymptomsList[i].name| == lengths[i] { }
    DistinctByLength(SymptomsList, lengths);
  }

  /**
   * The shipped catalogue has ten entries with distinct names, weights between
   * 1 and 1.5, a slider on every entry and at least one condition per entry.
   */
  lemma CatalogueShape()
    ensures |SymptomsList| == 10
    ensures DistinctNames(SymptomsList)
    ensures WeightsWithin(SymptomsList, 1.0, 1.5)
    ensures forall i :: 0 <= i < |SymptomsList| ==> SymptomsList[i].hasSlider && SymptomsList[i].conditions != []
  {
    CatalogueDistinct();
  }

  /** Weights of three named entries, for use as test vectors. */
  lemma CatalogueWeights()
    ensures Find(SymptomsList, "Loose teeth").Some? && Find(SymptomsList, "Loose teeth").value.weight == 1.5
    ensures Find(SymptomsList, "Bleeding gums").Some? && Find(SymptomsList, "Bleeding gums").value.weight == 1.2
    ensures Find(SymptomsList, "Discoloration or dark spots").Some?
    ensures Find(SymptomsList, "Discoloration or dark spots").value.weight == 1.5
  {
    CatalogueDistinct();
    FindUnique(SymptomsList, 4);
    FindUnique(SymptomsList, 5);
    FindUnique(SymptomsList, 7);
  }
}
