/**
 * The pure pieces of the report page: which stored data the page loads from,
 * how a stored report is combined with the separately stored symptom and
 * prediction lists, the fallback report, the original image's file name, the
 * print document title and the "differential diagnosis" excerpt.
 *
 * Session-storage items are parsed values (`None` when an item is absent);
 * a stored report is a JSON object, written as a map from keys to values.
 */
module ReportPage {
  import opened JsBuiltins

  const AnnotatedMarker: string := "annotated_"
  const TitlePrefix: string := "Dental_Report_"
  const DefaultTitleName: string := "Patient"
  const FallbackSuggestion: string := "Based on radiographic findings, please consult with your dentist"

  /** What the page reads from session storage. */
  datatype SessionStore = SessionStore(
    analysisResults: Option<Json>,
    patientReport: Option<map<string, Json>>,
    patientSymptoms: Option<Json>,
    aiPredictions: Option<Json>)

  /** The patient details collected by the intake form. */
  datatype UserData = UserData(patientName: string, age: string, gender: string)

  /** Where the page takes its report from. */
  datatype LoadBranch = FromSession | FromImage(filename: string) | NoData

  // ---------------------------------------------------------------------------
  // Original file name

  /** `imageFilename.replace('annotated_', '')`. */
  function OriginalFilename(image: string): string {
    ReplaceFirst(image, AnnotatedMarker, "")
  }

  /**
   * Only the first "annotated_" is removed: a name without one is unchanged,
   * and every later occurrence survives, shifted left by its length.
   */
  lemma OriginalFilenameRemovesFirstMarker(image: string)
    ensures IndexOf(image, AnnotatedMarker).None? ==> OriginalFilename(image) == image
    ensures IndexOf(image, AnnotatedMarker).Some? ==>
              var i := IndexOf(image, AnnotatedMarker).value;
              && OriginalFilename(image) == image[..i] + image[i + |AnnotatedMarker|..]
              && |OriginalFilename(image)| == |image| - |AnnotatedMarker|
              && forall j :: i + |AnnotatedMarker| <= j && OccursAt(image, AnnotatedMarker, j) ==>
                   OccursAt(OriginalFilename(image), AnnotatedMarker, j - |AnnotatedMarker|)
  {
    var m := AnnotatedMarker;
    if IndexOf(image, m).Some? {
      var i := IndexOf(image, m).value;
      var r := OriginalFilename(image);
      assert r == image[..i] + image[i + |m|..];
      forall j | i + |m| <= j && OccursAt(image, m, j)
        ensures OccursAt(r, m, j - |m|)
      {
        assert r[j - |m|..j] == image[j..j + |m|];
      }
    }
  }

  /** Stripping the marker from a processed image's name gives back the uploaded name. */
  lemma OriginalOfAnnotated(upload: string)
    ensures OriginalFilename(AnnotatedMarker + upload) == upload
  {
    var image := AnnotatedMarker + upload;
    assert OccursAt(image, AnnotatedMarker, 0) by {
      assert image[..|AnnotatedMarker|] == AnnotatedMarker;
    }
    assert image[|AnnotatedMarker|..] == upload;
  }

  // ---------------------------------------------------------------------------
  // Print document title

  /** `report?.name?.replace(' ', '_') || 'Patient'`. */
  function TitleName(name: Option<string>): (x: string)
    ensures x != ""
    ensures name.Some? && name.value != "" ==> |x| == |name.value|
  {
    match name
    case None => DefaultTitleName
    case Some(n) => OrString(ReplaceFirst(n, " ", "_"), DefaultTitleName)
  }

  /** `Dental_Report_${...}_${currentDate.replace(/ /g, '_')}`. */
  function DocumentTitle(name: Option<string>, date: string): string {
    TitlePrefix + TitleName(name) + "_" + ReplaceEveryChar(date, ' ', '_')
  }

  /** Replacing the first occurrence of a character changes that one position and nothing else. */
  lemma ReplaceFirstChar(s: string, c: char, d: char)
    ensures |ReplaceFirst(s, [c], [d])| == |s|
    ensures IndexOf(s, [c]).None? ==> ReplaceFirst(s, [c], [d]) == s && c !in s
    ensures IndexOf(s, [c]).Some? ==>
              var i := IndexOf(s, [c]).value;
              && s[i] == c
              && ReplaceFirst(s, [c], [d])[i] == d
              && (forall k :: 0 <= k < i ==> s[k] != c)
              && (forall k :: 0 <= k < |s| && k != i ==> ReplaceFirst(s, [c], [d])[k] == s[k])
  {
    if IndexOf(s, [c]).None? {
      forall k | 0 <= k < |s| ensures s[k] != c {
        assert !OccursAt(s, [c], k);
        assert s[k..k + 1] == [s[k]];
      }
    } else {
      var i := IndexOf(s, [c]).value;
      assert s[i..i + 1] == [s[i]];
      forall k | 0 <= k < i ensures s[k] != c {
        assert !OccursAt(s, [c], k);
        assert s[k..k + 1] == [s[k]];
      }
    }
  }

  /** A string built as prefix, `x`, "_" and `y` splits back into those parts. */
  lemma TitleParts(x: string, y: string)
    ensures var t, p := TitlePrefix + x + "_" + y, |TitlePrefix| + |x|;
            && |t| == p + 1 + |y|
            && t[..|TitlePrefix|] == TitlePrefix
            && t[|TitlePrefix|..p] == x
            && t[p] == '_'
            && t[p + 1..] == y
  {
    var t := (TitlePrefix + x) + ("_" + y);
    assert t[..|TitlePrefix| + |x|] == TitlePrefix + x;
  }

  /**
   * The title splits back into "Dental_Report_", X, "_" and Y: X is the name with only its
   * first space turned into "_", or "Patient" when the name is missing or
   * empty; Y is the date with every space turned into "_".
   */
  lemma DocumentTitleShape(name: Option<string>, date: string)
    ensures var t, p := DocumentTitle(name, date), |TitlePrefix| + |TitleName(name)|;
            && |t| == p + 1 + |date|
            && t[..|TitlePrefix|] == TitlePrefix
            && t[|TitlePrefix|..p] == TitleName(name)
            && t[p] == '_'
            && t[p + 1..] == ReplaceEveryChar(date, ' ', '_')
    ensures TitleName(name) == DefaultTitleName <==> name.None? || name.value == "" || name.value == DefaultTitleName
    ensures name.Some? && name.value != "" ==>
              |TitleName(name)| == |name.value|
              && (IndexOf(name.value, " ").None? ==> TitleName(name) == name.value)
              && (IndexOf(name.value, " ").Some? ==>
                    var i := IndexOf(name.value, " ").value;
                    && TitleName(name)[i] == '_'
                    && forall k :: 0 <= k < |name.value| && k != i ==> TitleName(name)[k] == name.value[k])
    ensures |ReplaceEveryChar(date, ' ', '_')| == |date|
    ensures ' ' !in ReplaceEveryChar(date, ' ', '_')
  {
    if name.Some? {
      ReplaceFirstChar(name.value, ' ', '_');
      var n := name.value;
      var x := ReplaceFirst(n, " ", "_");
      if IndexOf(n, " ").Some? {
        // A space in the name leaves a '_' in the title part; "Patient" has neither.
        var i := IndexOf(n, " ").value;
        assert ' ' !in DefaultTitleName && '_' !in DefaultTitleName;
        assert n[i] == ' ' && x[i] == '_';
      }
    }
    var y := ReplaceEveryChar(date, ' ', '_');
    forall k | 0 <= k < |y| ensures y[k] != ' ' { }
    TitleParts(TitleName(name), y);
  }

  // ---------------------------------------------------------------------------
  // Differential diagnosis excerpt

  /** `report.conditions?.slice(0, 3)`: nothing when there is no list. */
  function DifferentialExcerpt<T>(conditions: Option<seq<T>>): (r: seq<T>)
    ensures |r| <= 3
    ensures conditions.None? ==> r == []
    ensures conditions.Some? ==> r <= conditions.value
  {
    match conditions
    case None => []
    case Some(c) => Slice(c, 0, 3)
  }

  /** The excerpt is the first min(3, n) conditions, in their original order. */
  lemma ExcerptIsFirstThree<T>(conditions: seq<T>)
    ensures var n := if |conditions| < 3 then |conditions| else 3;
            DifferentialExcerpt(Some(conditions)) == conditions[..n]
    ensures |DifferentialExcerpt(Some(conditions))| <= 3
  {
  }

  // ---------------------------------------------------------------------------
  // Report construction

  /** `JSON.parse(item) || []`: an absent or falsy item becomes the empty list. */
  function ParsedOrEmpty(item: Option<Json>): (v: Json)
    ensures Truthy(v)
    ensures item.Some? && Truthy(item.value) ==> v == item.value
    ensures item.None? || !Truthy(item.value) ==> v == JArray([])
  {
    match item
    case None => Or(JNull, JArray([]))
    case Some(parsed) => Or(parsed, JArray([]))
  }

  /** `{...storedReport, symptoms: ..., conditions: ...}`. */
  function CombinedReport(stored: map<string, Json>, symptoms: Option<Json>, predictions: Option<Json>): map<string, Json> {
    stored["symptoms" := ParsedOrEmpty(symptoms)]["conditions" := ParsedOrEmpty(predictions)]
  }

  /**
   * The combined report keeps every stored field except "symptoms" and
   * "conditions", which are replaced by the separately stored lists (or []).
   */
  lemma CombinedReportFields(stored: map<string, Json>, symptoms: Option<Json>, predictions: Option<Json>)
    ensures CombinedReport(stored, symptoms, predictions).Keys == stored.Keys + {"symptoms", "conditions"}
    ensures forall k :: k in stored && k != "symptoms" && k != "conditions" ==>
              CombinedReport(stored, symptoms, predictions)[k] == stored[k]
    ensures CombinedReport(stored, symptoms, predictions)["symptoms"] == ParsedOrEmpty(symptoms)
    ensures CombinedReport(stored, symptoms, predictions)["conditions"] == ParsedOrEmpty(predictions)
  {
  }

  /** `userData?.field || default` for the three identity fields. */
  function NameOr(user: Option<UserData>, default: string): string {
    match user
    case None => default
    case Some(u) => OrString(u.patientName, default)
  }

  function AgeOr(user: Option<UserData>, default: string): string {
    match user
    case None => default
    case Some(u) => OrString(u.age, default)
  }

  function GenderOr(user: Option<UserData>, default: string): string {
    match user
    case None => default
    case Some(u) => OrString(u.gender, default)
  }

  /** The report built on the image branch: the stored report if any, otherwise one from the patient details. */
  function FallbackReport(stored: Option<map<string, Json>>, user: Option<UserData>,
                          symptoms: Option<Json>, predictions: Option<Json>): map<string, Json> {
    match stored
    case Some(r) => r
    case None =>
      map[
        "name" := JString(NameOr(user, "Patient Name")),
        "age" := JString(AgeOr(user, "30")),
        "gender" := JString(GenderOr(user, "Male")),
        "symptoms" := ParsedOrEmpty(symptoms),
        "conditions" := ParsedOrEmpty(predictions),
        "suggestion" := JString(FallbackSuggestion)]
  }

  /**
   * A stored report is used as it is; otherwise the report has exactly six
   * fields, the identity fields fall back to "Patient Name", "30" and "Male"
   * when missing or empty, and the lists to [].
   */
  lemma FallbackReportFields(stored: Option<map<string, Json>>, user: Option<UserData>,
                             symptoms: Option<Json>, predictions: Option<Json>)
    ensures stored.Some? ==> FallbackReport(stored, user, symptoms, predictions) == stored.value
    ensures stored.None? ==>
              var r := FallbackReport(stored, user, symptoms, predictions);
              && r.Keys == {"name", "age", "gender", "symptoms", "conditions", "suggestion"}
              && r["name"] == JString(if user.Some? && user.value.patientName != "" then user.value.patientName else "Patient Name")
              && r["age"] == JString(if user.Some? && user.value.age != "" then user.value.age else "30")
              && r["gender"] == JString(if user.Some? && user.value.gender != "" then user.value.gender else "Male")
              && r["symptoms"] == ParsedOrEmpty(symptoms)
              && r["conditions"] == ParsedOrEmpty(predictions)
              && r["suggestion"] == JString(FallbackSuggestion)
  {
  }

  // ---------------------------------------------------------------------------
  // Branch precedence

  /** `if (storedResults && storedReport) ... else if (imageFilename) ...`. */
  function ChooseBranch(session: SessionStore, imageFilename: Option<string>): LoadBranch {
    if session.analysisResults.Some? && session.patientReport.Some? then FromSession
    else if imageFilename.Some? && imageFilename.value != "" then FromImage(imageFilename.value)
    else NoData
  }

  /**
   * The report the page ends up with. `imagesLoaded` is whether both image
   * requests of the image branch succeeded.
   */
  function LoadedReport(session: SessionStore, imageFilename: Option<string>, user: Option<UserData>,
                        imagesLoaded: bool): Option<map<string, Json>> {
    match ChooseBranch(session, imageFilename)
    case FromSession =>
      Some(CombinedReport(session.patientReport.value, session.patientSymptoms, session.aiPredictions))
    case FromImage(_) =>
      if imagesLoaded then Some(FallbackReport(session.patientReport, user, session.patientSymptoms, session.aiPredictions))
      else None
    case NoData => None
  }

  /**
   * Stored results together with a stored report win whatever the URL says,
   * and the report then does not depend on the image requests; the image
   * branch runs exactly when they are not both stored and the URL names an
   * image.
   */
  lemma BranchPrecedence(session: SessionStore, imageFilename: Option<string>, user: Option<UserData>, imagesLoaded: bool)
    ensures session.analysisResults.Some? && session.patientReport.Some? ==>
              && ChooseBranch(session, imageFilename) == FromSession
              && LoadedReport(session, imageFilename, user, imagesLoaded)
                 == Some(CombinedReport(session.patientReport.value, session.patientSymptoms, session.aiPredictions))
    ensures ChooseBranch(session, imageFilename).FromImage? <==>
              !(session.analysisResults.Some? && session.patientReport.Some?)
              && imageFilename.Some? && imageFilename.value != ""
    ensures LoadedReport(session, imageFilename, user, imagesLoaded).Some? ==>
              ChooseBranch(session, imageFilename).FromSession? || imagesLoaded
  {
  }
}
