# Dental symptom checker and OPG triage — a verified model

This project models the decision logic of a dental self-check web
application in Dafny:

- **OPG triage scorer** (`OpgScoring`). A patient selects symptoms, each with a
  severity from 1 to 10. Every selected name found in the symptom catalogue
  adds `weight · (severity / 5) · 20`; a name not in the catalogue adds nothing
  but still counts. The sum is divided by the number of selections (0 for
  none). The unrounded average picks one of three tiers: ≥ 70 "strongly
  recommend", ≥ 40 "consider", otherwise "not necessary". The score is the
  average rounded half up. The scorer is a method with a loop, proved against
  the function `Recommend`.
- **Symptom catalogue** (`SymptomsCatalogue`): the ten shipped entries and the
  `find`-by-name lookup.
- **Symptom-checker page state** (`SymptomCheckerPage.SymptomChecker`):
  - the ordered, duplicate-free list of selected names, toggled by `HandleChange`;
  - the name-to-severity map: 5 on a first selection, set by the slider;
  - the submit step: it rejects an empty selection, builds the ordered
    symptom data, and computes the recommendation only when the prediction
    request succeeded.
- **Toggle** (`Toggle`): the list toggle shared by both checkers. An absent
  name is appended; a present name is removed with `filter`. Toggling twice
  always restores membership. It restores the exact list only when the name
  was absent or last: a name in the middle comes back at the end.
- **Rule-based checker** (`RuleChecker`): the older component. It keeps a
  toggle list and a first-match chain over four symptom pairs (gingivitis,
  periodontitis, caries, fracture), then an empty-selection message, then
  generic advice.
- **Report page helpers** (`ReportPage`):
  - the original image name (first "annotated_" removed);
  - the print document title;
  - the three-item differential excerpt;
  - the combined report and the fallback report;
  - the precedence of stored session data over the `image` URL parameter.
- **JavaScript built-ins** (`JsBuiltins`): the JavaScript behaviour the model
  relies on. This covers truthiness and `||`, `filter(x => x !== v)`,
  `String.prototype.replace` with a string pattern (first occurrence only), a
  global single-character replace, and `Array.prototype.slice`.

Numbers are exact: weights and averages are `real`, severities `int`.
`Math.round(x)` is `⌊x + 0.5⌋`.

Two behaviours of the code are worth noting:

- On an empty selection the scorer divides by nothing and returns average 0,
  score 0 and "OPG not necessary" (app/symptom-checker/page.jsx:56).
  `CalculateOPGRecommendation` states this outcome.
- The recommendation is computed only after a successful prediction response
  (app/symptom-checker/page.jsx:103-106); a failure sets the retry error.
  `HandleSubmit` states this.

The scorer takes the catalogue as a parameter. The page always passes
`SymptomsList`, and every statement about the shipped catalogue is made with
that argument.

## Model

| member | source | states |
|---|---|---|
| OpgScoring.CalculateOPGRecommendation | app/symptom-checker/page.jsx:45-77 | The loop's result is the recommendation for the average of all contributions over all selections; `needsOPG` holds exactly when that average is ≥ 40; an empty list gives "not necessary", false, 0 |
| OpgScoring.Classify | app/symptom-checker/page.jsx:58-76 | Tiers on the unrounded average: strong exactly when ≥ 70, consider exactly when in [40, 70), not necessary exactly when < 40; `needsOPG` iff ≥ 40; score within half a point of the average |
| OpgScoring.Contribution | app/symptom-checker/page.jsx:49-53 | What one selection adds, `weight * (severity / 5) * 20` for a catalogue match and nothing otherwise; stated by `ContributionFormula` and `ContributionBounds` |
| OpgScoring.ContributionFormula | app/symptom-checker/page.jsx:49-53 | A selection found in the catalogue adds 4 · weight · severity; an unknown name adds 0 |
| OpgScoring.TotalScore | app/symptom-checker/page.jsx:46-54 | The running total over the selections in order; stated by `TotalAppend`, `UnknownNamesTotalZero` and `TotalBounds` |
| OpgScoring.UnknownNamesTotalZero | app/symptom-checker/page.jsx:48-54 | Selections none of which is in the catalogue total 0 |
| OpgScoring.AverageScore | app/symptom-checker/page.jsx:56 | The total divided by the number of ALL selections, 0 for none; stated by `DilutedAverage`, `AverageOfTwo` and `ScoreBounds` |
| OpgScoring.Recommend | app/symptom-checker/page.jsx:45-77 | The tiers of `Classify` applied to the average; the scorer method is proved equal to it, and the bounds, monotonicity and dilution lemmas are stated about it |
| OpgScoring.Round | app/symptom-checker/page.jsx:62 | `Math.round` gives the integer r with x − 0.5 < r ≤ x + 0.5 (halves round up) |
| OpgScoring.TotalAppend | app/symptom-checker/page.jsx:48-54 | Each further selection adds exactly its own contribution to the running total |
| OpgScoring.ContributionBounds | app/symptom-checker/page.jsx:49-53 | With weights in [0, 1.5] and severity in [0, 10], one contribution lies in [0, 60] (that an unknown name contributes 0 is `ContributionFormula`'s) |
| OpgScoring.TotalBounds | app/symptom-checker/page.jsx:46-54 | The total of n such selections lies in [0, 60·n] |
| OpgScoring.ScoreBounds | app/symptom-checker/page.jsx:56-74 | With weights in [0, 1.5] and severities in [0, 10], the average and the score lie in [0, 60] |
| OpgScoring.StrongTierUnreachable | app/symptom-checker/page.jsx:58-63 | With the shipped catalogue and slider severities the "strongly recommend" tier never fires, so `needsOPG` means "consider", and the score lies in [0, 60] |
| OpgScoring.ContributionMonotone | app/symptom-checker/page.jsx:49-53 | Raising a selection's severity never lowers its contribution, for any non-negative weights |
| OpgScoring.TotalMonotone | app/symptom-checker/page.jsx:48-54 | Raising one selection's severity never lowers the total, for any non-negative weights |
| OpgScoring.RoundMonotone | app/symptom-checker/page.jsx:62 | Rounding keeps order |
| OpgScoring.SeverityMonotone | app/symptom-checker/page.jsx:48-62 | Raising one selection's severity, others fixed, never lowers the average or the score, for any non-negative weights |
| OpgScoring.DilutedAverage | app/symptom-checker/page.jsx:49-56 | Appending a name missing from the catalogue keeps the total and divides it by one more selection |
| OpgScoring.HalvedByUnknown | app/symptom-checker/page.jsx:49-56 | A known selection followed by an unknown name averages half the known selection's total |
| OpgScoring.AverageOfTwo | app/symptom-checker/page.jsx:46-56 | Two selections average the mean of their two contributions |
| OpgScoring.Dilution | app/symptom-checker/page.jsx:49-56 | Appending an unknown name strictly lowers a positive average |
| OpgScoring.ExampleContributions | app/symptom-checker/page.jsx:49-53 | "Bleeding gums"@5 contributes 24; "Loose teeth"@10 and "Discoloration or dark spots"@10 contribute 60 |
| OpgScoring.UnknownNotFound | app/symptom-checker/page.jsx:49-50 | "Unknown symptom" is not in the shipped catalogue |
| OpgScoring.ExampleNeutralSeverity | app/symptom-checker/page.jsx:45-77 | "Bleeding gums"@5 alone: not necessary, false, 24 |
| OpgScoring.ExampleMaximalSeverity | app/symptom-checker/page.jsx:45-77 | "Loose teeth"@10 alone: consider, true, 60 |
| OpgScoring.ExampleTwoMaximal | app/symptom-checker/page.jsx:45-77 | Two weight-1.5 symptoms at 10: consider, true, 60 |
| OpgScoring.ExampleMaximalTotal | app/symptom-checker/page.jsx:46-54 | "Loose teeth"@10 alone totals 60 |
| OpgScoring.ExampleDilutedAverage | app/symptom-checker/page.jsx:46-56 | "Loose teeth"@10 next to an unknown name averages 30 |
| OpgScoring.ExampleDilution | app/symptom-checker/page.jsx:45-77 | "Loose teeth"@10 plus an unknown name averages 30: not necessary, false, 30 |
| OpgScoring.BoundaryExactness | app/symptom-checker/page.jsx:58-74 | Exactly 70 is strong with score 70; exactly 40 is consider with score 40; 69.6 is consider although its score rounds to 70 |
| SymptomsCatalogue.FindFrom | app/symptom-checker/page.jsx:49 | The search from index k returns an entry with the name, and returns nothing exactly when no entry from k on has it |
| SymptomsCatalogue.Find | app/symptom-checker/page.jsx:49 | `find` by name returns an entry of the catalogue with that name, and returns nothing exactly when no entry has it |
| SymptomsCatalogue.FindFromFirst | app/symptom-checker/page.jsx:49 | A search from j reaches entry k when no entry in between has its name |
| SymptomsCatalogue.FindFirst | app/symptom-checker/page.jsx:49 | `find` returns the first entry with the name |
| SymptomsCatalogue.FindUnique | data/symptoms.js:1-12 | With distinct names, looking up any entry's name yields that entry |
| SymptomsCatalogue.CatalogueDistinct | data/symptoms.js:2-11 | The ten shipped names are pairwise distinct |
| SymptomsCatalogue.CatalogueShape | data/symptoms.js:1-12 | Ten entries, pairwise distinct names, weights in [1, 1.5], a slider and at least one condition on every entry |
| SymptomsCatalogue.CatalogueWeights | data/symptoms.js:6-9 | "Loose teeth" weighs 1.5, "Bleeding gums" 1.2, "Discoloration or dark spots" 1.5 |
| JsBuiltins.Without | app/symptom-checker/page.jsx:24 | `filter(s => s !== x)` removes every copy of x, keeps every other element with its multiplicity, and leaves a list without x unchanged |
| JsBuiltins.WithoutSingleton | app/symptom-checker/page.jsx:24 | On one element, `filter` keeps it exactly when it differs from x |
| JsBuiltins.WithoutConcat | app/symptom-checker/page.jsx:24 | Filtering a concatenation is the concatenation of the filtered parts, so the kept elements stay in their original order |
| JsBuiltins.WithoutAppended | app/symptom-checker/page.jsx:23-25 | Removing a name just appended to a list without it gives the list back |
| JsBuiltins.IndexOfFrom | app/report/page.jsx:60 | The position found is the first occurrence of the pattern at or after k; nothing is found exactly when there is none |
| JsBuiltins.ReplaceFirst | app/report/page.jsx:60 | `replace` with a string pattern: unchanged when the pattern does not occur; otherwise the text before the first occurrence, then the replacement, then the text after that occurrence |
| JsBuiltins.ReplaceEveryChar | app/report/page.jsx:127 | `replace(/ /g, '_')` keeps the length and changes exactly the matching characters |
| JsBuiltins.SliceIndex | app/report/page.jsx:289 | A bound in [0, length] is kept, one above the length becomes the length, and a negative bound counts back from the end, stopping at 0 |
| JsBuiltins.Slice | app/report/page.jsx:289 | `slice` never lengthens the list and, for in-range bounds, is the sub-list between them |
| Toggle.WithoutKeepsNoDup | app/symptom-checker/page.jsx:24 | Filtering out a name keeps a duplicate-free list duplicate-free |
| Toggle.Toggled | app/symptom-checker/page.jsx:21-25 | The name is in the result exactly when it was not in the list; other names keep their membership; an absent name is appended at the end; a present one is removed by `filter` (all copies, the rest in order); no duplicates are introduced |
| Toggle.DeselectKeepsOrder | app/symptom-checker/page.jsx:23-24 | Deselecting a name removes it and keeps the other selected names in their selection order |
| Toggle.ToggleTwice | components/SymptomChecker.jsx:10-14 | Toggling twice restores membership; it returns the list itself when the name was absent, and otherwise the list with the name moved to the end; for a duplicate-free list it is the identity exactly when the name was absent or last |
| SymptomCheckerPage.SeverityOf | app/symptom-checker/page.jsx:92 | `symptomSeverity[name] \|\| 5` is never 0, is 5 when no truthy severity is stored, uses a stored slider position as it is, and with slider severities is itself a slider position |
| SymptomCheckerPage.SeverityAfterToggle | app/symptom-checker/page.jsx:27-32 | A toggle changes at most the toggled name's entry, never changes the severity that will be submitted for it, and keeps slider severities slider severities |
| SymptomCheckerPage.SymptomsData | app/symptom-checker/page.jsx:90-93 | The submitted data lists the selected names in selection order, each with its stored severity or 5 |
| SymptomCheckerPage.SubmittedDataWellFormed | app/symptom-checker/page.jsx:90-106 | With a duplicate-free selection and slider severities, the data has exactly the selected names, severities in 1..10, a score in [0, 60] and never the strong tier |
| SymptomCheckerPage.ReselectRestoresSeverity | app/symptom-checker/page.jsx:21-32 | Deselecting keeps the stored severity, so selecting again submits the same severity |
| SymptomCheckerPage.FirstSelectionStoresDefault | app/symptom-checker/page.jsx:27-32 | Selecting a name with no stored severity stores 5 for it and nothing else |
| SymptomCheckerPage.SymptomChecker.constructor | app/symptom-checker/page.jsx:10-19 | Initial state: nothing selected, no severities, no error, no advice, score 0, no result shown |
| SymptomCheckerPage.SymptomChecker.HandleChange | app/symptom-checker/page.jsx:21-36 | The selection is toggled, stays duplicate-free, and 5 is stored exactly for a first selection without a stored severity; stored slider severities stay slider severities |
| SymptomCheckerPage.SymptomChecker.HandleSliderChange | app/symptom-checker/page.jsx:38-43 | Only the moved slider's entry changes; a value in 1..10 keeps every stored severity a slider position |
| SymptomCheckerPage.SymptomChecker.HandleSubmit | app/symptom-checker/page.jsx:79-135 | An empty selection sets "Please select at least one symptom" and sends nothing; otherwise the ordered data is sent; after a successful prediction the advice and score are those of the recommendation for that data and the result is shown; a failure sets the retry error and leaves the result alone; with slider severities the score lies in [0, 60] |
| RuleChecker.Suggestion | components/SymptomChecker.jsx:16-37 | The first-match chain; its meaning is stated by `FirstMatchWins` and `SuggestionIgnoresOrder` |
| RuleChecker.SuggestionsDistinct | components/SymptomChecker.jsx:22-34 | The six suggestion texts are pairwise different |
| RuleChecker.FirstMatchWins | components/SymptomChecker.jsx:16-37 | Each diagnosis is given exactly when its pair is selected and no earlier pair is; the empty message exactly for an empty selection; the generic advice exactly for a non-empty selection matching no pair; the suggestion is never empty |
| RuleChecker.SuggestionIgnoresOrder | components/SymptomChecker.jsx:20 | Two selections with the same members get the same suggestion |
| RuleChecker.SymptomChecker.constructor | components/SymptomChecker.jsx:7-8 | Initial state: nothing selected, empty report |
| RuleChecker.SymptomChecker.HandleChange | components/SymptomChecker.jsx:10-14 | The selection is toggled as `Toggled` describes |
| RuleChecker.SymptomChecker.GenerateReport | components/SymptomChecker.jsx:16-37 | The stored report is the first-match suggestion for the selection and is never empty |
| ReportPage.OriginalFilename | app/report/page.jsx:60 | The original image name; stated by `OriginalFilenameRemovesFirstMarker` and `OriginalOfAnnotated` |
| ReportPage.OriginalFilenameRemovesFirstMarker | app/report/page.jsx:60 | A name without "annotated_" is unchanged; otherwise only the first occurrence is cut out, the name is 10 characters shorter, and later occurrences survive shifted left |
| ReportPage.OriginalOfAnnotated | app/report/page.jsx:60 | "annotated_" followed by an uploaded name gives back the uploaded name |
| ReportPage.TitleName | app/report/page.jsx:127 | The name part of the title is never empty and, for a non-empty name, as long as the name |
| ReportPage.DocumentTitle | app/report/page.jsx:127 | The print title; its shape is stated by `DocumentTitleShape` |
| ReportPage.ReplaceFirstChar | app/report/page.jsx:127 | `replace(' ', '_')` changes exactly the first space, keeps the length, and leaves a name without a space unchanged |
| ReportPage.DocumentTitleShape | app/report/page.jsx:127 | The title splits back into "Dental_Report_", X, "_" and Y at fixed positions; X is "Patient" exactly when the name is missing, empty or "Patient", otherwise the name with only its first space turned into "_"; Y is the date with no space left and the same length |
| ReportPage.DifferentialExcerpt | app/report/page.jsx:289 | At most three conditions, none without a list, and always a prefix of the list |
| ReportPage.ExcerptIsFirstThree | app/report/page.jsx:289 | The excerpt is the first min(3, n) conditions in their original order |
| ReportPage.ParsedOrEmpty | app/report/page.jsx:43-44 | `JSON.parse(item) \|\| []` is always truthy: the parsed value when truthy, otherwise the empty list |
| ReportPage.CombinedReport | app/report/page.jsx:41-45 | The session-branch report; its fields are stated by `CombinedReportFields` |
| ReportPage.CombinedReportFields | app/report/page.jsx:41-45 | The combined report has the stored keys plus "symptoms" and "conditions"; every other stored field is kept; those two are the separately stored lists or [] |
| ReportPage.FallbackReport | app/report/page.jsx:79-86 | The image-branch report; its fields are stated by `FallbackReportFields` |
| ReportPage.FallbackReportFields | app/report/page.jsx:79-86 | A stored report is used as it is; otherwise exactly six fields, with name, age and gender from the patient data or "Patient Name", "30", "Male", the stored lists or [], and the fixed suggestion |
| ReportPage.ChooseBranch | app/report/page.jsx:36-48 | Which source the page loads from; its precedence is stated by `BranchPrecedence` |
| ReportPage.LoadedReport | app/report/page.jsx:36-93 | The report the page ends up with; stated by `BranchPrecedence` |
| ReportPage.BranchPrecedence | app/report/page.jsx:36-48 | Stored results plus a stored report win whatever the URL says, and the report then does not depend on the image requests; the image branch runs exactly otherwise when the URL names an image; a report exists only from the session or after the images loaded |

## Left out

- Network requests: the prediction request (app/symptom-checker/page.jsx:95-103) and the two image requests (app/report/page.jsx:54-64) are not modelled. Their outcomes are the boolean parameters `predictionOk` and `imagesLoaded`. The predicted conditions are not modelled; the report helpers take them as opaque JSON values.
- Session storage: reads and writes (app/symptom-checker/page.jsx:119-122, app/report/page.jsx:27-31, 75) are not modelled. A stored item is a parsed value, or `None` when absent. The report the submit step writes (app/symptom-checker/page.jsx:109-117) is not modelled.
- Malformed stored data is not modelled. The model assumes a stored report is a JSON object and a stored name a string; `JSON.parse` of bad text would throw in the page.
- Rendering, animation, the loading flag, printing, object URLs and the random report ID are UI and browser APIs, so they are not modelled.
- OpgScoring.CalculateOPGRecommendation: computes in exact reals, while JavaScript computes in IEEE doubles. The rounded score can then differ by one wherever the exact average is a half-integer: "Tooth sensitivity"@1, "Swollen gums"@3, "Pain while chewing"@7 and "Bleeding gums"@2 total exactly 70, average 17.5 and score 18 in the model, but the double sum is just below 70 and `Math.round` gives 17. Many slider inputs behave this way. Averages at or within an ulp of 40 or 70 can also fall on the other side of a tier boundary. The model promises the exact-arithmetic result.
- OpgScoring.CalculateOPGRecommendation: takes the catalogue as a parameter rather than reading the module constant. The page's call passes `SymptomsList`.
- SymptomCheckerPage.SymptomChecker.HandleChange: the source stores the default severity from inside the list-updater callback, reading the severity map of the current render. The model applies both updates in one step against the current state, so React's batching and stale closures are not captured.
- The rule-based checker imports its symptom list from `data/symptom`, and data/symptom is not part of this model. Its names are plain strings here.
- data/conditions.js is a static table that none of the modelled code reads.
- The login check and the patient-intake forms are only non-empty field checks followed by navigation, so they are not modelled.
