# Study search on the DICOM viewer dashboard

The dashboard of the JointWise DICOM viewer holds two lists of imaging
studies. `studies` is the full list. `filteredStudies` is the list on
screen. Both start as four demonstration studies. Submitting the search
form calls `handleSearch(query)`:

- If `query.trim()` is empty, the full list is shown again.
- Otherwise the page shows every study whose patient name, patient ID or
  study description contains the query. Both sides are lower-cased first,
  and the studies keep their original order.

The header reads "N of M studies". An empty shown list gives the
"No studies found" state.

The model has six modules:

- `JsString` models the three JavaScript string operations the search
  uses: `toLowerCase`, `trim` (over the ECMAScript white-space and
  line-terminator set) and `includes`. `includes` is a left-to-right scan,
  proved equal to "occurs as a substring".
- `Subsequences` defines an order-preserving selection of positions. This
  is what `Array.prototype.filter` returns, described without any
  predicate.
- `DicomTypes` is the `DicomStudy` record (src/types/dicom.ts:1-11) as the
  datatype `DicomTypes.Study`, field for field.
- `StudySearch` holds the blank test, the match predicate, the filter and
  `StudySearch.Search`, the list `handleSearch` shows, each with a contract
  saying what it means, and lemmas about them:
  - soundness and completeness;
  - the result is an in-order selection;
  - the blank query;
  - case-insensitivity.
- `MockData` holds the four demonstration studies (src/app/page.tsx:9-54)
  as the constant `MockData.MockStudies`, and facts about their lower-cased
  fields.
- `DashboardPage` holds the page state as a class. `HandleSearch` replaces
  only the shown list, and the shown list always stays an in-order
  selection of the full list. The module also proves what the
  demonstration queries find.

## Model

| member | source | states |
|---|---|---|
| JsString.ToLowerChar | src/app/page.tsx:131-133 | lower-casing a character maps 'A'..'Z' to 'a'..'z' at the fixed ASCII offset, leaves every other character alone, and never yields a capital |
| JsString.ToLower | src/app/page.tsx:131-133 | lower-casing a string keeps its length, turns every capital 'A'..'Z' into its small letter at the fixed ASCII offset, leaves no capital letter, and keeps every character that is not a capital in its place |
| JsString.ToLowerIdempotent | src/app/page.tsx:131-133 | lower-casing an already lower-cased query or field changes nothing |
| JsString.ToLowerKeepsWhitespace | src/app/page.tsx:125 | lower-casing a string keeps it all white space exactly when it was all white space, so a query and its lower-cased form are blank together |
| JsString.TrimStart | src/app/page.tsx:125 | leading trim returns a suffix of the string: what it drops is all white space, and what it keeps does not start with white space |
| JsString.TrimEnd | src/app/page.tsx:125 | trailing trim returns a prefix of the string: what it drops is all white space, and what it keeps does not end with white space |
| JsString.Trim | src/app/page.tsx:125 | `trim` returns a contiguous middle slice of its input with only white space before and after it; it gives the empty string exactly when every character is white space (the empty string included), the falsy test of the blank check, and otherwise its result starts and ends with a character that is not white space |
| JsString.AgreesFromIffSlice | src/app/page.tsx:131-133 | the character-by-character comparison at a position succeeds exactly when the slice of the field there equals the rest of the query |
| JsString.IncludesFromIffOccurs | src/app/page.tsx:131-133 | the scan from position i succeeds exactly when the query occurs at some position at or after i |
| JsString.Includes | src/app/page.tsx:131-133 | `includes` holds exactly when the query occurs in the field as a contiguous substring, in both directions, the empty query included |
| JsString.MissingCharNotIncluded | src/app/page.tsx:131-133 | if the field lacks one of the query's characters, `includes` is false |
| JsString.MissingPairNotIncluded | src/app/page.tsx:131-133 | if two adjacent query characters never stand side by side in the field, `includes` is false |
| Subsequences.Select | src/app/page.tsx:130-134 | selecting positions of a list yields no more elements than the list, each taken from the list |
| Subsequences.SelectAll | src/app/page.tsx:127 | selecting every position gives the list back unchanged |
| Subsequences.SubsequenceReflexive | src/app/page.tsx:121-122 | the full list is an in-order selection of itself, which is the state both lists start in |
| Subsequences.SubsequenceLength | src/app/page.tsx:154 | an in-order selection is never longer than the list it is taken from |
| StudySearch.IsBlankQuery | src/app/page.tsx:125 | the query counts as blank (`!query.trim()`) exactly when it is all white space |
| StudySearch.Matches | src/app/page.tsx:131-133 | the filter's predicate holds exactly when the lower-cased query is a substring of the lower-cased patient name, patient ID or study description |
| StudySearch.Search | src/app/page.tsx:124-136 | the list `handleSearch` shows: an all-white-space query gives the full list unchanged; any other query gives exactly the studies that match it, in their original order, with the query used untrimmed |
| StudySearch.Filter | src/app/page.tsx:130-134 | the filtered list is no longer than the input, and every study in it matches the query in name, ID or description |
| StudySearch.FilterIsSelection | src/app/page.tsx:130-134 | the filter keeps exactly the positions whose study matches, and keeps them in order |
| StudySearch.FilterMembership | src/app/page.tsx:130-134 | a study is in the filtered list exactly when it is in the input and matches the query (soundness and completeness) |
| StudySearch.SearchMembership | src/app/page.tsx:124-136 | a study is shown exactly when it is in the full list and the query is blank or matches it |
| StudySearch.SearchIsSubsequence | src/app/page.tsx:124-136 | the shown list is an in-order selection of the full list, so it is never longer |
| StudySearch.FilterIgnoresCase | src/app/page.tsx:130-134 | two queries with the same lower-cased form filter any list identically |
| StudySearch.SearchIgnoresCase | src/app/page.tsx:124-136 | two queries with the same lower-cased form show the same list, the blank case included |
| MockData.MockQueriesLowered | src/app/page.tsx:131-133 | "CT", "demo" and " CT " lower-case to "ct", "demo" and " ct " |
| MockData.MockStudy1Lowered | src/app/page.tsx:10-20 | the searched fields of study "1" lower-case to "john doe", "pat001" and "chest x-ray" |
| MockData.MockStudy2Lowered | src/app/page.tsx:21-31 | the searched fields of study "2" lower-case to "jane smith", "pat002" and "ct abdomen" |
| MockData.MockStudy3Lowered | src/app/page.tsx:32-42 | the searched fields of study "3" lower-case to "robert johnson", "pat003" and "mri brain" |
| MockData.MockStudy4Lowered | src/app/page.tsx:43-53 | the searched fields of study "4" lower-case to "emily davis", "pat004" and "ultrasound abdomen" |
| MockData.MockStudy1Includes | src/app/page.tsx:10-20 | neither "ct" nor "demo" occurs in any lower-cased searched field of study "1" |
| MockData.MockStudy2Includes | src/app/page.tsx:21-31 | "ct" occurs in study "2"'s description and in none of its other searched fields; "demo" occurs in none of them |
| MockData.MockStudy3Includes | src/app/page.tsx:32-42 | neither "ct" nor "demo" occurs in any lower-cased searched field of study "3" |
| MockData.MockStudy4Includes | src/app/page.tsx:43-53 | neither "ct" nor "demo" occurs in any lower-cased searched field of study "4" |
| MockData.MockStudy2IncludesPadded | src/app/page.tsx:21-31 | " ct ", spaces included, occurs in no lower-cased searched field of study "2" |
| DashboardPage.Dashboard.constructor | src/app/page.tsx:121-122 | both lists start as the four demonstration studies, and the page invariant holds |
| DashboardPage.Dashboard.HandleSearch | src/app/page.tsx:124-136 | the full list is unchanged, the shown list becomes `StudySearch.Search` of the full list and the query, only the shown list is written, and the shown list stays an in-order selection of the full list |
| DashboardPage.Dashboard.Header | src/app/page.tsx:154 | the header's two counts are the lengths of the shown and full lists, and the first never exceeds the second |
| DashboardPage.MockMatchesCt | src/app/page.tsx:9-54 | of the demonstration studies, "CT" matches study "2" only |
| DashboardPage.MockMatchesDemo | src/app/page.tsx:9-54 | "demo" matches none of the demonstration studies |
| DashboardPage.MockSearchCt | src/app/page.tsx:124-136 | searching the demonstration studies for "CT" shows exactly Jane Smith's CT Abdomen study |
| DashboardPage.MockSearchDemo | src/app/page.tsx:163-166 | searching the demonstration studies for "demo" shows an empty list, the "No studies found" state |
| DashboardPage.MockStudy2MatchesCt | src/app/page.tsx:131-133 | study "2" matches "CT" but not " CT " |
| DashboardPage.PaddedCtNotBlank | src/app/page.tsx:125 | " CT " is not a blank query |
| DashboardPage.MockSearchKeepsSpaces | src/app/page.tsx:124-136 | trim only decides blankness: " CT ", searched for with its spaces, finds nothing in study "2", the study `DashboardPage.MockSearchCt` shows "CT" finds |
| DashboardPage.MockSearchBlank | src/app/page.tsx:125-128 | a query of spaces and a tab shows the demonstration studies unchanged |

## Left out

- JsString.ToLowerChar: lower-cases the ASCII letters 'A' to 'Z' only. JavaScript's `toLowerCase` follows the full Unicode case mapping, including non-ASCII letters and characters that lower-case to several characters. Every demonstration field and query is ASCII, so the demonstration results are unaffected.
- JsString.ToLower: inherits the ASCII-only mapping of `JsString.ToLowerChar`.
- Strings are sequences of Unicode scalar values. JavaScript strings are UTF-16 code units, so a character outside the Basic Multilingual Plane counts as one element here and two in JavaScript. Whether a query occurs in a field is the same either way for well-formed strings. A JavaScript string may also hold a lone surrogate, which a Dafny string cannot represent, so such strings are outside the model.
- DashboardPage.MockSearchKeepsSpaces: the " CT " query is checked against study "2" alone, not the whole demonstration list. The general fact that a non-blank query is matched untrimmed is stated for every list by the contract of `StudySearch.Search`.
- React state updates are asynchronous: `setFilteredStudies` takes effect at the next render. The model assigns the field directly.
- `setStudies` is never called in the page, so nothing in the model writes `studies` after construction.
- The search form only forwards its text box's current value to `handleSearch`. The form and its input state are represented by `HandleSearch`'s parameter.
- Rendering is left out: the study cards, the JSX layout and the `toLocaleDateString` date formatting, which depends on the host's locale.
- The study viewer is left out: the viewer page, its canvas drawing, the zoom held as floating-point numbers, the timer-driven loading and tool selection.
- Navigation (`handleViewStudy` and the URL parameters it builds) is left out. It makes a router call and does not touch the lists.
- The `DicomSeries`, `DicomImage` and `ViewerSettings` records are not used by the dashboard and are left out.
- `seriesCount` and `imageCount` are JavaScript numbers. They are modelled as natural numbers because the search never reads them.
