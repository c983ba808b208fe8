# TravelBloom search core in Dafny

TravelBloom is a travel-recommendation page. It loads a JSON dataset of
countries (each with cities), temples and beaches. It flattens the dataset
into one list of display records (`buildSearchList`) and answers a typed
query (`handleSearch`). The query is trimmed and lower-cased. An empty query
is rejected, and a query that arrives before the dataset has loaded is
deferred. The keywords beach/beaches, temple/temples and country/countries
select one record type. Any other text keeps the records whose lower-cased
`name + " " + description` contains it.

This project models that core in `travel_recommendation.js`:

- `wrappers.dfy`: `Option`.
- `text.dfy`: module `Text`. It models `String.prototype.trim` over the exact
  ECMAScript white-space and line-terminator set, `toLowerCase` restricted to
  ASCII letters, and `String.prototype.includes` (`Contains`). It proves
  `Contains` equivalent to "occurs at some index" (`Occurs`).
- `catalog.dfy`: module `Catalog`. It holds the raw dataset shape, where
  absent collections are `None`, and the display record `Item`. `SearchList`
  is the functional specification of the flattened list. `BuildSearchList`
  is the imperative method with the source's loops (the country loop with its nested city loop, then the temple and beach loops), proved equal
  to `SearchList`. Lemmas place every country, city, temple and beach record
  at its index.
- `query.dfy`: module `Query`. It covers normalisation, the keyword table
  (`CriterionFor`), `Array.prototype.filter` (`Filter`) and the outcome of a
  search (`Search`: empty query, not loaded, or results), with lemmas for
  each branch. Module `Feedback` covers the status line left on screen.
- `scenario.dfy`: a worked example with one country (India, cities Delhi and
  Mumbai), one temple and one beach.

A query typed before the data has arrived starts a reload and, if the reload
succeeds, searches once more. Here that query ends in the outcome `NotLoaded`.

## Model

| member | source | states |
|---|---|---|
| Catalog.SearchList | travel_recommendation.js:40-84 | the flattened list as a value; its contents are stated by `SearchListLength`, the four `*RecordAt` lemmas and `KindLayout`, and `BuildSearchList` is proved equal to it |
| Text.Trim | travel_recommendation.js:148 | `String.prototype.trim`; stated by `TrimEmptyIff`, `TrimIsTrimmed` and `TrimIgnoresPadding` |
| Text.Lower | travel_recommendation.js:148 | `toLowerCase` on ASCII letters; stated by `LowerEqualIff`, `LowerAppend` and `LowerTrimCommute` |
| Text.Contains | travel_recommendation.js:191-192 | `String.prototype.includes`; stated by `ContainsIff` against the independent `Occurs` |
| Query.NormalizeQuery | travel_recommendation.js:148 | `trim().toLowerCase()`; stated by `NormalizedEmptyIff`, `NormalizeIdempotent`, `PaddingIgnored` and `CaseIgnored` |
| Query.CriterionFor | travel_recommendation.js:175-194 | the keyword table: the three keyword pairs pick a type filter and any other query a substring filter; stated by `BeachQuery`, `TempleQuery`, `CountryQuery` and `GeneralQuery` |
| Query.Filter | travel_recommendation.js:176-193 | `Array.prototype.filter` as used at lines 176, 179, 186 and 190; stated by `FilterIsSubsequence`, `FilterMembership` and `FilterMultiplicity` |
| Query.Search | travel_recommendation.js:148-197 | the outcome of `handleSearch`; each exit is stated by `EmptyQueryFirst`, `NotLoadedIff`, `BeachQuery`, `TempleQuery`, `CountryQuery` and `GeneralQuery` |
| Feedback.RenderStatus | travel_recommendation.js:104-110 | the status `renderResults` writes: "No results found" for an empty list, otherwise the count; stated by `StatusReportsOutcome` |
| Feedback.StatusAsWritten | travel_recommendation.js:152-156 | the status left on screen as the code is written; stated by `EmptyQueryMessageLost` |
| Feedback.Status | travel_recommendation.js:152-156 | the status with the validation message kept; stated by `StatusReportsOutcome` |
| Catalog.BuildSearchList | travel_recommendation.js:40-84 | the list built by the country loop with its nested city loop, then the temple and beach loops, equals `SearchList`: every country followed by its cities, then the temples, then the beaches; an absent collection counts as empty |
| Catalog.PushCountry | travel_recommendation.js:44-61 | one pass of the country loop appends the country record followed by that country's city records |
| Catalog.PushPlaces | travel_recommendation.js:64-81 | one push loop appends one record per place of the collection, in order, tagged with the loop's type |
| Catalog.PlaceItems | travel_recommendation.js:53-81 | each place becomes exactly one record, at the same position, with its name, image and description copied unchanged |
| Catalog.CountriesItemsLength | travel_recommendation.js:44-61 | the country part of the list has one record per country plus one per city |
| Catalog.SearchListLength | travel_recommendation.js:40-84 | the flattened list has exactly one record per country, city, temple and beach |
| Catalog.CountryBlockAt | travel_recommendation.js:44-61 | country i and its cities occupy a contiguous block starting after all earlier countries and their cities |
| Catalog.CountryRecordAt | travel_recommendation.js:46-51 | the country record has type country, the country's name, its image or "" when it has none, and the description "Explore top destinations in NAME." |
| Catalog.CityRecordAt | travel_recommendation.js:53-59 | city j of country i sits right after the country record, typed city, with name, image and description copied |
| Catalog.TempleRecordAt | travel_recommendation.js:64-71 | temple t sits at index (countries + cities + t), typed temple, with fields copied |
| Catalog.BeachRecordAt | travel_recommendation.js:74-81 | beach b sits at index (countries + cities + temples + b), typed beach, with fields copied |
| Catalog.KindLayout | travel_recommendation.js:43-81 | a record's type determines its region of the list, in both directions: country/city first, temples next, beaches last |
| Text.TrimEmptyIff | travel_recommendation.js:148 | trimming yields the empty string exactly when the input is all white space |
| Text.TrimIsTrimmed | travel_recommendation.js:148 | a trimmed string neither starts nor ends with white space |
| Text.TrimIgnoresPadding | travel_recommendation.js:148 | white-space padding on either side does not change the trimmed string |
| Text.LowerEqualIff | travel_recommendation.js:148 | two strings lower to the same text exactly when they have equal length and agree at each position up to ASCII letter case |
| Text.LowerAppend | travel_recommendation.js:191 | lowering distributes over concatenation |
| Query.SearchTextParts | travel_recommendation.js:191 | the text a general query searches is the lowered name, one space, and the lowered description |
| Text.LowerTrimCommute | travel_recommendation.js:148 | trimming then lowering equals lowering then trimming |
| Text.ContainsIff | travel_recommendation.js:191-192 | the substring test holds exactly when the pattern occurs at some index of the text |
| Query.NormalizedEmptyIff | travel_recommendation.js:148-152 | the normalised query is empty exactly when the raw input is all white space |
| Query.EmptyQueryFirst | travel_recommendation.js:152-156 | an all-white-space input gives the empty-query outcome whether or not data is loaded, and only such input does |
| Query.NotLoadedIff | travel_recommendation.js:158-166 | the not-loaded outcome occurs exactly when the query is non-empty and no dataset is present |
| Query.NormalizeIdempotent | travel_recommendation.js:148 | normalising a normalised query changes nothing |
| Query.PaddingIgnored | travel_recommendation.js:148 | white-space padding around the input never changes the outcome |
| Query.CaseIgnored | travel_recommendation.js:148 | inputs that agree after lowering give the same outcome |
| Query.PaddedUpperCaseBeach | travel_recommendation.js:148-176 | " BEACH " and "beach" give the same outcome |
| Query.FilterIsSubsequence | travel_recommendation.js:176-193 | a filter's result is a subsequence of its input: the kept records stay in their original order |
| Query.FilterMembership | travel_recommendation.js:176-193 | an item is in the filtered list exactly when it is in the input and accepted |
| Query.FilterMultiplicity | travel_recommendation.js:176-193 | an accepted item keeps all its duplicates, a rejected one keeps none |
| Query.KindFiltersDisjoint | travel_recommendation.js:175-186 | two different type filters share no record |
| Query.BeachQuery | travel_recommendation.js:175-176 | "beach" or "beaches" returns exactly the beach records, in dataset order |
| Query.TempleQuery | travel_recommendation.js:178-179 | "temple" or "temples" returns exactly the temple records, in dataset order |
| Query.CountryQuery | travel_recommendation.js:181-186 | "country" or "countries" returns one record per country, in order, and no city |
| Query.CategoryResultsDisjoint | travel_recommendation.js:175-186 | the beach, temple and country searches return pairwise disjoint records |
| Query.GeneralQuery | travel_recommendation.js:188-193 | any other non-empty query returns, in order and with duplicates, exactly the records whose lower-cased name + " " + description contains it |
| Feedback.EmptyQueryMessageLost | travel_recommendation.js:152-156 | as written, and with the page's `#results` and `#statusText` elements present, the input " " ends with "No results found", and no input ever leaves "Please enter a valid search query." on screen |
| Feedback.StatusReportsOutcome | travel_recommendation.js:104-110 | with the corrected order, the validation message appears exactly for blank input, the waiting message exactly when no data is loaded, "No results" exactly for an empty result list, and otherwise the result count |
| Scenario.SampleList | travel_recommendation.js:40-84 | the sample dataset flattens to India, Delhi, Mumbai, the temple and the beach, in that order |
| Scenario.ScenarioBeaches | travel_recommendation.js:175-176 | "beaches" over the sample returns just the beach record |
| Scenario.ScenarioCountry | travel_recommendation.js:181-186 | "country" over the sample returns just the India record, not its cities |
| Scenario.ScenarioEmpty | travel_recommendation.js:152-156 | the empty query gives the empty-query outcome and, corrected, the validation message |

## Left out

- `loadData` is not modelled: the fetch, JSON parsing, console logging and status updates are I/O. A loaded dataset is a parameter (`Some(d)`), and a missing one is `None`.
- The retry after a not-loaded query is timer and network driven, and only the resulting `NotLoaded` outcome is modelled. In the code (lines 162-164 with 28-35), a failed reload is rethrown, so the search is not retried at all. A successful reload re-runs `handleSearch` once after 500 ms with the data set. The search repeats only when the document parses to `false`, `0` or `""`; a `null` document throws at line 17 and is not retried either.
- `renderResults` builds HTML cards in the DOM. Only its choice of status line is modelled (`Feedback.RenderStatus`).
- Reset handling, event wiring, scrolling and the page bootstrap are DOM plumbing, not search logic.
- `toLowerCase` is modelled for ASCII letters only. Full Unicode case mapping, including mappings that change length, is not modelled. `trim` uses the exact ECMAScript white-space set.
- Strings are sequences of Dafny `char`, not UTF-16 code units, so surrogate pairs are not modelled.
- Country names and the name, image and description of cities, temples and beaches are required strings in the model. A missing country image is modelled as "". A missing `name` or `description` is not modelled. JavaScript's template literals would render it as "undefined" (lines 127-128 and 191), and a missing country name gives "Explore top destinations in undefined." (line 50). A missing city, temple or beach `imageUrl` is not modelled either. It is falsy, so lines 118-122 would show the "No image" placeholder.
- The dataset is assumed to have the documented shape. Two cases are not modelled. A `null` country, city, temple or beach entry throws a TypeError at line 48, 56, 67 or 77. A collection that is truthy but not iterable throws in the `for…of` at line 44, 53, 64 or 74. `handleSearch` has no catch, so such a search aborts and leaves the status line unchanged.
- The page is assumed to have its `#results` and `#statusText` elements. The early returns of `renderResults` at lines 92-100 are not modelled. Without `#results`, the empty-query branch's validation message from line 153 would stay on screen.
- The worked example has no lemma for a general query such as "delhi" or "zz-nomatch-zz". `Query.GeneralQuery` states substring matching for every dataset and query.

## Findings

| source | as written | input that shows it | evidently intended | confidence | as-written member | corrected member |
|---|---|---|---|---|---|---|
| travel_recommendation.js:152-156, 104-105 | the empty-query branch sets "Please enter a valid search query." and then calls `renderResults([])`, which, with `#results` and `#statusText` present, overwrites it with "No results found. Try another keyword." | the input " " (or "") | the validation message stays on screen for an empty query | not executed | Feedback.EmptyQueryMessageLost | Feedback.StatusReportsOutcome |

The as-written behaviour is `Feedback.StatusAsWritten`, and the corrected one is `Feedback.Status`.
