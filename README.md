# Center Parcs price comparator — a Dafny model of the scraper and the results page

The application fetches stay prices for the cottages of the Villages Nature
Paris domain and shows them on one page. This project models its two
working parts and proves properties of them:

- **The scraping action** (`ScraperController::scraper`). It reads an access
  token from the listing page, with a fallback pattern. It builds the
  cottage catalogue from the page's anchors, removing duplicates and filling
  in defaults. It makes one pricing call per cottage and duration, cottages
  outermost. A failing call or an unreadable date entry ends only its own
  pair. It then empties the `sejours` table and refills it by batches of
  100 rows, and reports one of four outcomes.
- **The results page** (`index.tsx`). It has the `toggle` helper and the
  five facet lists (distinct values, sorted). It filters the records
  through five filters and sorts them in one of four modes. It keeps a
  duration-range slider whose selection is posted to the scraper. It counts
  the active filters and resets them.

Modules, one per file:

- `Wrappers`: the `Option` type.
- `Seqs`: flattening of nested sequences.
- `Scan`: character classes and maximal runs.
- `PhpValues`: PHP truthiness, the `(int)` cast, `intval`, and integer
  rendering.
- `TokenExtraction`: the two `preg_match` calls. Each pattern is written as
  a declarative predicate, and a scanner is proved equal to it.
- `Catalogue`: the anchor-to-cottage step.
- `Pricing`: queries, reading the answers, and the double loop.
- `SejourStore`: `array_chunk` and the table, as a class.
- `ScraperController`: the whole action, as a function `Run` and as a method
  `Scraper` that updates the table.
- `ScraperScenario`: one run on concrete inputs.
- `PageOrder`: the string order used by `sort()` and `localeCompare`.
- `PageLists`: `toggle` and the facet lists.
- `PageDisplay`: filters, comparators, the in-place sort on an array, and
  `sejoursAffiches`.
- `PageState`: the slider class and the filter-state class.

The outside world appears as parameters:

- the listing page is a `ListingPage` value: either the failure message of
  the GET, or the HTML text together with the anchors the CSS selector
  picks;
- the pricing API is a function `api(i, j, query)`: the decoded answer to
  the call for the i-th cottage and the j-th duration;
- the request's `durees` is `Option<seq<RequestValue>>`, where `None` means
  the key is absent.

Prices are integers, in cents.

In several places the code does something other than what one would
expect at first reading. The model follows the code:

- A `durees` key that is present but holds an empty list is used as it is.
  No call is made, the table is emptied, and the run reports "0 prix".
  One might expect the default list to apply.
- The primary token capture "0" is falsy for `empty()`, so the fallback
  pattern is tried. A final token "0" is refused as missing.
- A housing code "0" is skipped like a missing one.
- A date entry without a `discount` key raises, so the rest of that pair is
  abandoned. It is not treated like a zero discount.
- Nothing forces `prix_original >= prix`. The discount comparator accepts
  any values.

## Model

| member | source | states |
|---|---|---|
| Scan.RunLength | Center-parcs-price-comparator/app/Http/Controllers/ScraperController.php:62-64 | the run read by `\s*` or `[A-Za-z0-9]+` stays inside the text, holds only characters of its class, and stops at the end or at a character outside the class |
| Scan.RunLengthIs | Center-parcs-price-comparator/app/Http/Controllers/ScraperController.php:62-64 | any in-class stretch followed by the end or an out-of-class character is exactly the maximal run |
| PhpValues.DigitsValueOfNatToString | Center-parcs-price-comparator/app/Http/Controllers/ScraperController.php:160 | the decimal digits PHP prints for n read back as n |
| PhpValues.IntCastReadsIntToString | Center-parcs-price-comparator/app/Http/Controllers/ScraperController.php:83 | `(int)` applied to a rendered integer, followed by any text that does not begin with a digit, gives back that integer, negative ones included |
| PhpValues.IntCastRoundTrip | Center-parcs-price-comparator/app/Http/Controllers/ScraperController.php:97 | `(int)` inverts PHP's integer rendering, so `intval` of a numeric string gives the integer it spells |
| PhpValues.IntCastOfNonNumeric | Center-parcs-price-comparator/app/Http/Controllers/ScraperController.php:83 | text with no sign and no digit casts to 0 |
| PhpValues.IntCast | Center-parcs-price-comparator/app/Http/Controllers/ScraperController.php:83 | PHP's `(int)` on a string: skip leading whitespace, read an optional sign and the longest digit run, 0 when there is none; it has no contract of its own, and its meaning is stated by IntCastRoundTrip, IntCastReadsIntToString and IntCastOfNonNumeric |
| PhpValues.IntVal | Center-parcs-price-comparator/app/Http/Controllers/ScraperController.php:97 | `intval` on a request scalar: an integer is kept, a string goes through `(int)`, a boolean gives 1 or 0, null gives 0; it has no contract of its own, and PostedDurationsRoundTrip states what it gives back |
| TokenExtraction.ExtractToken | Center-parcs-price-comparator/app/Http/Controllers/ScraperController.php:62-71 | a token that is returned is a non-empty alphanumeric string that PHP finds truthy |
| TokenExtraction.PrimaryAtIffMatch | Center-parcs-price-comparator/app/Http/Controllers/ScraperController.php:62 | the primary scanner succeeds at position i with t exactly when `"token"\s*:\s*"([A-Za-z0-9]+)"` matches at i with capture t |
| TokenExtraction.FallbackAtIffMatch | Center-parcs-price-comparator/app/Http/Controllers/ScraperController.php:64 | the fallback scanner succeeds at i with t exactly when `[?&]token=([A-Za-z0-9]+)` matches at i with greedy capture t |
| TokenExtraction.PregPrimaryIsLeftmost | Center-parcs-price-comparator/app/Http/Controllers/ScraperController.php:62 | the first `preg_match` captures t exactly when t is the capture of the leftmost match of the primary pattern |
| TokenExtraction.PregFallbackIsLeftmost | Center-parcs-price-comparator/app/Http/Controllers/ScraperController.php:64 | the second `preg_match` captures t exactly when t is the capture of the leftmost match of the fallback pattern |
| TokenExtraction.TokenFromPrimary | Center-parcs-price-comparator/app/Http/Controllers/ScraperController.php:62-66 | a leftmost primary capture other than "0" is the token, whatever the fallback pattern would find |
| TokenExtraction.PrimaryUnusable | Center-parcs-price-comparator/app/Http/Controllers/ScraperController.php:62-63 | the primary result is missing or "0" (so the fallback runs) exactly when every leftmost primary capture is "0" |
| TokenExtraction.FallbackUnusable | Center-parcs-price-comparator/app/Http/Controllers/ScraperController.php:64-68 | the fallback result is missing or "0" exactly when every leftmost fallback capture is "0" |
| TokenExtraction.TokenFromFallback | Center-parcs-price-comparator/app/Http/Controllers/ScraperController.php:63-66 | when the primary pattern gives nothing usable, a leftmost fallback capture other than "0" is the token |
| TokenExtraction.ExtractTokenNone | Center-parcs-price-comparator/app/Http/Controllers/ScraperController.php:62-68 | there is no token exactly when both captures are missing or "0" |
| TokenExtraction.TokenMissing | Center-parcs-price-comparator/app/Http/Controllers/ScraperController.php:62-71 | "Token introuvable" is due exactly when neither pattern has a leftmost capture other than "0" |
| Catalogue.ExtractCottages | Center-parcs-price-comparator/app/Http/Controllers/ScraperController.php:74-86 | the `each` loop that fills `$cottages` computes the catalogue `CatalogueOf` |
| Catalogue.FirstIndexOf | Center-parcs-price-comparator/app/Http/Controllers/ScraperController.php:78 | gives the first anchor carrying a code, with no earlier anchor carrying it |
| Catalogue.CatalogueKeys | Center-parcs-price-comparator/app/Http/Controllers/ScraperController.php:76-78 | a code is in the catalogue exactly when it is truthy and some anchor carries it |
| Catalogue.CatalogueFirstSeen | Center-parcs-price-comparator/app/Http/Controllers/ScraperController.php:76-86 | each cottage is described from the first anchor with its code, and cottages come in the order their codes first appear |
| Catalogue.CatalogueUniqueKeys | Center-parcs-price-comparator/app/Http/Controllers/ScraperController.php:78 | no two cottages share a housing code |
| Catalogue.DescribeDefaults | Center-parcs-price-comparator/app/Http/Controllers/ScraperController.php:79-84 | an absent type or comfort reads "Inconnu" (and only an absent one or the literal "Inconnu" does), an absent capacity reads 0, and a capacity rendered from n reads n |
| Catalogue.Describe | Center-parcs-price-comparator/app/Http/Controllers/ScraperController.php:79-84 | the entry built for an anchor carrying a code; it has no contract of its own, and its defaults are stated by DescribeDefaults |
| Catalogue.CatalogueOf | Center-parcs-price-comparator/app/Http/Controllers/ScraperController.php:76-86 | the catalogue after the closure has run over every anchor; it has no contract of its own, and it is characterized by CatalogueKeys, CatalogueFirstSeen and CatalogueUniqueKeys |
| Pricing.ReadablePrefix | Center-parcs-price-comparator/app/Http/Controllers/ScraperController.php:121-126 | counts the date entries read before the first one that raises: all before it read, and the one at it (if any) does not |
| Pricing.ReadEntry | Center-parcs-price-comparator/app/Http/Controllers/ScraperController.php:122-126 | the two prices of a date entry, or nothing when a read raises; it has no contract of its own, and what it yields is stated by ReadablePrefix, PairStopsAtFailure and RowProvenance |
| Pricing.PairRows | Center-parcs-price-comparator/app/Http/Controllers/ScraperController.php:118-141 | the rows one pair contributes; it has no contract of its own, and it is characterized by PairRowsCount, PairStopsAtFailure and AppendPairRows |
| Pricing.AllRows | Center-parcs-price-comparator/app/Http/Controllers/ScraperController.php:101-148 | every row of the double loop, cottages outermost; it has no contract of its own, and it is characterized by BuildRows, RowProvenance, RowCompleteness, FailureIsolation and AllRowsCount |
| Pricing.AllQueries | Center-parcs-price-comparator/app/Http/Controllers/ScraperController.php:101-116 | the queries issued, one per pair; it has no contract of its own, and it is characterized by CallsIssued and BuildRows |
| Pricing.PairStopsAtFailure | Center-parcs-price-comparator/app/Http/Controllers/ScraperController.php:121-145 | when entry m0 is the first that raises, the pair keeps exactly the m0 rows before it |
| Pricing.PairRowsCount | Center-parcs-price-comparator/app/Http/Controllers/ScraperController.php:118-121 | a failed call or an answer without `results.results.dates` adds no row; an answer whose entries all read adds one row per date |
| Pricing.AppendPairRows | Center-parcs-price-comparator/app/Http/Controllers/ScraperController.php:118-146 | the inner `foreach` over the dates appends exactly the pair's rows to those collected so far |
| Pricing.CollectPair | Center-parcs-price-comparator/app/Http/Controllers/ScraperController.php:103-146 | one pass issues the query for (cottage i, duration j) and appends that pair's rows |
| Pricing.CollectCottage | Center-parcs-price-comparator/app/Http/Controllers/ScraperController.php:102-147 | the loop over the durations appends cottage i's rows and queries, in duration order |
| Pricing.BuildRows | Center-parcs-price-comparator/app/Http/Controllers/ScraperController.php:99-148 | the double loop collects `AllRows` and issues `AllQueries`, cottages outermost |
| Pricing.RowProvenance | Center-parcs-price-comparator/app/Http/Controllers/ScraperController.php:101-141 | every collected row comes from a readable date entry of the answer for one cottage and duration, with that pair's fields |
| Pricing.RowCompleteness | Center-parcs-price-comparator/app/Http/Controllers/ScraperController.php:101-141 | every entry read before the first failure in any pair's answer yields a collected row |
| Pricing.PairBlocksAgreeElsewhere | Center-parcs-price-comparator/app/Http/Controllers/ScraperController.php:101-116 | changing the answer of one pair leaves the row blocks of every other pair unchanged |
| Pricing.FailingCottageBlock | Center-parcs-price-comparator/app/Http/Controllers/ScraperController.php:143-146 | inside the failing pair's cottage, that pair's rows drop out and the other durations keep theirs, in place |
| Pricing.FailureIsolation | Center-parcs-price-comparator/app/Http/Controllers/ScraperController.php:143-146 | a call that throws removes exactly its own pair's rows: the rows before and after it are those of the run where it answered |
| Pricing.AllRowsCount | Center-parcs-price-comparator/app/Http/Controllers/ScraperController.php:101-141 | when every pair yields n rows, the run collects cottages × durations × n rows |
| Pricing.CallsIssued | Center-parcs-price-comparator/app/Http/Controllers/ScraperController.php:101-116 | one call per cottage and duration, each with the constant parameters, the token, a catalogue code and a requested duration |
| SejourStore.ArrayChunk | Center-parcs-price-comparator/app/Http/Controllers/ScraperController.php:154 | `array_chunk($rows, 100)` gives ⌈n/100⌉ non-empty chunks of at most 100 rows, all but the last holding exactly 100 |
| SejourStore.ArrayChunkFlatten | Center-parcs-price-comparator/app/Http/Controllers/ScraperController.php:154-156 | the chunks laid end to end are the rows: nothing is lost, duplicated or reordered by batching |
| SejourStore.ArrayChunkLast | Center-parcs-price-comparator/app/Http/Controllers/ScraperController.php:154 | the last chunk holds n mod 100 rows, or 100 when 100 divides n |
| SejourStore.ChunksOf250 | Center-parcs-price-comparator/app/Http/Controllers/ScraperController.php:154-155 | 250 rows go in as three inserts of 100, 100 and 50 |
| SejourStore.SejourTable.Truncate | Center-parcs-price-comparator/app/Http/Controllers/ScraperController.php:151 | the table is left empty |
| SejourStore.SejourTable.Insert | Center-parcs-price-comparator/app/Http/Controllers/ScraperController.php:155 | the chunk's rows are appended in order |
| SejourStore.SejourTable.ReplaceAll | Center-parcs-price-comparator/app/Http/Controllers/ScraperController.php:151-156 | after truncating and one insert per chunk, the table holds exactly the new rows, whatever it held before |
| ScraperController.Scraper | Center-parcs-price-comparator/app/Http/Controllers/ScraperController.php:36-166 | the action's message and calls are those of `Run`; the table is rewritten with the collected rows on success and left as it was otherwise |
| ScraperController.Run | Center-parcs-price-comparator/app/Http/Controllers/ScraperController.php:36-166 | the run as a value: outcome, rows written and calls made; it has no contract of its own, and the lemmas below and Scraper state what it gives |
| ScraperController.Durations | Center-parcs-price-comparator/app/Http/Controllers/ScraperController.php:95-97 | the request's durations: the nine defaults when the key is absent, otherwise each posted value through `intval`, an empty list included; it has no contract of its own, and PostedDurationsRoundTrip and EmptyDurationsEmptyTable state its effect |
| ScraperController.SuccessMessage | Center-parcs-price-comparator/app/Http/Controllers/ScraperController.php:160 | the success report; it has no contract of its own, and SuccessMessageCount states that the count reads back from it |
| ScraperController.PostedDurationsRoundTrip | Center-parcs-price-comparator/app/Http/Controllers/ScraperController.php:95-97 | durations posted as integers or as their decimal strings are read back unchanged |
| ScraperController.WritesOnlyOnSuccess | Center-parcs-price-comparator/app/Http/Controllers/ScraperController.php:56-166 | the table is touched exactly when the run succeeds, and no pricing call is made on an error path |
| ScraperController.FetchFailureReported | Center-parcs-price-comparator/app/Http/Controllers/ScraperController.php:162-165 | the message starts with "❌ Erreur : " exactly when the page fetch failed, so no other outcome can be mistaken for it; the exception's message follows the prefix, and no call is made and nothing is written |
| ScraperController.TokenMissingStops | Center-parcs-price-comparator/app/Http/Controllers/ScraperController.php:68-71 | "Token introuvable" is reported exactly when no token is found, and then nothing is called or written |
| ScraperController.NoCottageStops | Center-parcs-price-comparator/app/Http/Controllers/ScraperController.php:88-91 | given a token, "Aucun cottage trouvé" is reported exactly when no anchor carries a truthy code |
| ScraperController.SuccessMessageCount | Center-parcs-price-comparator/app/Http/Controllers/ScraperController.php:158-160 | the success message starts with "✅ " and the number after it reads back as the row count |
| ScraperController.SuccessReport | Center-parcs-price-comparator/app/Http/Controllers/ScraperController.php:150-160 | a success implies a token and a non-empty catalogue; it reports the rows written, the cottage count and the duration count, after cottages × durations calls |
| ScraperController.EmptyDurationsEmptyTable | Center-parcs-price-comparator/app/Http/Controllers/ScraperController.php:95-160 | an explicitly empty `durees` list makes no call, empties the table and reports 0 prices |
| ScraperController.NoDurationsNothing | Center-parcs-price-comparator/app/Http/Controllers/ScraperController.php:101-148 | with no duration there is no query and no row |
| ScraperScenario.ScenarioToken | Center-parcs-price-comparator/app/Http/Controllers/ScraperController.php:62-66 | `"token":"ab"` yields the token "ab" |
| ScraperScenario.ScenarioCatalogue | Center-parcs-price-comparator/app/Http/Controllers/ScraperController.php:76-86 | three anchors with a repeated code give two cottages, with defaults for the missing attributes |
| ScraperScenario.ScenarioDurations | Center-parcs-price-comparator/app/Http/Controllers/ScraperController.php:95-97 | an integer 3 and a string "7" are read as durations 3 and 7 |
| ScraperScenario.ScenarioRows | Center-parcs-price-comparator/app/Http/Controllers/ScraperController.php:101-141 | one readable date per answer gives two rows per cottage for two durations |
| ScraperScenario.ScenarioMessage | Center-parcs-price-comparator/app/Http/Controllers/ScraperController.php:160 | the report for 4 rows, 2 cottages and 2 durations is the expected French sentence |
| ScraperScenario.Scenario | Center-parcs-price-comparator/app/Http/Controllers/ScraperController.php:36-166 | the whole run on those inputs reports "✅ 4 prix récupérés pour 2 cottages × 2 durées !" |
| PageOrder.StrLeTotal | Center-parcs-price-comparator/resources/js/pages/scraper/index.tsx:67-71 | any two strings compare one way or the other |
| PageOrder.StrLeAntisym | Center-parcs-price-comparator/resources/js/pages/scraper/index.tsx:67-71 | two strings each before the other are equal |
| PageOrder.StrLeTrans | Center-parcs-price-comparator/resources/js/pages/scraper/index.tsx:67-71 | the string order is transitive |
| PageOrder.StrLtTrichotomy | Center-parcs-price-comparator/resources/js/pages/scraper/index.tsx:67-71 | of two different strings exactly one sorts first |
| PageOrder.StrLe | Center-parcs-price-comparator/resources/js/pages/scraper/index.tsx:67-71 | character-code order on strings, standing for `sort()` and `localeCompare`; it has no contract of its own, and StrLeTotal, StrLeAntisym and StrLeTrans prove it a total order |
| PageLists.Without | Center-parcs-price-comparator/resources/js/pages/scraper/index.tsx:74 | `arr.filter(x => x !== v)` no longer contains v |
| PageLists.WithoutCounts | Center-parcs-price-comparator/resources/js/pages/scraper/index.tsx:74 | filtering drops every copy of v and keeps every other element as often as it occurs |
| PageLists.WithoutConcat | Center-parcs-price-comparator/resources/js/pages/scraper/index.tsx:74 | filtering commutes with concatenation, so kept elements stay in order |
| PageLists.WithoutAbsent | Center-parcs-price-comparator/resources/js/pages/scraper/index.tsx:74 | filtering out an absent value changes nothing |
| PageLists.Toggle | Center-parcs-price-comparator/resources/js/pages/scraper/index.tsx:73-75 | v is in the result exactly when it was not in the list; a present v is removed with every copy, an absent one appended at the end |
| PageLists.ToggleRoundTrip | Center-parcs-price-comparator/resources/js/pages/scraper/index.tsx:73-75 | toggling an unselected value twice restores the list |
| PageLists.InsertStr | Center-parcs-price-comparator/resources/js/pages/scraper/index.tsx:67-68 | adding a string to a strictly sorted list keeps it strictly sorted and adds exactly that string |
| PageLists.InsertInt | Center-parcs-price-comparator/resources/js/pages/scraper/index.tsx:69-70 | adding a number to a strictly increasing list keeps it strictly increasing and adds exactly that number |
| PageLists.StrFacet | Center-parcs-price-comparator/resources/js/pages/scraper/index.tsx:67-68 | `[...new Set(values)].sort()` is strictly sorted and holds exactly the values present |
| PageLists.IntFacet | Center-parcs-price-comparator/resources/js/pages/scraper/index.tsx:69-70 | `[...new Set(values)].sort((a, b) => a - b)` is strictly increasing and holds exactly the values present |
| PageLists.StrictlySortedStrUnique | Center-parcs-price-comparator/resources/js/pages/scraper/index.tsx:67-71 | a strictly sorted string list is determined by its elements, so the facet is the only such list |
| PageLists.StrictlySortedIntUnique | Center-parcs-price-comparator/resources/js/pages/scraper/index.tsx:69-70 | a strictly increasing number list is determined by its elements |
| PageDisplay.ComfortFacet | Center-parcs-price-comparator/resources/js/pages/scraper/index.tsx:67 | `allComforts` is strictly sorted and offers exactly the comfort levels present |
| PageDisplay.TypeFacet | Center-parcs-price-comparator/resources/js/pages/scraper/index.tsx:68 | `allTypes` is strictly sorted and offers exactly the types present |
| PageDisplay.PersonnesFacet | Center-parcs-price-comparator/resources/js/pages/scraper/index.tsx:69 | `allPersonnes` is strictly increasing and offers exactly the capacities present |
| PageDisplay.DureeFacet | Center-parcs-price-comparator/resources/js/pages/scraper/index.tsx:70 | `allDurees` is strictly increasing and offers exactly the durations present |
| PageDisplay.DateFacet | Center-parcs-price-comparator/resources/js/pages/scraper/index.tsx:71 | `allDates` is strictly sorted and offers exactly the arrival dates present |
| PageDisplay.SelectCount | Center-parcs-price-comparator/resources/js/pages/scraper/index.tsx:80-84 | one `filter` keeps each record exactly as often as it occurs when it matches, and drops it otherwise |
| PageDisplay.SelectConcat | Center-parcs-price-comparator/resources/js/pages/scraper/index.tsx:80-84 | filtering commutes with concatenation, so it keeps the records' order |
| PageDisplay.KeepCount | Center-parcs-price-comparator/resources/js/pages/scraper/index.tsx:80-84 | a filter step keeps each record exactly as often as it occurs when its list is empty or contains the record's value, and drops it otherwise |
| PageDisplay.Keep | Center-parcs-price-comparator/resources/js/pages/scraper/index.tsx:80-84 | one filter line: the records pass untouched when the list is empty, and are filtered otherwise; it has no contract of its own, and KeepCount characterizes it |
| PageDisplay.Filtered | Center-parcs-price-comparator/resources/js/pages/scraper/index.tsx:77-84 | the five filter lines in order; it has no contract of its own, and FilteredCount and DisplayedRecords characterize it |
| PageDisplay.FilteredCount | Center-parcs-price-comparator/resources/js/pages/scraper/index.tsx:77-84 | after the five steps, each record occurs as often as in the input if it passes every non-empty filter, and not at all otherwise |
| PageDisplay.NoFilterKeepsAll | Center-parcs-price-comparator/resources/js/pages/scraper/index.tsx:80-84 | with every filter list empty, the filter chain returns the input unchanged |
| PageDisplay.Discount | Center-parcs-price-comparator/resources/js/pages/scraper/index.tsx:91-92 | the discount ratio is a fraction with a positive denominator equal to `(prix_original - prix) / prix_original`, that is `1 - prix / prix_original`, when the original price is non-zero, and 0 when it is null or 0 |
| PageDisplay.InOrderTotal | Center-parcs-price-comparator/resources/js/pages/scraper/index.tsx:86-97 | each of the four comparators orders any two records one way or the other |
| PageDisplay.DiscountLeTrans | Center-parcs-price-comparator/resources/js/pages/scraper/index.tsx:90-95 | comparing discount ratios is transitive |
| PageDisplay.SortSejours | Center-parcs-price-comparator/resources/js/pages/scraper/index.tsx:86-97 | `result.sort(comparator)` on the copied array leaves it in comparator order and a permutation of what it held |
| PageDisplay.InsertLast | Center-parcs-price-comparator/resources/js/pages/scraper/index.tsx:86-97 | one insertion step extends the sorted prefix by one record and permutes the array |
| PageDisplay.SwapNeighbours | Center-parcs-price-comparator/resources/js/pages/scraper/index.tsx:86-97 | two neighbouring records are exchanged and nothing else changes |
| PageDisplay.SwapKeepsOrder | Center-parcs-price-comparator/resources/js/pages/scraper/index.tsx:86-97 | swapping the moved record past a neighbour the comparator puts after it keeps the prefix in order except just before it, and is a permutation |
| PageDisplay.SejoursAffiches | Center-parcs-price-comparator/resources/js/pages/scraper/index.tsx:77-100 | the display is a permutation of the filtered records, in comparator order; the input list is not changed |
| PageDisplay.DisplayedRecords | Center-parcs-price-comparator/resources/js/pages/scraper/index.tsx:77-84 | a record is shown exactly when it is in the input and passes every non-empty filter; with no filter the display is a permutation of the input |
| PageDisplay.PrixAscSorted | Center-parcs-price-comparator/resources/js/pages/scraper/index.tsx:87 | in 'prix_asc' mode prices never decrease along the display |
| PageDisplay.PrixDescSorted | Center-parcs-price-comparator/resources/js/pages/scraper/index.tsx:88 | in 'prix_desc' mode prices never increase along the display |
| PageDisplay.DateAscSorted | Center-parcs-price-comparator/resources/js/pages/scraper/index.tsx:89 | in 'date_asc' mode arrival dates are in string order along the display |
| PageDisplay.RemiseSorted | Center-parcs-price-comparator/resources/js/pages/scraper/index.tsx:90-95 | in 'remise' mode discount ratios never increase along the display |
| PageState.DureesBetween | Center-parcs-price-comparator/resources/js/pages/scraper/index.tsx:58 | `DUREES.slice(minIdx, maxIdx + 1)` is non-empty, made of consecutive entries of `DUREES` from `DUREES[minIdx]` to `DUREES[maxIdx]`, and strictly increasing |
| PageState.CallEstimateCountsCalls | Center-parcs-price-comparator/resources/js/pages/scraper/index.tsx:188 | the controller makes one call per cottage and selected duration, so the announced `~N appels` equals the calls made exactly when the catalogue holds 22 cottages |
| PageState.Payload | Center-parcs-price-comparator/resources/js/pages/scraper/index.tsx:192 | the posted `durees` carries each selected duration, in order, as an integer |
| PageState.PostedRangeReachesController | Center-parcs-price-comparator/resources/js/pages/scraper/index.tsx:192 | the controller runs exactly the durations the sliders selected |
| PageState.FullRangeIsDefault | Center-parcs-price-comparator/resources/js/pages/scraper/index.tsx:18-20 | the untouched slider posts the controller's own default list, so the run is the same as with no `durees` key |
| PageState.DurationSlider.constructor | Center-parcs-price-comparator/resources/js/pages/scraper/index.tsx:56-57 | the sliders start at the two ends of the range |
| PageState.DurationSlider.SetMin | Center-parcs-price-comparator/resources/js/pages/scraper/index.tsx:160-161 | the min position becomes `Math.min(v, maxIdx)`, the max stays, and `0 <= minIdx <= maxIdx <= MAX_IDX` still holds |
| PageState.DurationSlider.SetMax | Center-parcs-price-comparator/resources/js/pages/scraper/index.tsx:166-167 | the max position becomes `Math.max(v, minIdx)`, the min stays, and the range stays valid |
| PageState.DurationSlider.Launch | Center-parcs-price-comparator/resources/js/pages/scraper/index.tsx:192 | the button posts `dureesScraping`, and the controller reads those durations back |
| PageState.ActiveFilters | Center-parcs-price-comparator/resources/js/pages/scraper/index.tsx:111 | `nbFiltresActifs` is 0 exactly when all five filter lists are empty |
| PageState.NoActiveFilterShowsAll | Center-parcs-price-comparator/resources/js/pages/scraper/index.tsx:111 | with no active filter every record passes the filter chain |
| PageState.FilterState.constructor | Center-parcs-price-comparator/resources/js/pages/scraper/index.tsx:60-65 | every filter starts empty and the sort starts at 'prix_asc' |
| PageState.FilterState.ToggleComfort | Center-parcs-price-comparator/resources/js/pages/scraper/index.tsx:240 | a comfort pill toggles its value in the comfort list and changes nothing else |
| PageState.FilterState.ToggleType | Center-parcs-price-comparator/resources/js/pages/scraper/index.tsx:252 | a type pill toggles its value in the type list and changes nothing else |
| PageState.FilterState.TogglePersonnes | Center-parcs-price-comparator/resources/js/pages/scraper/index.tsx:264 | a capacity pill toggles its value in the capacity list and changes nothing else |
| PageState.FilterState.ToggleDuree | Center-parcs-price-comparator/resources/js/pages/scraper/index.tsx:276 | a duration pill toggles its value in the duration list and changes nothing else |
| PageState.FilterState.ToggleDate | Center-parcs-price-comparator/resources/js/pages/scraper/index.tsx:290 | a date pill toggles its value in the date list and changes nothing else |
| PageState.FilterState.SetTri | Center-parcs-price-comparator/resources/js/pages/scraper/index.tsx:221 | a sort button sets the mode and leaves the filters alone |
| PageState.FilterState.Reset | Center-parcs-price-comparator/resources/js/pages/scraper/index.tsx:102-109 | `resetFiltres` empties every list and sets 'prix_asc', so the count is 0 and every record passes |
| PageState.FilterState.Displayed | Center-parcs-price-comparator/resources/js/pages/scraper/index.tsx:77-100 | the records shown for the current state are a permutation of the filtered records, in the selected order |

## Left out

- The HTTP client: headers, TLS, timeout, and the two GET requests. The listing page and the pricing answers are inputs of the model.
- `json_decode` and JSON values. An answer is given already decoded, down to the keys the loop reads; a body that is not JSON counts as an answer without `results.results.dates`.
- DomCrawler's CSS selection. The model receives the selected anchors in document order, with each attribute present or absent.
- Floating point. Prices are integers in cents, so the `(float)` casts of lines 123-125 change nothing, and `decimal(8,2)` bounds the stored values.
- PhpValues.IntCast: leaves out exponents ("1e3"), hexadecimal-looking text, and saturation at the 64-bit limits. Capacities and durations are small.
- The timestamps (`now()`), the auto-increment id, and database failures. A failure partway through the inserts, leaving a partly filled table, is not modelled.
- A `durees` value that is not an array. `array_map` then throws a `TypeError`, which is an `Error` and not an `Exception`, so the `catch` does not handle it. The request ends in an uncaught error, before the truncate, so the table is untouched.
- PhpValues.IntVal: `RequestValue` has no float and no array variant, so `intval(3.7) == 3` is not modelled. Neither is a `durees` list holding arrays, which does not raise: `intval` gives 0 for an empty array and 1 for a non-empty one, and the run goes on with those durations.
- The `index()` action and its ordering of the records. The page receives the records as a list.
- PageDisplay.SortSejours: does not state that the JavaScript sort is stable. The proof covers sortedness and permutation only.
- PageOrder.StrLe: `localeCompare` and the default `sort()` are taken as plain character-code order. This holds for the ISO dates and ASCII labels the page shows; locale collation rules are not modelled.
- PageDisplay.Discount: the ratio is compared exactly, as a fraction. The page computes it in floating point.
- PageState.DurationSlider.SetMin: the range input keeps `v` between 0 and `MAX_IDX`. This is a precondition here, and SetMax has the same one.
- The JSX rendering: the pills, the percentage rounding, date formatting, and the flash messages.
