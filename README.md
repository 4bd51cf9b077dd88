# Vehicle gearbox lookup — a Dafny model

This project models the decision logic of the vehicle-lookup service in
`podzamenu_lookup_service.py`. Given a VIN or a FRAME number, the service
finds the gearbox model and its OEM part number on one of two catalogue sites
(podzamenu and prof_rf). The browser work is not modelled: the model starts
from what the browser hands back.

The modelled parts are:

- **Candidate filter and ranking** (`Candidates`). This is
  `_filter_oem_candidates`. It keeps the rows whose name contains an include
  word and no exclude word. It can sort the kept rows so that rows with a
  priority term come first, then by name.
- **OEM table parsers** (`OemTable`). These are `_parse_oem_table` and
  `_parse_oem_table_from_html`. They work on a page's tables, already split
  into a header row and body rows, and implement:
  - the header-word test;
  - the column search;
  - the header-row skip for a table without `<tbody>`;
  - the 100/500-character truncation;
  - dropping blank rows;
  - "the first table with rows wins".
- **Vehicle meta** (`VehicleMeta`). This is `_extract_meta_from_page` over the
  label captures of a page: META_LABELS in order, the first label for a key
  wins, values lower-cased, stripped, then cut to 200 characters.
- **The podzamenu provider** (`Podzamenu`). This is `_do_lookup_podzamenu`
  after the page has loaded:
  - the NOT_FOUND and PARSE_FAILED errors;
  - `oemCandidates`;
  - the FOUND / NOT_FOUND / NOT_AVAILABLE status rules;
  - the diagnostics flags.
- **The prof_rf provider** (`ProfRf`). This covers:
  - the header extractor;
  - the block parser (Оригинал / Аналоги / Копии sections);
  - the cascade of `_extract_from_prof_rf`: header first, then the original
    block, then the table candidates, then the page's model extractor;
  - the status logic of `_do_lookup_prof_rf`.
- **The router** (`Router`). This is `_do_lookup_routed` with
  `_add_source_evidence`, for every SOURCE_STRATEGY and both id types.
- **The retry controller** (`Retry`). This is the attempt loop of `lookup`:
  - one retry, for timeouts only;
  - HTTP errors are passed on;
  - other errors become LOOKUP_ERROR;
  - a blank value is refused.
- **`is_china_vin`** (`Text`), with the Python string idioms the service relies
  on: `lower`, `upper`, `strip`, slicing, `in` on strings and `any(...)`.

Code that changes state step by step is written as methods with loops. Each
method's `ensures` ties its result to a specification function. The
properties the service promises are lemmas about those functions. This covers:

- the table parsers;
- the meta extractor;
- the filter;
- the block parser;
- the cascade;
- the providers;
- the router;
- the retry loop.

Each provider's response is an input to the router, and each attempt's
provider answers are inputs to the retry controller.

Observations on the code that the proofs make explicit:

- The auto strategy hands a VIN to prof_rf only after podzamenu returns 404
  NOT_FOUND, or after a podzamenu response whose status is not FOUND.
  `is_china_vin` is not consulted by the router
  (`Router.RouteAnswersFromProviders`, `Router.AutoPodzamenuNotFound`).
- podzamenu can report FOUND with no OEM. This happens when the first
  relevant row has an empty OEM cell (`Podzamenu.PodzamenuOem`).
- prof_rf never reports NOT_FOUND; its status is FOUND or NOT_AVAILABLE
  (`ProfRf.ProfRfStatus`).
- In the original-block step, the branch for "no row survives the second
  filter" can never run. The original rows have already passed the same
  filter (`ProfRf.RankedOriginals`).
- The "Unknown error" message of `lookup` is never used. Every loop exit
  that reaches it has recorded an error (`Retry.Lookup`).
- In the auto strategy, a podzamenu response can be selected while
  `sourceTried` lists both sites. So the selected source is among those
  tried, not always the last one (`Router.RouteShape`).

## Model

| member | source | states |
|---|---|---|
| Text.Lower | podzamenu_lookup_service.py:311 | `str.lower()` on ASCII, Latin-1 and Cyrillic letters: each character is mapped through the case table, and no upper-case letter of those ranges remains |
| Text.Upper | podzamenu_lookup_service.py:38 | `str.upper()` on ASCII, Latin-1 and Cyrillic letters that have a one-character upper case: each is mapped through the case table, and no lower-case letter of those ranges remains |
| Text.TrimRemovesSpaces | podzamenu_lookup_service.py:468 | `strip()` removes only whitespace on either side, and what it keeps neither starts nor ends with whitespace |
| Text.TrimIsMiddle | podzamenu_lookup_service.py:468 | the stripped string is the contiguous middle slice of the original |
| Text.TrimFirst | podzamenu_lookup_service.py:468 | a string that is not all whitespace strips to a non-empty string starting at its first non-space character |
| Text.TrimIdempotent | podzamenu_lookup_service.py:286-288 | stripping an already stripped cell again changes nothing |
| Text.StrLeTotal | podzamenu_lookup_service.py:317 | Python's string order, used for the sort key, compares every pair of names |
| Text.StrLeAntisymmetric | podzamenu_lookup_service.py:317 | two names that are each at most the other are equal |
| Text.StrLeTransitive | podzamenu_lookup_service.py:317 | the string order is transitive |
| Text.ChinaVinAtTrimStart | podzamenu_lookup_service.py:36-38 | a VIN is Chinese exactly when its first non-space character upper-cases to "L" |
| Text.ChinaVinFirstLetter | podzamenu_lookup_service.py:36-38 | a VIN is Chinese exactly when some "L" or "l" is preceded only by whitespace |
| Text.IsChinaVin | podzamenu_lookup_service.py:36-38 | `is_china_vin`: a non-empty VIN whose upper-cased, stripped form starts with "L" |
| Candidates.TestsIgnoreCase | podzamenu_lookup_service.py:298-301 | the include/exclude test and the priority-term test ignore letter case |
| Candidates.Relevant | podzamenu_lookup_service.py:311-314 | the filter test: the lower-cased name contains no exclude pattern and some include pattern |
| Candidates.HasPriorityTerm | podzamenu_lookup_service.py:298-301 | `_has_priority_term`: the lower-cased name contains one of the priority terms |
| Candidates.RelevantNameNonEmpty | podzamenu_lookup_service.py:311-315 | no empty name passes the include test |
| Candidates.FilteredAppend | podzamenu_lookup_service.py:310-315 | filtering a concatenation filters each part, in order |
| Candidates.FilteredCount | podzamenu_lookup_service.py:310-315 | a row is kept as often as it occurs when its name is relevant, and never otherwise |
| Candidates.FilteredMember | podzamenu_lookup_service.py:310-315 | a row is in the result exactly when it is an input row whose name has an include word and no exclude word |
| Candidates.FilteredEmpty | podzamenu_lookup_service.py:310-315 | the result is empty exactly when no input name is relevant |
| Candidates.FilteredHead | podzamenu_lookup_service.py:310-315 | without sorting, the first result is the first relevant input row |
| Candidates.FilteredKeepsRelevant | podzamenu_lookup_service.py:310-315 | filtering rows that are all relevant returns them unchanged |
| Candidates.KeyLeTotal | podzamenu_lookup_service.py:317 | the sort key orders every pair of rows |
| Candidates.KeyLeTransitive | podzamenu_lookup_service.py:317 | the sort key order is transitive |
| Candidates.InsertPermutes | podzamenu_lookup_service.py:317 | inserting a row into a sorted list adds exactly that row |
| Candidates.InsertSorted | podzamenu_lookup_service.py:317 | inserting a row keeps the list sorted by (priority rank, name) |
| Candidates.PrioritySortPermutes | podzamenu_lookup_service.py:317 | the priority sort is a permutation of its input |
| Candidates.PrioritySortOrders | podzamenu_lookup_service.py:316-317 | after the priority sort, rows with a priority term come first, and rows of equal rank are in name order |
| Candidates.FilterOemCandidates | podzamenu_lookup_service.py:304-318 | returns the relevant rows in input order, or sorted by priority then name when asked; either way a permutation of the relevant rows |
| OemTable.FirstMatching | podzamenu_lookup_service.py:269-270 | the column index is the first header cell containing one of the words, or -1 when none does |
| OemTable.PerTableRows | podzamenu_lookup_service.py:247-291 | one parse result per table, each the table's own rows |
| OemTable.RowsUpToDropsBlanks | podzamenu_lookup_service.py:290-291 | the page parser keeps exactly the rows of the single-table parser that are not blank |
| OemTable.TableRowsDropsBlanks | podzamenu_lookup_service.py:290-291 | per table, the page parser's rows are the single-table parser's rows without the blank ones |
| OemTable.ParsedRowsBounded | podzamenu_lookup_service.py:288-291 | every parsed OEM has at most 100 characters and every name at most 500; the page parser yields no blank row |
| OemTable.ParsedRowFrom | podzamenu_lookup_service.py:251-291 | every parsed row comes from a body row that has both columns, in a table with both header words, at the first OEM and name header columns |
| OemTable.RowsUpToHas | podzamenu_lookup_service.py:281-291 | every data row holding both cells and not dropped as blank yields its pair right after the pairs of the rows before it |
| OemTable.ParsedRowHas | podzamenu_lookup_service.py:281-291 | every body row past the skipped header row, with both cells and not dropped as blank, is read into the table's rows, in row order |
| OemTable.NoTbodySkipsHeaderRow | podzamenu_lookup_service.py:282-283 | without `<tbody>`, the first row is the header and is skipped |
| OemTable.FirstNonEmptyIsFirst | podzamenu_lookup_service.py:292-295 | the first non-empty result is returned, or nothing when all are empty |
| OemTable.OemTableRowsFirstTable | podzamenu_lookup_service.py:247-295 | the page parser returns the rows of the first table that yields any, and [] exactly when none does |
| OemTable.OemTableRowsBounded | podzamenu_lookup_service.py:288-291 | every row from the page parser is truncated and not blank |
| OemTable.ReadHeaderCells | podzamenu_lookup_service.py:262-265 | the header cells are stripped and lower-cased, one per cell |
| OemTable.ReadRowCells | podzamenu_lookup_service.py:284-286 | each body cell is stripped |
| OemTable.ReadRow | podzamenu_lookup_service.py:282-291 | one body row gives the pair of its OEM and name cells, or nothing when the row is too short, the skipped header row, or blank where blanks are dropped |
| OemTable.ReadPairs | podzamenu_lookup_service.py:281-291 | the row loop collects exactly the specified pairs of every body row, in order |
| OemTable.ReadTable | podzamenu_lookup_service.py:248-291 | one table yields no rows without both header words or both header columns, and otherwise its body pairs |
| OemTable.ParseOemTableFromHtml | podzamenu_lookup_service.py:563-594 | the single-table parser returns the table's pairs, blanks included, each truncated |
| OemTable.ParseOemTable | podzamenu_lookup_service.py:238-295 | the page parser returns the first table's non-blank truncated pairs |
| VehicleMeta.MetaValueShape | podzamenu_lookup_service.py:234 | a meta value is at most 200 characters and holds no upper-case letter (it is stripped before the cut, so a cut value can end in whitespace) |
| VehicleMeta.MetaUpToHasKey | podzamenu_lookup_service.py:228-234 | a key is set exactly when one of its labels was captured |
| VehicleMeta.MetaFirstLabel | podzamenu_lookup_service.py:228-234 | a key takes the value of the first of its labels, in META_LABELS order, that was captured |
| VehicleMeta.RussianLabelFirst | podzamenu_lookup_service.py:115-124 | "марка" wins over "make" when both are on the page |
| VehicleMeta.ExtractMeta | podzamenu_lookup_service.py:224-235 | the extractor's loop builds exactly the specified map: only make/model/year/engine keys, each value lower-case and at most 200 characters |
| LookupTypes.FirstN | podzamenu_lookup_service.py:439 | `candidates_raw[:10]` is a prefix of at most 10 rows, all rows when there are fewer |
| LookupTypes.OrNone | podzamenu_lookup_service.py:445 | `x or None` is None exactly for the empty string, and otherwise Some(x) |
| LookupTypes.OrElse | podzamenu_lookup_service.py:633 | `model or name` keeps a truthy model and otherwise takes the name |
| Podzamenu.PodzamenuFailures | podzamenu_lookup_service.py:355-372 | a lookup fails exactly on a not-found page (404 NOT_FOUND) or a page without a model (500 PARSE_FAILED) |
| Podzamenu.PodzamenuModel | podzamenu_lookup_service.py:359-379 | a response carries the extracted, non-empty model and the page's meta |
| Podzamenu.PodzamenuCandidates | podzamenu_lookup_service.py:437-440 | `oemCandidates` is the first ten unfiltered gearbox-page rows, or empty when no link was clicked |
| Podzamenu.PodzamenuStatus | podzamenu_lookup_service.py:374-453 | FOUND exactly when a link was clicked and a row passes the filter; NOT_FOUND exactly when rows were read and none passes; otherwise NOT_AVAILABLE |
| Podzamenu.PodzamenuOem | podzamenu_lookup_service.py:442-446 | FOUND names the OEM of the first relevant raw row, which is None when that cell is empty |
| Podzamenu.PodzamenuNoOem | podzamenu_lookup_service.py:374-379 | without FOUND there is no OEM |
| Podzamenu.PodzamenuDiagnostics | podzamenu_lookup_service.py:449-455 | `gearboxLinkNotFound` exactly when no link was clicked; `gearboxPageParseFailed` exactly when the gearbox page gave no rows |
| Podzamenu.PodzamenuOutcome | podzamenu_lookup_service.py:321-460 | the outcome of `_do_lookup_podzamenu` after the page loads, the reference the provider method is proved against |
| Podzamenu.LookupPodzamenu | podzamenu_lookup_service.py:321-460 | the provider's steps produce exactly the specified outcome |
| ProfRf.OriginalBlockOnly | podzamenu_lookup_service.py:622 | the test `block_type.lower() == "оригинал"` holds exactly for the Оригинал block |
| ProfRf.Parts | podzamenu_lookup_service.py:533-557 | one part per section |
| ProfRf.BlockedMember | podzamenu_lookup_service.py:533-557 | a blocked row is exactly a non-blank row of some table of a section, tagged with that section's block |
| ProfRf.OriginalsMember | podzamenu_lookup_service.py:620-627 | the original OEM list holds exactly the relevant pairs of Оригинал rows |
| ProfRf.OriginalsRelevant | podzamenu_lookup_service.py:620-627 | every original OEM row passes the include/exclude test |
| ProfRf.RankedOriginals | podzamenu_lookup_service.py:628-636 | re-filtering the original rows changes nothing, so the sorted list is never empty there and the `else` branch is dead |
| ProfRf.ProfRfStatus | podzamenu_lookup_service.py:674-702 | fails exactly on a not-found page (404 NOT_FOUND) or without model and OEM (500 PARSE_FAILED); otherwise a response, FOUND exactly when the OEM is truthy, never NOT_FOUND, candidates the first ten raw rows |
| ProfRf.HeaderFirst | podzamenu_lookup_service.py:607-616 | a header hit decides model and OEM outright; the candidates are the page's table rows or the header's own pair; such a page never fails, and a header-shaped OEM is FOUND |
| ProfRf.TopRanked | podzamenu_lookup_service.py:630-632 | the top of the priority-sorted relevant rows is a relevant row of the input with a non-empty name, and ranks at or before every relevant row |
| ProfRf.CascadeOriginal | podzamenu_lookup_service.py:628-633 | with original rows, the top-ranked one gives the model, and its OEM when non-empty, so the table step is skipped |
| ProfRf.CascadeOriginalNoOem | podzamenu_lookup_service.py:628-644 | an original top row without OEM still names the model, and the table step then supplies the OEM from its best relevant row, recording both tags |
| ProfRf.CascadeTable | podzamenu_lookup_service.py:639-644 | without original rows, the top-ranked relevant table row gives the model and OEM |
| ProfRf.CascadeModel | podzamenu_lookup_service.py:639-647 | without any relevant row, there is no OEM and the model is the page extractor's |
| ProfRf.OriginalFirst | podzamenu_lookup_service.py:618-636 | on a page without header, the best original row decides; with a non-empty OEM the lookup is FOUND |
| ProfRf.OriginalWithoutOem | podzamenu_lookup_service.py:618-644 | on a page without header whose best original row has no OEM, that row names the model and the status is FOUND exactly when the best relevant table row has an OEM |
| ProfRf.TableFallback | podzamenu_lookup_service.py:638-644 | on a page without header or original rows, the best relevant table row decides |
| ProfRf.ModelFallback | podzamenu_lookup_service.py:646-649 | without any relevant row the status is NOT_AVAILABLE, and the lookup fails exactly when the page extractor finds no model |
| ProfRf.Extract | podzamenu_lookup_service.py:597-649 | `_extract_from_prof_rf`: the header path, else the original, table and model steps, the reference the extractor method is proved against |
| ProfRf.ProfRfOutcome | podzamenu_lookup_service.py:652-708 | the outcome of `_do_lookup_prof_rf` after the page loads, the reference the provider method is proved against |
| ProfRf.TagRows | podzamenu_lookup_service.py:555-557 | the loop tags exactly the non-blank rows with the block |
| ProfRf.TagSection | podzamenu_lookup_service.py:552-557 | the section loop tags the non-blank rows of all its tables, in order |
| ProfRf.ParseProfRfBlocks | podzamenu_lookup_service.py:524-560 | returns the blocked rows of all sections and the page parser's rows |
| ProfRf.CollectOriginals | podzamenu_lookup_service.py:620-627 | the loop collects exactly the specified original OEM rows |
| ProfRf.PickOriginal | podzamenu_lookup_service.py:628-636 | the original-block step gives the specified model, OEM and tag |
| ProfRf.PickFromTable | podzamenu_lookup_service.py:638-644 | the table step gives the specified model, OEM and tag |
| ProfRf.ExtractFromProfRf | podzamenu_lookup_service.py:597-649 | the extractor's steps produce exactly the specified cascade result |
| ProfRf.LookupProfRf | podzamenu_lookup_service.py:652-708 | the provider's steps produce exactly the specified outcome |
| Router.WithSources | podzamenu_lookup_service.py:711-714 | stamping the sources changes only `sourceTried` and `sourceSelected` |
| Router.RouteShape | podzamenu_lookup_service.py:717-783 | each site is queried at most once, podzamenu first; a response's selected source is among those tried, and they are a prefix of those queried |
| Router.RouteAnswersFromProviders | podzamenu_lookup_service.py:717-783 | a response is a site's own response with only its source evidence changed; an error is a site's error or UNSUPPORTED_ID_TYPE |
| Router.FrameOnlyPodzamenu | podzamenu_lookup_service.py:726-733 | a FRAME never reaches prof_rf; under strategy prof_rf it is refused with 400 UNSUPPORTED_ID_TYPE |
| Router.PinnedStrategies | podzamenu_lookup_service.py:735-745 | a pinned strategy queries and answers with its own site only |
| Router.AutoPodzamenuFound | podzamenu_lookup_service.py:748-755 | a FOUND podzamenu response is returned without querying prof_rf |
| Router.AutoPodzamenuWithoutOem | podzamenu_lookup_service.py:757-767 | after a podzamenu response without FOUND, prof_rf's response wins exactly when FOUND, its HTTP errors are ignored and its other errors propagate |
| Router.AutoPodzamenuNotFound | podzamenu_lookup_service.py:769-781 | after podzamenu's 404 NOT_FOUND, any prof_rf response is returned; an HTTP error from prof_rf re-raises podzamenu's 404 |
| Router.AutoPodzamenuOtherError | podzamenu_lookup_service.py:769-783 | any other podzamenu error propagates and prof_rf is not queried |
| Router.AutoKeepsFound | podzamenu_lookup_service.py:747-767 | the auto strategy never returns a non-FOUND response when a site it queried answered FOUND |
| Router.Auto | podzamenu_lookup_service.py:747-783 | the auto strategy for a VIN, the reference of the `Auto*` lemmas |
| Router.Route | podzamenu_lookup_service.py:717-783 | `_do_lookup_routed` under each strategy and id type, the reference the router method is proved against |
| Router.LookupRouted | podzamenu_lookup_service.py:717-783 | the router's steps produce exactly the specified response and queries |
| Retry.RunFromShape | podzamenu_lookup_service.py:474-485 | from any attempt on: a bounded number of attempts, every one but the last a retried timeout, the last passed on or turned into LOOKUP_ERROR |
| Retry.IsTimeout | podzamenu_lookup_service.py:482 | the timeout test: "timeout" in the lower-cased message, or "Timeout" in the exception's type name |
| Retry.LookupShape | podzamenu_lookup_service.py:466-500 | at most two attempts, none for a blank value (400); the first answer or HTTP error is passed on, other errors end in 500 LOOKUP_ERROR |
| Retry.HttpErrorNotRetried | podzamenu_lookup_service.py:478-479 | an HTTP error on the first attempt is passed on without a retry |
| Retry.TimeoutRetriedOnce | podzamenu_lookup_service.py:480-485 | a first-attempt timeout is retried once, and the second attempt decides |
| Retry.Lookup | podzamenu_lookup_service.py:466-500 | the attempt loop produces exactly the specified answer and attempt count |

## Left out

- Browser work is not modelled: launching, navigation, waiting for
  selectors, clicking the gearbox link, sleeps, the semaphore and
  screenshots. Each provider starts from an abstract description of the
  loaded page (`Podzamenu.Session`, `ProfRf.Page`).
- Regular-expression scanning is not modelled, for the same reason. The
  model takes these as inputs:
  - the NOT_FOUND_PATTERNS tests (`_is_not_found`);
  - the `_extract_model_from_page` strategies;
  - PROF_RF_HEADER_PATTERN (`HeaderHit`; its 6–20 alphanumeric shape is the
    predicate `HeaderOemShape`);
  - the split of HTML into tables, rows and cells (`Table`);
  - the meta label captures;
  - the split of a prof_rf page into Оригинал / Аналоги / Копии sections.
- ProfRf.ParseProfRfBlocks: sections are taken in the order given. The source
  visits every Оригинал section before the other blocks, and a section runs to
  the next header of another block. Only the relative order of the Оригинал
  rows is used afterwards, and both orders keep it.
- Evidence fields that only carry diagnostics text are not modelled:
  `finalUrl`, `parseError`, `htmlSnippet`, `error`, `screenshotOnError`, and
  the evidence attached to error details.
- With SCREENSHOT_ON_ERROR set, podzamenu's PARSE_FAILED path takes a
  screenshot outside any `try`, so a failing screenshot raises a browser error
  instead. Screenshots are not modelled, so this path is not either.
- Outside the parts that are modelled, error details are reduced to the
  status, the `error` code and the message.
- Text.Lower: case mapping covers ASCII, Latin-1 (À–Þ) and the basic Cyrillic
  letters (U+0400–U+042F) only; Python's full Unicode case table is not
  modelled.
- Text.Upper: covers ASCII, Latin-1 and Cyrillic letters with a one-character
  upper case. Python upper-cases ß to "SS", ÿ to Ÿ and µ to Μ; the model leaves
  these three unchanged.
- Candidates.PrioritySortOrders: states sortedness and permutation but not
  stability. Python's sort keeps rows with equal keys in input order; the
  model's insertion sort does too, but no lemma states it.
- Retry.Lookup: the providers' answers on each attempt are inputs, so the
  model does not capture that a timeout depends on LOOKUP_TIMEOUT_MS.
- `is_china_vin` is modelled (`Text.IsChinaVin`) but, as in the code, no
  routing decision uses it.
- Service startup, shutdown, health endpoints and environment variable
  parsing are not modelled. SOURCE_STRATEGY is a parameter, already
  lower-cased.
