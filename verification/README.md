# Marketplace search orchestration in Dafny

This project models the client-side search layer of an automotive
marketplace. The layer handles three kinds of record: offers, purchases and
transports. It has three entry points:

- `fetchAutocomplete` returns suggestions for a partial query.
- `fetchSearchResults` (simple search) runs the query match, then the coarse
  status filter, then role scoping, and paginates each kind.
- `fetchSearchResultsWithFilters` (advanced search) runs the query match only
  for a non-blank query, then the advanced filter, then role scoping, and
  paginates each kind.

Both searches cut every kind to the same window
`slice((page-1)*pageSize, (page-1)*pageSize + pageSize)`. They report
`totalResults` as the sum of the three pre-pagination lengths and
`totalPages` as `ceil(totalResults / pageSize)`.

The stage functions (query match, status filter, advanced filter, role scope,
suggestion generator) and the fixture dataset come from a module that is not
part of this model. They appear as parameters. The `Stages` datatype holds
total functions: the query, status and advanced filters map a sequence of one
kind to a sequence of that kind; the role scope maps the three sequences and
the role context to a group of three; the generator maps a query and a role
context to suggestions. `Dataset` holds the three fixture sequences, in the
same shape as a response's groups. Nothing else is assumed about them.

Modules:

- `SearchTypes` (`search_types.dfy`): the records, the `SearchResult` union,
  the enumerations with their string literals, `SearchFilters`,
  `SearchResponse` and the label/hint maps.
- `JsString` (`js_string.dfy`): `String.prototype.trim` and blankness.
- `Pagination` (`pagination.dfy`): `Array.prototype.slice`, the page window,
  ceiling division, and the lemmas that pages partition a sequence.
- `SearchApi` (`search_api.dfy`): the three entry points, the pipeline and its
  properties.

A consequence of counting pages over the sum of the three kinds: every kind
fits in `totalPages` pages (so walking the pages reconstructs each kind), but
the last few pages up to `totalPages` can be empty in all three kinds, and
one page can carry up to three times `pageSize` records.

The query stages receive the query untrimmed; `trim` is used only for the
blank test (src/lib/api.ts:60, 94, 108-110, 189-192). The model does the
same.

## Model

| member | source | states |
|---|---|---|
| SearchTypes.ParseUserType | src/types/search.ts:104 | A string is a role iff it is one of "seller", "buyer", "carrier", "agent", and each literal names exactly one of the four roles |
| SearchTypes.ParseEntityType | src/types/search.ts:111 | The entity tags are exactly "offer", "purchase", "transport", one per kind |
| SearchTypes.ParseOfferCondition | src/types/search.ts:127 | An offer's condition is exactly one of new, used, certified |
| SearchTypes.ParseOfferStatus | src/types/search.ts:128 | An offer's status is exactly one of available, pending, sold |
| SearchTypes.ParsePurchaseStatus | src/types/search.ts:140 | A purchase's status is exactly one of pending, completed, cancelled |
| SearchTypes.ParseTransportStatus | src/types/search.ts:151 | A transport's status is exactly one of scheduled, in_transit, delivered, cancelled |
| SearchTypes.ParseStatusFilter | src/types/search.ts:194 | The coarse status filter is exactly one of all, complete, pending, in_transit |
| SearchTypes.TagDiscriminates | src/types/search.ts:118-157 | Offer records carry tag "offer", purchases "purchase", transports "transport"; two records share a tag iff they are the same variant of the union |
| SearchTypes.LabelMapsTotal | src/types/search.ts:181-200 | The hint and label maps have an entry for every role, and the status label map has one for every status filter |
| SearchTypes.LabelsDistinct | src/types/search.ts:187-200 | Two roles with the same label are the same role, and two status filters with the same label are the same filter |
| JsString.TrimStart | src/lib/api.ts:60 | Leading part of `trim`: the result is a suffix of the input, everything dropped is whitespace, and the result does not start with whitespace |
| JsString.TrimEnd | src/lib/api.ts:60 | Trailing part of `trim`: the result is a prefix of the input, everything dropped is whitespace, and the result does not end with whitespace |
| JsString.Trim | src/lib/api.ts:60 | `query.trim()` is a contiguous part of the query with only whitespace before and after it, and it neither starts nor ends with whitespace |
| JsString.IsBlank | src/lib/api.ts:94 | `!query.trim()` holds exactly when every character of the query is whitespace, the empty query included |
| Pagination.SliceCountsFromEnd | src/lib/api.ts:133-135 | A negative `slice` bound counts from the end of the sequence: it acts as the length plus that bound, clamped at 0 (a start before the beginning acts as 0, an end before the beginning gives `[]`) |
| Pagination.JsSlice | src/lib/api.ts:133-135 | For non-negative bounds, `slice` returns the elements from `start` up to `end` or the end of the sequence, and `[]` when the window is empty or starts past the end |
| Pagination.Paginate | src/lib/api.ts:130-135 | A page holds at most `pageSize` records; it is the contiguous run of the kind starting at `(page-1)*pageSize`, and empty when that start is at or past the kind's length |
| Pagination.PageIsWindow | src/lib/api.ts:130-135 | A page is the part of the kind between its start index and the next page's start index, both clamped to the kind's length |
| Pagination.PageWindowsArePrefix | src/lib/api.ts:130-135 | The windows of pages 1..k, concatenated in order, are the prefix of the kind that ends where page k+1 starts |
| Pagination.ConcatPagesAreWindows | src/lib/api.ts:130-135 | A paged view that shows the kind's pages on 1..k concatenates to the same sequence as those pages' windows |
| Pagination.FirstPageIsPrefix | src/lib/api.ts:130-135 | Page 1 holds the first `pageSize` records of the kind, or all of them if there are fewer |
| Pagination.CeilDiv | src/lib/api.ts:138 | `totalPages` is the least page count whose pages cover `totalResults` (`n <= r*d < n + d`), and it is 0 iff `totalResults` is 0 |
| Pagination.CeilDivUnique | src/lib/api.ts:138 | Any page count that covers `n` with fewer than `d` unused slots is the ceiling |
| Pagination.ConcatPagesIsPrefix | src/lib/api.ts:130-135 | Pages 1..k concatenated in order are the first `k*pageSize` records of the kind, or all of it if shorter |
| Pagination.PagesReassemble | src/lib/api.ts:130-138 | For a kind no longer than `totalResults`, pages 1..totalPages concatenated reconstruct the kind exactly, with no gaps or duplicates |
| Pagination.PagesAfterLastAreEmpty | src/lib/api.ts:130-138 | For a kind no longer than `totalResults`, any page after `totalPages` is empty |
| SearchApi.FetchAutocomplete | src/lib/api.ts:53-64 | A blank query yields no suggestions, whatever the generator would return; otherwise the generator's suggestions are returned |
| SearchApi.Assemble | src/lib/api.ts:129-153 | The response echoes query, page and page size; counts all three kinds before pagination; its page count is the ceiling; each kind is cut to the page window |
| SearchApi.FetchSearchResults | src/lib/api.ts:84-154 | A blank query gives 0 results, three empty sequences and 0 pages, echoing query, page and page size; otherwise each kind's page, the total and the page count come from the query, status and role-scope pipeline |
| SearchApi.FetchSearchResultsWithFilters | src/lib/api.ts:174-233 | Echoes query, page and page size; each kind's page, the total and the page count come from the optional-query, advanced-filter and role-scope pipeline |
| SearchApi.FetchSearchResultsDefault | src/lib/api.ts:87-88 | With defaults, simple search shows page 1 of size 20 over every status, and each kind shows its first at most 20 scoped records |
| SearchApi.FetchSearchResultsWithFiltersDefault | src/lib/api.ts:178 | With defaults, advanced search shows page 1 of size 5, and each kind shows its first at most 5 scoped records |
| SearchApi.SimpleBlankIgnoresPipeline | src/lib/api.ts:93-105 | A blank simple search gives the same response whatever the stages, dataset, role context and status filter, for any page request |
| SearchApi.TotalsIndependentOfPage | src/lib/api.ts:137-138 | In both searches, `totalResults` and `totalPages` are the same whichever page is requested |
| SearchApi.SimplePagesReassemble | src/lib/api.ts:129-138 | In a non-blank simple search, concatenating pages 1..totalPages of each kind gives back that kind's role-scoped sequence |
| SearchApi.AdvancedPagesReassemble | src/lib/api.ts:208-217 | In advanced search, concatenating pages 1..totalPages of each kind gives back that kind's role-scoped sequence |
| SearchApi.SimplePagesPastTotalAreEmpty | src/lib/api.ts:129-138 | In simple search, a page after `totalPages` is empty in all three kinds and raises no error |
| SearchApi.AdvancedPagesPastTotalAreEmpty | src/lib/api.ts:208-217 | In advanced search, a page after `totalPages` is empty in all three kinds and raises no error |
| SearchApi.AdvancedBlankSkipsQuery | src/lib/api.ts:183-198 | In advanced search a blank query skips the query stage: any query functions give the same response, and the results and counts are those of the empty query |
| SearchApi.AdvancedQueryRunsFirst | src/lib/api.ts:188-206 | In advanced search a non-blank query runs first: the results and counts are those of a blank-query search over the query stage's output |
| SearchApi.SimpleIsAdvancedWithStatusStage | src/lib/api.ts:107-127 | For a non-blank query, simple search equals advanced search with the coarse status stage in place of the advanced filter, so both run query, middle stage, role scope in that order |

## Left out

- The stage functions and fixture data (`filterOffersByQuery`, `filterByUserContext`, `filterOffersAdvanced`, `generateAutocompleteSuggestions`, `DUMMY_*`, …): src/lib/dummyData.ts is not part of this model. They are parameters, and their matching rules, status mapping, role rules, idempotence and subsequence behaviour are not modelled.
- The simulated network delay and the `async`/`Promise` wrapping: they carry no semantics once the delay is dropped.
- `BASE_URL` and the commented-out `fetch` calls: that network I/O does not exist in the code.
- SearchApi.FetchSearchResults: for a non-blank query, requires `page >= 1` and `pageSize >= 1`. With `pageSize = 0`, JavaScript computes `Infinity` or `NaN` pages. With `page <= 0`, `slice` counts from the end, which is not pagination. A blank query accepts any page request and echoes it with 0 pages.
- SearchApi.FetchSearchResultsWithFilters: the same `page >= 1` and `pageSize >= 1` requirement, for the same reason.
- SearchApi.Assemble: the same page requirement. `page` and `pageSize` are integers, so fractional JavaScript numbers are not modelled.
- Pagination.CeilDiv: natural-number ceiling division stands in for the floating-point `Math.ceil(totalResults / pageSize)`. The two agree for the non-negative integers the layer uses.
- Offer `year` is an `int` and `price` is a `real`. IEEE double rounding is not modelled.
- The optional `score` field of every record is omitted.
- The commented-out duplicate type block at the top of src/types/search.ts.
- The exact wording of the label and hint strings has no property beyond the maps being total and the labels distinct.
- The `entityType` tag is not a stored field of the Dafny records. It is derived from the `SearchResult` constructor (`SearchTypes.Tag`), so it is fixed per kind by construction. The optional related-offer fields of a transport are `Option<string>`; all other fields are mandatory by their types.
