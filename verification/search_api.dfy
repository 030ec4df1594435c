/** The search orchestrator: the three entry points of the API client
    (autocomplete, simple search, advanced search) with the network delay
    dropped.

    The per-kind stage functions (query match, coarse status filter, advanced
    filter, role scope, autocomplete generator) and the fixture dataset live in
    a module that is not part of this model; they are parameters here, bundled
    in `Stages` and `Dataset`, and nothing is assumed about them beyond their
    types: the query, status and advanced filters map a sequence of one kind
    to a sequence of that kind; the role scope maps the three sequences and
    the role context to a group of three; the generator maps a query and a
    role context to suggestions. */
module SearchApi {
  import opened SearchTypes
  import opened JsString
  import opened Pagination

  /** The three fixture sequences the pipeline starts from: the same shape as
      the groups of a response. */
  type Dataset = ResultGroups

  /** The stage functions the orchestrator composes. */
  datatype Stages = Stages(
    offersByQuery: (seq<Offer>, string) -> seq<Offer>,
    purchasesByQuery: (seq<Purchase>, string) -> seq<Purchase>,
    transportsByQuery: (seq<Transport>, string) -> seq<Transport>,
    offersByStatus: (seq<Offer>, StatusFilter) -> seq<Offer>,
    purchasesByStatus: (seq<Purchase>, StatusFilter) -> seq<Purchase>,
    transportsByStatus: (seq<Transport>, StatusFilter) -> seq<Transport>,
    offersAdvanced: (seq<Offer>, SearchFilters) -> seq<Offer>,
    purchasesAdvanced: (seq<Purchase>, SearchFilters) -> seq<Purchase>,
    transportsAdvanced: (seq<Transport>, SearchFilters) -> seq<Transport>,
    byUserContext: (seq<Offer>, seq<Purchase>, seq<Transport>, UserContext) -> ResultGroups,
    autocompleteSuggestions: (string, UserContext) -> seq<AutocompleteSuggestion>)

  /** The `{ page, pageSize }` argument of both searches. */
  datatype PageRequest = PageRequest(page: int, pageSize: int)

  /** A 1-based page and a positive page size. */
  predicate ValidPageRequest(p: PageRequest) {
    p.page >= 1 && p.pageSize >= 1
  }

  const DefaultSimplePagination: PageRequest := PageRequest(1, 20)
  const DefaultAdvancedPagination: PageRequest := PageRequest(1, 5)
  const DefaultStatusFilter: StatusFilter := All

  function TotalOf(g: ResultGroups): nat {
    |g.offers| + |g.purchases| + |g.transports|
  }

  // ---------------------------------------------------------------------------
  // Autocomplete

  /** `fetchAutocomplete`: a blank query yields no suggestions whatever the
      generator would say; otherwise the generator's answer is passed on. */
  function FetchAutocomplete(stages: Stages, query: string, ctx: UserContext)
    : (r: seq<AutocompleteSuggestion>)
    ensures AllWhitespace(query) ==> r == []
    ensures !AllWhitespace(query) ==> r == stages.autocompleteSuggestions(query, ctx)
  {
    if IsBlank(query) then [] else stages.autocompleteSuggestions(query, ctx)
  }

  // ---------------------------------------------------------------------------
  // Pipeline stages

  /** The query stage, run on each kind with the untrimmed query. */
  function QueryStage(stages: Stages, data: Dataset, query: string): Dataset {
    ResultGroups(
      stages.offersByQuery(data.offers, query),
      stages.purchasesByQuery(data.purchases, query),
      stages.transportsByQuery(data.transports, query))
  }

  /** Simple search before pagination: query, then coarse status, then role
      scope. */
  function SimpleScoped(stages: Stages, data: Dataset, query: string, status: StatusFilter, ctx: UserContext)
    : ResultGroups
  {
    var q := QueryStage(stages, data, query);
    stages.byUserContext(
      stages.offersByStatus(q.offers, status),
      stages.purchasesByStatus(q.purchases, status),
      stages.transportsByStatus(q.transports, status),
      ctx)
  }

  /** Advanced search before pagination: the query stage only when the query
      is not blank, then the advanced filter, then role scope. */
  function AdvancedScoped(stages: Stages, data: Dataset, query: string, filters: SearchFilters, ctx: UserContext)
    : ResultGroups
  {
    var q := if IsBlank(query) then data else QueryStage(stages, data, query);
    stages.byUserContext(
      stages.offersAdvanced(q.offers, filters),
      stages.purchasesAdvanced(q.purchases, filters),
      stages.transportsAdvanced(q.transports, filters),
      ctx)
  }

  /** Pagination and response assembly, shared by both searches: every kind
      is cut to the same page window, the total counts all three kinds before
      the cut, and the page count is the ceiling of total over page size. */
  function Assemble(query: string, g: ResultGroups, pagination: PageRequest): (r: SearchResponse)
    requires ValidPageRequest(pagination)
    ensures r.query == query
    ensures r.pagination.page == pagination.page && r.pagination.pageSize == pagination.pageSize
    ensures r.totalResults == |g.offers| + |g.purchases| + |g.transports|
    ensures r.totalResults <= r.pagination.totalPages * pagination.pageSize
              < r.totalResults + pagination.pageSize
    ensures r.results.offers == Paginate(g.offers, pagination.page, pagination.pageSize)
    ensures r.results.purchases == Paginate(g.purchases, pagination.page, pagination.pageSize)
    ensures r.results.transports == Paginate(g.transports, pagination.page, pagination.pageSize)
  {
    var page := pagination.page;
    var size := pagination.pageSize;
    var total := TotalOf(g);
    SearchResponse(
      query,
      total,
      ResultGroups(Paginate(g.offers, page, size), Paginate(g.purchases, page, size), Paginate(g.transports, page, size)),
      PageInfo(page, size, CeilDiv(total, size)))
  }

  // ---------------------------------------------------------------------------
  // Entry points

  /** `fetchSearchResults`. A blank query gives the zero response at once;
      otherwise the simple pipeline runs and its groups are paginated. */
  function FetchSearchResults(
    stages: Stages, data: Dataset, query: string, ctx: UserContext,
    pagination: PageRequest, status: StatusFilter): (r: SearchResponse)
    requires !AllWhitespace(query) ==> ValidPageRequest(pagination)
    ensures r.query == query
    ensures r.pagination.page == pagination.page && r.pagination.pageSize == pagination.pageSize
    ensures AllWhitespace(query) ==>
      && r.totalResults == 0
      && r.results == ResultGroups([], [], [])
      && r.pagination.totalPages == 0
    ensures !AllWhitespace(query) ==>
      var g := SimpleScoped(stages, data, query, status, ctx);
      && r.totalResults == |g.offers| + |g.purchases| + |g.transports|
      && r.totalResults <= r.pagination.totalPages * pagination.pageSize
           < r.totalResults + pagination.pageSize
      && r.results.offers == Paginate(g.offers, pagination.page, pagination.pageSize)
      && r.results.purchases == Paginate(g.purchases, pagination.page, pagination.pageSize)
      && r.results.transports == Paginate(g.transports, pagination.page, pagination.pageSize)
  {
    if IsBlank(query) then
      SearchResponse(query, 0, ResultGroups([], [], []), PageInfo(pagination.page, pagination.pageSize, 0))
    else
      Assemble(query, SimpleScoped(stages, data, query, status, ctx), pagination)
  }

  /** `fetchSearchResultsWithFilters`: the advanced pipeline, whatever the
      query, paginated. */
  function FetchSearchResultsWithFilters(
    stages: Stages, data: Dataset, query: string, filters: SearchFilters, ctx: UserContext,
    pagination: PageRequest): (r: SearchResponse)
    requires ValidPageRequest(pagination)
    ensures r.query == query
    ensures r.pagination.page == pagination.page && r.pagination.pageSize == pagination.pageSize
    ensures
      var g := AdvancedScoped(stages, data, query, filters, ctx);
      && r.totalResults == |g.offers| + |g.purchases| + |g.transports|
      && r.totalResults <= r.pagination.totalPages * pagination.pageSize
           < r.totalResults + pagination.pageSize
      && r.results.offers == Paginate(g.offers, pagination.page, pagination.pageSize)
      && r.results.purchases == Paginate(g.purchases, pagination.page, pagination.pageSize)
      && r.results.transports == Paginate(g.transports, pagination.page, pagination.pageSize)
  {
    Assemble(query, AdvancedScoped(stages, data, query, filters, ctx), pagination)
  }

  /** Simple search with the default arguments: page 1 of size 20, every
      status. */
  function FetchSearchResultsDefault(stages: Stages, data: Dataset, query: string, ctx: UserContext)
    : (r: SearchResponse)
    ensures r.query == query
    ensures r.pagination.page == 1 && r.pagination.pageSize == 20
    ensures |r.results.offers| <= 20 && |r.results.purchases| <= 20 && |r.results.transports| <= 20
    ensures !AllWhitespace(query) ==>
      var g := SimpleScoped(stages, data, query, All, ctx);
      && FirstRecords(r.results.offers, g.offers, 20)
      && FirstRecords(r.results.purchases, g.purchases, 20)
      && FirstRecords(r.results.transports, g.transports, 20)
  {
    var g := SimpleScoped(stages, data, query, All, ctx);
    FirstPageIsPrefix(g.offers, 20);
    FirstPageIsPrefix(g.purchases, 20);
    FirstPageIsPrefix(g.transports, 20);
    FetchSearchResults(stages, data, query, ctx, DefaultSimplePagination, DefaultStatusFilter)
  }

  /** Advanced search with the default pagination: page 1 of size 5. */
  function FetchSearchResultsWithFiltersDefault(
    stages: Stages, data: Dataset, query: string, filters: SearchFilters, ctx: UserContext)
    : (r: SearchResponse)
    ensures r.query == query
    ensures r.pagination.page == 1 && r.pagination.pageSize == 5
    ensures |r.results.offers| <= 5 && |r.results.purchases| <= 5 && |r.results.transports| <= 5
    ensures
      var g := AdvancedScoped(stages, data, query, filters, ctx);
      && FirstRecords(r.results.offers, g.offers, 5)
      && FirstRecords(r.results.purchases, g.purchases, 5)
      && FirstRecords(r.results.transports, g.transports, 5)
  {
    var g := AdvancedScoped(stages, data, query, filters, ctx);
    FirstPageIsPrefix(g.offers, 5);
    FirstPageIsPrefix(g.purchases, 5);
    FirstPageIsPrefix(g.transports, 5);
    FetchSearchResultsWithFilters(stages, data, query, filters, ctx, DefaultAdvancedPagination)
  }

  // ---------------------------------------------------------------------------
  // Properties of the pipeline

  /** A blank simple search touches neither the stages nor the dataset: any two
      choices of them give the same response. */
  lemma SimpleBlankIgnoresPipeline(
    stages1: Stages, data1: Dataset, stages2: Stages, data2: Dataset,
    query: string, ctx1: UserContext, ctx2: UserContext,
    pagination: PageRequest, status1: StatusFilter, status2: StatusFilter)
    requires AllWhitespace(query)
    ensures FetchSearchResults(stages1, data1, query, ctx1, pagination, status1)
         == FetchSearchResults(stages2, data2, query, ctx2, pagination, status2)
  {
  }

  /** The count of results and of pages does not depend on which page is
      asked for. */
  lemma TotalsIndependentOfPage(
    stages: Stages, data: Dataset, query: string, filters: SearchFilters, ctx: UserContext,
    status: StatusFilter, pageSize: int, page1: int, page2: int)
    requires pageSize >= 1 && page1 >= 1 && page2 >= 1
    ensures
      var a := FetchSearchResults(stages, data, query, ctx, PageRequest(page1, pageSize), status);
      var b := FetchSearchResults(stages, data, query, ctx, PageRequest(page2, pageSize), status);
      a.totalResults == b.totalResults && a.pagination.totalPages == b.pagination.totalPages
    ensures
      var a := FetchSearchResultsWithFilters(stages, data, query, filters, ctx, PageRequest(page1, pageSize));
      var b := FetchSearchResultsWithFilters(stages, data, query, filters, ctx, PageRequest(page2, pageSize));
      a.totalResults == b.totalResults && a.pagination.totalPages == b.pagination.totalPages
  {
  }

  /** Walking a non-blank simple search from page 1 to `totalPages` and
      concatenating each kind's pages gives back that kind's role-scoped
      sequence, with no record skipped or repeated. */
  lemma SimplePagesReassemble(
    stages: Stages, data: Dataset, query: string, ctx: UserContext,
    pagination: PageRequest, status: StatusFilter)
    requires ValidPageRequest(pagination) && !AllWhitespace(query)
    ensures
      var g := SimpleScoped(stages, data, query, status, ctx);
      var size := pagination.pageSize;
      var pageAt := (p: int) =>
        if p >= 1 then FetchSearchResults(stages, data, query, ctx, PageRequest(p, size), status) else
        SearchResponse(query, 0, ResultGroups([], [], []), PageInfo(p, size, 0));
      var totalPages := FetchSearchResults(stages, data, query, ctx, pagination, status).pagination.totalPages;
      && ConcatPages((p: int) => pageAt(p).results.offers, totalPages) == g.offers
      && ConcatPages((p: int) => pageAt(p).results.purchases, totalPages) == g.purchases
      && ConcatPages((p: int) => pageAt(p).results.transports, totalPages) == g.transports
  {
    var g := SimpleScoped(stages, data, query, status, ctx);
    var size := pagination.pageSize;
    var pageAt := (p: int) =>
      if p >= 1 then FetchSearchResults(stages, data, query, ctx, PageRequest(p, size), status) else
      SearchResponse(query, 0, ResultGroups([], [], []), PageInfo(p, size, 0));
    var total := TotalOf(g);
    var totalPages := FetchSearchResults(stages, data, query, ctx, pagination, status).pagination.totalPages;
    CeilDivUnique(total, size, totalPages);
    PagesReassemble(g.offers, total, size, (p: int) => pageAt(p).results.offers);
    PagesReassemble(g.purchases, total, size, (p: int) => pageAt(p).results.purchases);
    PagesReassemble(g.transports, total, size, (p: int) => pageAt(p).results.transports);
  }

  /** The same for advanced search, for every query including a blank one. */
  lemma AdvancedPagesReassemble(
    stages: Stages, data: Dataset, query: string, filters: SearchFilters, ctx: UserContext,
    pagination: PageRequest)
    requires ValidPageRequest(pagination)
    ensures
      var g := AdvancedScoped(stages, data, query, filters, ctx);
      var size := pagination.pageSize;
      var pageAt := (p: int) =>
        if p >= 1 then FetchSearchResultsWithFilters(stages, data, query, filters, ctx, PageRequest(p, size)) else
        SearchResponse(query, 0, ResultGroups([], [], []), PageInfo(p, size, 0));
      var totalPages := FetchSearchResultsWithFilters(stages, data, query, filters, ctx, pagination).pagination.totalPages;
      && ConcatPages((p: int) => pageAt(p).results.offers, totalPages) == g.offers
      && ConcatPages((p: int) => pageAt(p).results.purchases, totalPages) == g.purchases
      && ConcatPages((p: int) => pageAt(p).results.transports, totalPages) == g.transports
  {
    var g := AdvancedScoped(stages, data, query, filters, ctx);
    var size := pagination.pageSize;
    var pageAt := (p: int) =>
      if p >= 1 then FetchSearchResultsWithFilters(stages, data, query, filters, ctx, PageRequest(p, size)) else
      SearchResponse(query, 0, ResultGroups([], [], []), PageInfo(p, size, 0));
    var total := TotalOf(g);
    var totalPages := FetchSearchResultsWithFilters(stages, data, query, filters, ctx, pagination).pagination.totalPages;
    CeilDivUnique(total, size, totalPages);
    PagesReassemble(g.offers, total, size, (p: int) => pageAt(p).results.offers);
    PagesReassemble(g.purchases, total, size, (p: int) => pageAt(p).results.purchases);
    PagesReassemble(g.transports, total, size, (p: int) => pageAt(p).results.transports);
  }

  /** In simple search, a page past `totalPages` is empty in all three
      kinds. */
  lemma SimplePagesPastTotalAreEmpty(
    stages: Stages, data: Dataset, query: string, ctx: UserContext,
    status: StatusFilter, pagination: PageRequest)
    requires ValidPageRequest(pagination)
    ensures
      var r := FetchSearchResults(stages, data, query, ctx, pagination, status);
      pagination.page > r.pagination.totalPages ==> r.results == ResultGroups([], [], [])
  {
    var size := pagination.pageSize;
    var r := FetchSearchResults(stages, data, query, ctx, pagination, status);
    if !AllWhitespace(query) && pagination.page > r.pagination.totalPages {
      var g := SimpleScoped(stages, data, query, status, ctx);
      CeilDivUnique(TotalOf(g), size, r.pagination.totalPages);
      PagesAfterLastAreEmpty(g.offers, TotalOf(g), size, pagination.page);
      PagesAfterLastAreEmpty(g.purchases, TotalOf(g), size, pagination.page);
      PagesAfterLastAreEmpty(g.transports, TotalOf(g), size, pagination.page);
    }
  }

  /** In advanced search, a page past `totalPages` is empty in all three
      kinds. */
  lemma AdvancedPagesPastTotalAreEmpty(
    stages: Stages, data: Dataset, query: string, filters: SearchFilters, ctx: UserContext,
    pagination: PageRequest)
    requires ValidPageRequest(pagination)
    ensures
      var r := FetchSearchResultsWithFilters(stages, data, query, filters, ctx, pagination);
      pagination.page > r.pagination.totalPages ==> r.results == ResultGroups([], [], [])
  {
    var size := pagination.pageSize;
    var r := FetchSearchResultsWithFilters(stages, data, query, filters, ctx, pagination);
    if pagination.page > r.pagination.totalPages {
      var g := AdvancedScoped(stages, data, query, filters, ctx);
      CeilDivUnique(TotalOf(g), size, r.pagination.totalPages);
      PagesAfterLastAreEmpty(g.offers, TotalOf(g), size, pagination.page);
      PagesAfterLastAreEmpty(g.purchases, TotalOf(g), size, pagination.page);
      PagesAfterLastAreEmpty(g.transports, TotalOf(g), size, pagination.page);
    }
  }

  /** In advanced search a blank query skips the query stage: the advanced
      filter sees the full dataset, so replacing the three query functions by
      anything at all changes nothing, and the response has the same results
      and counts as for the empty query. */
  lemma AdvancedBlankSkipsQuery(
    stages: Stages, data: Dataset, query: string, filters: SearchFilters, ctx: UserContext,
    pagination: PageRequest,
    otherOffersByQuery: (seq<Offer>, string) -> seq<Offer>,
    otherPurchasesByQuery: (seq<Purchase>, string) -> seq<Purchase>,
    otherTransportsByQuery: (seq<Transport>, string) -> seq<Transport>)
    requires ValidPageRequest(pagination) && AllWhitespace(query)
    ensures
      var other := stages.(offersByQuery := otherOffersByQuery,
                           purchasesByQuery := otherPurchasesByQuery,
                           transportsByQuery := otherTransportsByQuery);
      FetchSearchResultsWithFilters(stages, data, query, filters, ctx, pagination)
        == FetchSearchResultsWithFilters(other, data, query, filters, ctx, pagination)
    ensures
      var a := FetchSearchResultsWithFilters(stages, data, query, filters, ctx, pagination);
      var b := FetchSearchResultsWithFilters(stages, data, "", filters, ctx, pagination);
      a.results == b.results && a.totalResults == b.totalResults && a.pagination == b.pagination
  {
  }

  /** In advanced search a non-blank query is applied first: the response has
      the same results and counts as a blank-query search over the dataset the
      query stage returns. */
  lemma AdvancedQueryRunsFirst(
    stages: Stages, data: Dataset, query: string, filters: SearchFilters, ctx: UserContext,
    pagination: PageRequest)
    requires ValidPageRequest(pagination) && !AllWhitespace(query)
    ensures
      var a := FetchSearchResultsWithFilters(stages, data, query, filters, ctx, pagination);
      var b := FetchSearchResultsWithFilters(stages, QueryStage(stages, data, query), "", filters, ctx, pagination);
      a.results == b.results && a.totalResults == b.totalResults && a.pagination == b.pagination
  {
  }

  /** For a non-blank query the two searches run the same pipeline: simple
      search is advanced search whose advanced stage is the coarse status
      stage. They differ only on a blank query, where simple search stops at
      once and advanced search still runs. */
  lemma SimpleIsAdvancedWithStatusStage(
    stages: Stages, data: Dataset, query: string, filters: SearchFilters, ctx: UserContext,
    pagination: PageRequest, status: StatusFilter)
    requires ValidPageRequest(pagination) && !AllWhitespace(query)
    ensures
      var statusAsAdvanced := stages.(
        offersAdvanced := (o: seq<Offer>, f: SearchFilters) => stages.offersByStatus(o, status),
        purchasesAdvanced := (p: seq<Purchase>, f: SearchFilters) => stages.purchasesByStatus(p, status),
        transportsAdvanced := (t: seq<Transport>, f: SearchFilters) => stages.transportsByStatus(t, status));
      FetchSearchResults(stages, data, query, ctx, pagination, status)
        == FetchSearchResultsWithFilters(statusAsAdvanced, data, query, filters, ctx, pagination)
  {
  }
}
