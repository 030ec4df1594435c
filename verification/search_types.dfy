/** The data model of the marketplace search: the three entity records, the
    union that tags them, the caller's role context, the coarse status filter,
    the advanced filter record, the grouped response and the label/hint maps.

    Every TypeScript string-literal union becomes a Dafny datatype with one
    constructor per literal, a `Name` function that gives the literal back and a
    `Parse` function that recognises exactly those literals. The `Parse`
    contracts state that the union is closed: a string is accepted iff it is
    the name of some constructor, and then it is the name of that constructor
    only. */
module SearchTypes {

  datatype Option<+T> = None | Some(value: T)

  // ---------------------------------------------------------------------------
  // Roles

  /** The four caller roles of the marketplace. */
  datatype UserType = Seller | Buyer | Carrier | Agent

  function UserTypeName(u: UserType): string {
    match u
    case Seller => "seller"
    case Buyer => "buyer"
    case Carrier => "carrier"
    case Agent => "agent"
  }

  function ParseUserType(s: string): (r: Option<UserType>)
    ensures forall u :: r == Some(u) <==> UserTypeName(u) == s
  {
    if s == "seller" then Some(Seller)
    else if s == "buyer" then Some(Buyer)
    else if s == "carrier" then Some(Carrier)
    else if s == "agent" then Some(Agent)
    else None
  }

  /** Who is asking: the role and the two opaque identifiers used for
      ownership matching by the role-scope stage. */
  datatype UserContext = UserContext(userType: UserType, accountId: string, userId: string)

  // ---------------------------------------------------------------------------
  // Entity kinds and their native enumerations

  datatype EntityType = OfferEntity | PurchaseEntity | TransportEntity

  function EntityTypeName(e: EntityType): string {
    match e
    case OfferEntity => "offer"
    case PurchaseEntity => "purchase"
    case TransportEntity => "transport"
  }

  function ParseEntityType(s: string): (r: Option<EntityType>)
    ensures forall e :: r == Some(e) <==> EntityTypeName(e) == s
  {
    if s == "offer" then Some(OfferEntity)
    else if s == "purchase" then Some(PurchaseEntity)
    else if s == "transport" then Some(TransportEntity)
    else None
  }

  datatype OfferCondition = New | Used | Certified

  function OfferConditionName(c: OfferCondition): string {
    match c
    case New => "new"
    case Used => "used"
    case Certified => "certified"
  }

  function ParseOfferCondition(s: string): (r: Option<OfferCondition>)
    ensures forall c :: r == Some(c) <==> OfferConditionName(c) == s
  {
    if s == "new" then Some(New)
    else if s == "used" then Some(Used)
    else if s == "certified" then Some(Certified)
    else None
  }

  datatype OfferStatus = Available | Pending | Sold

  function OfferStatusName(st: OfferStatus): string {
    match st
    case Available => "available"
    case Pending => "pending"
    case Sold => "sold"
  }

  function ParseOfferStatus(s: string): (r: Option<OfferStatus>)
    ensures forall st :: r == Some(st) <==> OfferStatusName(st) == s
  {
    if s == "available" then Some(Available)
    else if s == "pending" then Some(OfferStatus.Pending)
    else if s == "sold" then Some(Sold)
    else None
  }

  datatype PurchaseStatus = Pending | Completed | Cancelled

  function PurchaseStatusName(st: PurchaseStatus): string {
    match st
    case Pending => "pending"
    case Completed => "completed"
    case Cancelled => "cancelled"
  }

  function ParsePurchaseStatus(s: string): (r: Option<PurchaseStatus>)
    ensures forall st :: r == Some(st) <==> PurchaseStatusName(st) == s
  {
    if s == "pending" then Some(PurchaseStatus.Pending)
    else if s == "completed" then Some(Completed)
    else if s == "cancelled" then Some(PurchaseStatus.Cancelled)
    else None
  }

  datatype TransportStatus = Scheduled | InTransit | Delivered | Cancelled

  function TransportStatusName(st: TransportStatus): string {
    match st
    case Scheduled => "scheduled"
    case InTransit => "in_transit"
    case Delivered => "delivered"
    case Cancelled => "cancelled"
  }

  function ParseTransportStatus(s: string): (r: Option<TransportStatus>)
    ensures forall st :: r == Some(st) <==> TransportStatusName(st) == s
  {
    if s == "scheduled" then Some(Scheduled)
    else if s == "in_transit" then Some(TransportStatus.InTransit)
    else if s == "delivered" then Some(Delivered)
    else if s == "cancelled" then Some(TransportStatus.Cancelled)
    else None
  }

  // ---------------------------------------------------------------------------
  // Records. Each kind's `entityType` tag is fixed by the kind, so it is not a
  // field here: it is recovered from the `SearchResult` constructor below.
  // Every field is mandatory except the three related-offer fields of a
  // transport.

  datatype Offer = Offer(
    id: string,
    vin: string,
    make: string,
    model: string,
    year: int,
    price: real,
    location: string,
    condition: OfferCondition,
    status: OfferStatus)

  datatype Purchase = Purchase(
    id: string,
    purchaseId: string,
    offerVin: string,
    offerMake: string,
    offerModel: string,
    buyerName: string,
    buyerEmail: string,
    purchaseDate: string,
    status: PurchaseStatus)

  datatype Transport = Transport(
    id: string,
    transportId: string,
    carrierName: string,
    carrierPhone: string,
    pickupLocation: string,
    deliveryLocation: string,
    scheduleDate: string,
    status: TransportStatus,
    relatedOfferVin: Option<string>,
    relatedOfferMake: Option<string>,
    relatedOfferModel: Option<string>)

  /** The discriminated union of the three record kinds. */
  datatype SearchResult =
    | OfferResult(offer: Offer)
    | PurchaseResult(purchase: Purchase)
    | TransportResult(transport: Transport)

  function EntityTypeOf(r: SearchResult): EntityType {
    match r
    case OfferResult(_) => OfferEntity
    case PurchaseResult(_) => PurchaseEntity
    case TransportResult(_) => TransportEntity
  }

  /** The `entityType` string a record carries. */
  function Tag(r: SearchResult): string {
    EntityTypeName(EntityTypeOf(r))
  }

  /** The tag alone tells the variant: each variant has its own fixed literal,
      and two records share a tag exactly when they are the same variant. */
  lemma TagDiscriminates(r: SearchResult, q: SearchResult)
    ensures Tag(r) == "offer" <==> r.OfferResult?
    ensures Tag(r) == "purchase" <==> r.PurchaseResult?
    ensures Tag(r) == "transport" <==> r.TransportResult?
    ensures Tag(r) == Tag(q) <==> EntityTypeOf(r) == EntityTypeOf(q)
  {
  }

  /** An autocomplete suggestion: the matched record's id and kind, the full
      matched text and a highlighted variant of it. */
  datatype AutocompleteSuggestion = AutocompleteSuggestion(
    id: string,
    text: string,
    entityType: EntityType,
    highlightedText: string)

  // ---------------------------------------------------------------------------
  // Filters and response

  /** The coarse, cross-entity status filter. */
  datatype StatusFilter = All | Complete | Pending | InTransit

  function StatusFilterName(f: StatusFilter): string {
    match f
    case All => "all"
    case Complete => "complete"
    case Pending => "pending"
    case InTransit => "in_transit"
  }

  function ParseStatusFilter(s: string): (r: Option<StatusFilter>)
    ensures forall f :: r == Some(f) <==> StatusFilterName(f) == s
  {
    if s == "all" then Some(All)
    else if s == "complete" then Some(Complete)
    else if s == "pending" then Some(StatusFilter.Pending)
    else if s == "in_transit" then Some(StatusFilter.InTransit)
    else None
  }

  /** The advanced filter record. The year and price bounds are kept as the
      strings the form holds; interpreting them belongs to the advanced-filter
      stage. */
  datatype SearchFilters = SearchFilters(
    status: StatusFilter,
    make: string,
    model: string,
    minYear: string,
    maxYear: string,
    minPrice: string,
    maxPrice: string,
    location: string)

  /** Three homogeneous sequences, one per entity kind. Used both for the
      page of a response and for the output of the role-scope stage. */
  datatype ResultGroups = ResultGroups(
    offers: seq<Offer>,
    purchases: seq<Purchase>,
    transports: seq<Transport>)

  datatype PageInfo = PageInfo(page: int, pageSize: int, totalPages: nat)

  datatype SearchResponse = SearchResponse(
    query: string,
    totalResults: nat,
    results: ResultGroups,
    pagination: PageInfo)

  // ---------------------------------------------------------------------------
  // Label and hint maps (`Record<UserType, string>` and
  // `Record<StatusFilter, string>`)

  const UserTypeHints: map<UserType, string> := map[
    Seller := "You can only see your own offers.",
    Buyer := "You can search available offers and your purchase history.",
    Carrier := "You can search your transport assignments and related vehicles.",
    Agent := "You can search across offers, purchases, and transports."
  ]

  const UserTypeLabels: map<UserType, string> := map[
    Seller := "Seller",
    Buyer := "Buyer",
    Carrier := "Carrier",
    Agent := "Agent"
  ]

  const StatusFilterLabels: map<StatusFilter, string> := map[
    All := "All Status",
    Complete := "Complete",
    StatusFilter.Pending := "Pending",
    StatusFilter.InTransit := "In Transit"
  ]

  /** The three maps are total over their key enumerations. */
  lemma LabelMapsTotal()
    ensures forall u: UserType :: u in UserTypeHints && u in UserTypeLabels
    ensures forall f: StatusFilter :: f in StatusFilterLabels
  {
    forall u: UserType
      ensures u in UserTypeHints && u in UserTypeLabels
    {
      match u
      case Seller =>
      case Buyer =>
      case Carrier =>
      case Agent =>
    }
    forall f: StatusFilter
      ensures f in StatusFilterLabels
    {
      match f
      case All =>
      case Complete =>
      case Pending =>
      case InTransit =>
    }
  }

  /** The labels tell their keys apart. */
  lemma LabelsDistinct(u: UserType, v: UserType, f: StatusFilter, g: StatusFilter)
    ensures u in UserTypeLabels && v in UserTypeLabels
    ensures UserTypeLabels[u] == UserTypeLabels[v] ==> u == v
    ensures f in StatusFilterLabels && g in StatusFilterLabels
    ensures StatusFilterLabels[f] == StatusFilterLabels[g] ==> f == g
  {
  }
}
