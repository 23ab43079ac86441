// The rows of the tables the services share. All rows belong to one company.
module Models {
  import opened Basics

  type Id = nat
  type Date = int

  datatype Error =
    | CampaignNotFound | CustomerNotFound | TierNotFound | ClaimNotFound | BatchNotFound
    | LinkedCustomerNotFound
    | UnsupportedAmountBasis | UnsupportedPaymentRule | UnsupportedMismatchPolicy
    | CurrencyMismatch
    | ArchivedNotEditable | CompletedNotEditable | WrongStatus | NoActiveTiers
    | TierCurrencyDiffers | DuplicateAmount | BadDateRange | IncompleteReorder | NullColumn
    | ClaimsDisabled | CampaignNotClaimable | ProgressMissing | TierNotReached | ActiveClaimExists
    | NotPending | NotApproved | NotOpen | CustomerMayCancelPendingOnly
    | OutOfStock | ReservationInconsistent
    | TooManyRows | BatchNotCommittable | BatchAlreadyCommitted
    | SignMismatch | SourceKeyTaken | BadCurrency

  // ----- campaigns/models.py -----

  datatype CampaignStatus = Draft | Active | Paused | Completed | Archived

  datatype StockTrackingMode = Untracked | Soft | Strict

  /** The JSON values a stored rule may have. The strings the rules know are words of
      their own. */
  datatype RuleValue = Null | Flag(b: bool) | Number(n: int) | Text(word: RuleWord) | Container(empty: bool)

  datatype RuleWord =
    | GrossWord | NetWord | PaidWord
    | AllValidDocumentsWord | PaidOnlyWord | PaidAmountOnlyWord
    | ExcludeWord | FailWord
    | OtherWord(text: string)

  /** rules_json: the recognised keys, each present or absent; other keys have no effect. */
  datatype StoredRules = StoredRules(
    amountBasis: Option<RuleValue>,
    includeCancelled: Option<RuleValue>,
    includeDeleted: Option<RuleValue>,
    subtractReturns: Option<RuleValue>,
    paymentRule: Option<RuleValue>,
    currencyMismatchPolicy: Option<RuleValue>)

  datatype Campaign = Campaign(
    startDate: Date,
    endDate: Date,
    status: CampaignStatus,
    currency: string,
    rules: StoredRules,
    allowClaims: bool,
    deleted: bool)

  datatype GiftTier = GiftTier(
    campaign: Id,
    required: int,
    currency: string,
    mode: StockTrackingMode,
    stock: Option<int>,
    reserved: int,
    fulfilled: int,
    sortOrder: int,
    active: bool,
    deleted: bool)
  {
    function Available(): Option<int> {
      match stock
      case None => None
      case Some(quantity) => Some(quantity - reserved - fulfilled)
    }
  }

  // ----- sales/models.py -----

  datatype DocumentKind = Sale | Return | Refund | Adjustment | Correction

  datatype DocumentStatus = Drafted | Posted | Cancelled | Deleted | UnknownStatus

  datatype PaymentStatus = UnknownPayment | Unpaid | Partial | Paid | Overpaid

  /** The accounting content of a document. */
  datatype Document = Document(
    kind: DocumentKind,
    status: DocumentStatus,
    payment: PaymentStatus,
    currency: string,
    scale: nat,
    gross: int,
    net: Option<int>,
    vat: Option<int>,
    discount: Option<int>,
    paid: Option<int>,
    debt: Option<int>,
    sign: int,
    documentDate: Date,
    effectiveDate: Date,
    externalId: Option<string>,
    number: Option<string>,
    erpType: Option<string>)

  /** An idempotency key is the external id or a hash of stable parts. The hash is taken
      as injective, so the parts stand for it. */
  datatype IdempotencyKey =
    | External(id: string)
    | Generated(customer: string, saleDate: Date, amount: int, currency: string, number: Option<string>)

  datatype SourceKey = Csv(key: IdempotencyKey) | Other(text: string)

  /** What a CSV row says about the customer. */
  datatype Contact = Contact(
    name: string,
    phone: Option<string>,
    email: Option<string>,
    taxId: Option<string>,
    metadata: map<string, string>)

  /** A validated import row; its content hash is taken as injective. */
  datatype NormalizedRow = NormalizedRow(
    customerExternalId: string,
    contact: Contact,
    document: Document,
    key: IdempotencyKey)

  datatype SaleRecord = SaleRecord(
    customer: Id,
    document: Document,
    sourceCustomer: Option<string>,
    deletedInSource: bool,
    batch: Option<Id>,
    content: Option<NormalizedRow>,
    deleted: bool)

  // ----- progress/models.py -----

  datatype AmountBasis = Gross | Net | PaidBasis

  datatype PaymentRule = AllValidDocuments | PaidOnly | PaidAmountOnly

  datatype MismatchPolicy = Exclude | Fail

  datatype Rules = Rules(
    basis: AmountBasis,
    includeCancelled: bool,
    includeDeleted: bool,
    subtractReturns: bool,
    payment: PaymentRule,
    mismatch: MismatchPolicy)

  datatype Stats = Stats(
    included: nat,
    cancelled: nat,
    deleted: nat,
    currencyMismatch: nat,
    unpaid: nat,
    returnsIgnored: nat,
    noTiers: bool,
    basis: AmountBasis,
    payment: PaymentRule,
    mismatch: MismatchPolicy)

  datatype Snapshot = Snapshot(
    total: nat,
    currency: string,
    currentTier: Option<Id>,
    nextTier: Option<Id>,
    amountLeft: nat,
    basisPoints: nat,
    stats: Stats)

  // ----- claims/models.py -----

  datatype ClaimStatus = Pending | Approved | Rejected | Fulfilled | CancelledClaim

  datatype RewardClaim = RewardClaim(
    campaign: Id,
    customer: Id,
    tier: Id,
    status: ClaimStatus,
    decidedBy: Option<Id>,
    fulfilledBy: Option<Id>,
    cancelledBy: Option<Id>)

  // ----- customers/models.py -----

  datatype Customer = Customer(company: Id, contact: Contact, deleted: bool)

  datatype ExternalRef = ExternalRef(customer: Id, contact: Contact)

  // ----- imports/models.py -----

  datatype BatchStatus = DraftBatch | Previewed | CommittedBatch | FailedBatch | CancelledBatch

  datatype RowStatus = Valid | Invalid | CommittedRow | SkippedRow

  /** number, the validated content if there is any, and what became of the row */
  datatype ImportRow = ImportRow(number: nat, content: Option<NormalizedRow>, status: RowStatus)

  datatype ImportBatch = ImportBatch(
    status: BatchStatus,
    rows: seq<ImportRow>,
    totalRows: nat,
    validRows: nat,
    invalidRows: nat,
    committedRows: nat,
    skippedRows: nat)
}
