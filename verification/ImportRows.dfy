// Validating one CSV row.
module ImportRows {
  import opened Basics
  import opened Models
  import opened Strings
  import opened Amounts
  import opened Totals

  /** A CSV row: its cells by column name. */
  type RawRow = map<string, string>

  /** The library parsers a row is put through, each with no value for malformed text. */
  datatype Library = Library(
    date: string -> Option<Date>,
    integer: string -> Option<int>,
    jsonObject: string -> Option<map<string, string>>)

  /** What validation says about a row. */
  datatype RowResult = RowResult(
    number: nat, content: Option<NormalizedRow>, errors: seq<string>, key: Option<IdempotencyKey>)

  function Cell(raw: RawRow, field: string): Option<string> {
    if field in raw then Some(raw[field]) else None
  }

  function TextOf(raw: RawRow, field: string): Option<string> { EmptyToNone(Cell(raw, field)) }

  function TextOr(raw: RawRow, field: string, default: string): string {
    match TextOf(raw, field)
    case None => default
    case Some(text) => LowerAll(text)
  }

  function KindOf(word: string): Option<DocumentKind> {
    if word == "sale" then Some(Sale)
    else if word == "return" then Some(Return)
    else if word == "refund" then Some(Refund)
    else if word == "adjustment" then Some(Adjustment)
    else if word == "correction" then Some(Correction)
    else None
  }

  function StatusOf(word: string): Option<DocumentStatus> {
    if word == "draft" then Some(Drafted)
    else if word == "posted" then Some(Posted)
    else if word == "cancelled" then Some(Cancelled)
    else if word == "deleted" then Some(Deleted)
    else if word == "unknown" then Some(UnknownStatus)
    else None
  }

  function PaymentOf(word: string): Option<PaymentStatus> {
    if word == "unknown" then Some(UnknownPayment)
    else if word == "unpaid" then Some(Unpaid)
    else if word == "partial" then Some(Partial)
    else if word == "paid" then Some(Paid)
    else if word == "overpaid" then Some(Overpaid)
    else None
  }

  /** The column the gross amount is read from. */
  function AmountColumn(raw: RawRow): string {
    if "gross_amount" in raw && raw["gross_amount"] != "" then "gross_amount" else "amount"
  }

  function BuildIdempotencyKey(customer: string, d: Document): IdempotencyKey {
    match d.externalId
    case Some(id) => External(id)
    case None => Generated(customer, d.documentDate, d.gross, d.currency, d.number)
  }

  // ----- the specification: what a valid row must have -----

  function DateIn(raw: RawRow, field: string, lib: Library): Option<Date> {
    match TextOf(raw, field)
    case None => None
    case Some(text) => lib.date(text)
  }

  function CurrencyIn(raw: RawRow): Option<string> {
    match TextOf(raw, "currency")
    case None => None
    case Some(text) => NormalizeCurrency(text)
  }

  function ScaleIn(raw: RawRow, lib: Library): Option<nat> {
    match TextOf(raw, "currency_scale")
    case None => Some(0)
    case Some(text) =>
      match lib.integer(text)
      case Some(n) => if n >= 0 then Some(n) else None
      case None => None
  }

  function OptionalAmountIn(raw: RawRow, field: string, scale: nat): Option<Option<nat>> {
    if TextOf(raw, field).None? then Some(None)
    else
      match ParseAmountMinor(Cell(raw, field), scale)
      case Ok(minor) => Some(Some(minor))
      case Err(_) => None
  }

  datatype AmountCells = AmountCells(
    gross: nat, net: Option<nat>, vat: Option<nat>, discount: Option<nat>, paid: Option<nat>, debt: Option<nat>)

  function AmountsIn(raw: RawRow, scale: nat): Option<AmountCells> {
    var gross := ParseAmountMinor(Cell(raw, AmountColumn(raw)), scale);
    if gross.Err? then None
    else
      var net :- OptionalAmountIn(raw, "net_amount", scale);
      var vat :- OptionalAmountIn(raw, "vat_amount", scale);
      var discount :- OptionalAmountIn(raw, "discount_amount", scale);
      var paid :- OptionalAmountIn(raw, "paid_amount", scale);
      var debt :- OptionalAmountIn(raw, "debt_amount", scale);
      Some(AmountCells(gross.value, net, vat, discount, paid, debt))
  }

  /** A cell that may hold an integer: outside None it is malformed, inside None empty. */
  function IntegerIn(raw: RawRow, field: string, lib: Library): Option<Option<int>> {
    match TextOf(raw, field)
    case None => Some(None)
    case Some(text) =>
      match lib.integer(text)
      case None => None
      case Some(n) => Some(Some(n))
  }

  predicate SignFits(kind: DocumentKind, sign: int) {
    && (sign == 1 || sign == -1)
    && (kind == Return || kind == Refund ==> sign == -1)
    && (kind == Sale ==> sign == 1)
  }

  datatype ChoiceCells = ChoiceCells(kind: DocumentKind, status: DocumentStatus, payment: PaymentStatus, sign: int)

  /** The sign defaults to the document kind's own. */
  function Choose(kind: Option<DocumentKind>, status: Option<DocumentStatus>, payment: Option<PaymentStatus>,
                  given: Option<Option<int>>): Option<ChoiceCells> {
    if kind.None? || status.None? || payment.None? || given.None? then None
    else
      var sign := if given.value.Some? then given.value.value
                  else if kind.value == Return || kind.value == Refund then -1 else 1;
      if SignFits(kind.value, sign) then Some(ChoiceCells(kind.value, status.value, payment.value, sign)) else None
  }

  function ChoicesIn(raw: RawRow, lib: Library): Option<ChoiceCells> {
    Choose(KindOf(TextOr(raw, "document_kind", "sale")), StatusOf(TextOr(raw, "document_status", "posted")),
           PaymentOf(TextOr(raw, "payment_status", "unknown")), IntegerIn(raw, "amount_sign", lib))
  }

  function MetadataIn(raw: RawRow, lib: Library): Option<map<string, string>> {
    match TextOf(raw, "metadata")
    case None => Some(map[])
    case Some(text) => lib.jsonObject(text)
  }

  datatype HeadCells = HeadCells(
    customer: string, name: string, saleDate: Date, effective: Date, currency: string, scale: nat)

  function HeadIn(raw: RawRow, lib: Library): Option<HeadCells> {
    var customer :- TextOf(raw, "customer_external_id");
    var name :- TextOf(raw, "customer_name");
    var saleDate :- DateIn(raw, "sale_date", lib);
    var effective :- if TextOf(raw, "effective_date").None? then Some(saleDate) else DateIn(raw, "effective_date", lib);
    var currency :- CurrencyIn(raw);
    var scale :- ScaleIn(raw, lib);
    Some(HeadCells(customer, name, saleDate, effective, currency, scale))
  }

  /** The optional texts, which are copied as they are. */
  datatype TextCells = TextCells(
    phone: Option<string>, email: Option<string>, taxId: Option<string>,
    externalId: Option<string>, number: Option<string>, erpType: Option<string>)

  function TextsIn(raw: RawRow): TextCells {
    TextCells(TextOf(raw, "phone"), TextOf(raw, "email"), TextOf(raw, "tax_id"),
              TextOf(raw, "sale_external_id"), TextOf(raw, "document_number"), TextOf(raw, "document_type"))
  }

  function Assemble(head: HeadCells, amounts: AmountCells, choices: ChoiceCells, metadata: map<string, string>,
                    texts: TextCells)
    : NormalizedRow
  {
    var d := Document(choices.kind, choices.status, choices.payment, head.currency, head.scale,
                      amounts.gross, amounts.net, amounts.vat, amounts.discount, amounts.paid, amounts.debt,
                      choices.sign, head.saleDate, head.effective, texts.externalId, texts.number, texts.erpType);
    NormalizedRow(head.customer, Contact(head.name, texts.phone, texts.email, texts.taxId, metadata), d,
                  BuildIdempotencyKey(head.customer, d))
  }

  function AssembleIf(head: Option<HeadCells>, amounts: Option<AmountCells>, choices: Option<ChoiceCells>,
                      metadata: Option<map<string, string>>, texts: TextCells): Option<NormalizedRow> {
    if head.None? || amounts.None? || choices.None? || metadata.None? then None
    else Some(Assemble(head.value, amounts.value, choices.value, metadata.value, texts))
  }

  /** The content of a valid row; a row with any malformed cell has none. */
  function Content(raw: RawRow, lib: Library): Option<NormalizedRow> {
    var head := HeadIn(raw, lib);
    AssembleIf(head, AmountsIn(raw, if head.Some? then head.value.scale else 0), ChoicesIn(raw, lib),
               MetadataIn(raw, lib), TextsIn(raw))
  }

  /** What every valid row promises: the sign discipline, amounts that are not negative,
      hence admitted sales, and the key of its content. */
  predicate Admitted(row: NormalizedRow) {
    && SignFits(row.document.kind, row.document.sign)
    && row.document.gross >= 0
    && (row.document.kind == Sale ==> AdmittedSale(row.document))
    && row.key == BuildIdempotencyKey(row.customerExternalId, row.document)
  }

  lemma AssembledRowsAreAdmitted(head: Option<HeadCells>, amounts: Option<AmountCells>, choices: Option<ChoiceCells>,
                                 metadata: Option<map<string, string>>, texts: TextCells)
    requires choices.Some? ==> SignFits(choices.value.kind, choices.value.sign)
    ensures var row := AssembleIf(head, amounts, choices, metadata, texts); row.Some? ==> Admitted(row.value)
  {
  }

  lemma ValidRowsAreAdmitted(raw: RawRow, lib: Library)
    ensures Content(raw, lib).Some? ==> Admitted(Content(raw, lib).value)
  {
    var head := HeadIn(raw, lib);
    var choices := ChoicesIn(raw, lib);
    ChosenFit(KindOf(TextOr(raw, "document_kind", "sale")), StatusOf(TextOr(raw, "document_status", "posted")),
              PaymentOf(TextOr(raw, "payment_status", "unknown")), IntegerIn(raw, "amount_sign", lib));
    AssembledRowsAreAdmitted(head, AmountsIn(raw, if head.Some? then head.value.scale else 0), choices,
                             MetadataIn(raw, lib), TextsIn(raw));
  }

  lemma ChosenFit(kind: Option<DocumentKind>, status: Option<DocumentStatus>, payment: Option<PaymentStatus>,
                  given: Option<Option<int>>)
    ensures var c := Choose(kind, status, payment, given); c.Some? ==> SignFits(c.value.kind, c.value.sign)
  {
  }

  // ----- the content on the cells of the row -----

  /** The words of the three lists, and no others. */
  lemma Words(word: string)
    ensures KindOf("sale") == Some(Sale) && KindOf("return") == Some(Return) && KindOf("refund") == Some(Refund)
    ensures KindOf("adjustment") == Some(Adjustment) && KindOf("correction") == Some(Correction)
    ensures word !in ["sale", "return", "refund", "adjustment", "correction"] ==> KindOf(word) == None
    ensures StatusOf("draft") == Some(Drafted) && StatusOf("posted") == Some(Posted)
    ensures StatusOf("cancelled") == Some(Cancelled) && StatusOf("deleted") == Some(Deleted)
    ensures StatusOf("unknown") == Some(UnknownStatus)
    ensures word !in ["draft", "posted", "cancelled", "deleted", "unknown"] ==> StatusOf(word) == None
    ensures PaymentOf("unknown") == Some(UnknownPayment) && PaymentOf("unpaid") == Some(Unpaid)
    ensures PaymentOf("partial") == Some(Partial) && PaymentOf("paid") == Some(Paid)
    ensures PaymentOf("overpaid") == Some(Overpaid)
    ensures word !in ["unknown", "unpaid", "partial", "paid", "overpaid"] ==> PaymentOf(word) == None
  {
  }

  /** The cell's text without outer blanks; an empty cell has none. */
  predicate Holds(raw: RawRow, field: string, text: string) {
    field in raw && Strip(raw[field]) == text && text != ""
  }

  predicate Blank(raw: RawRow, field: string) { field !in raw || Strip(raw[field]) == "" }

  lemma TextOnCells(raw: RawRow, field: string)
    ensures TextOf(raw, field).None? <==> Blank(raw, field)
    ensures forall text :: TextOf(raw, field) == Some(text) <==> Holds(raw, field, text)
  {
  }

  /** Customer, name, dates, currency and scale: all but effective date and scale are
      required; the effective date is the sale date unless its cell says otherwise. */
  lemma HeadOnCells(raw: RawRow, lib: Library)
    ensures var head := HeadIn(raw, lib);
      head.Some? <==>
        && TextOf(raw, "customer_external_id").Some? && TextOf(raw, "customer_name").Some?
        && TextOf(raw, "sale_date").Some? && lib.date(TextOf(raw, "sale_date").value).Some?
        && (TextOf(raw, "effective_date").Some? ==> lib.date(TextOf(raw, "effective_date").value).Some?)
        && TextOf(raw, "currency").Some? && NormalizeCurrency(TextOf(raw, "currency").value).Some?
        && (TextOf(raw, "currency_scale").Some? ==>
              lib.integer(TextOf(raw, "currency_scale").value).Some?
              && lib.integer(TextOf(raw, "currency_scale").value).value >= 0)
    ensures var head := HeadIn(raw, lib);
      head.Some? ==>
        && Some(head.value.customer) == TextOf(raw, "customer_external_id")
        && Some(head.value.name) == TextOf(raw, "customer_name")
        && Some(head.value.saleDate) == lib.date(TextOf(raw, "sale_date").value)
        && (if TextOf(raw, "effective_date").Some?
            then Some(head.value.effective) == lib.date(TextOf(raw, "effective_date").value)
            else head.value.effective == head.value.saleDate)
        && Some(head.value.currency) == NormalizeCurrency(TextOf(raw, "currency").value)
        && (if TextOf(raw, "currency_scale").Some?
            then Some(head.value.scale as int) == lib.integer(TextOf(raw, "currency_scale").value)
            else head.value.scale == 0)
  {
  }

  /** The gross amount comes from its own column if there is text in it, else from the
      general one, and must be there; the other five may be empty. */
  predicate AmountFits(raw: RawRow, field: string, scale: nat, amount: Option<nat>) {
    if TextOf(raw, field).None? then amount == None
    else amount.Some? && ParseAmountMinor(Cell(raw, field), scale) == Ok(amount.value)
  }

  lemma AmountsOnCells(raw: RawRow, scale: nat)
    ensures var a := AmountsIn(raw, scale);
      var column := if "gross_amount" in raw && raw["gross_amount"] != "" then "gross_amount" else "amount";
      a.Some? ==>
        && ParseAmountMinor(Cell(raw, column), scale) == Ok(a.value.gross)
        && AmountFits(raw, "net_amount", scale, a.value.net) && AmountFits(raw, "vat_amount", scale, a.value.vat)
        && AmountFits(raw, "discount_amount", scale, a.value.discount)
        && AmountFits(raw, "paid_amount", scale, a.value.paid) && AmountFits(raw, "debt_amount", scale, a.value.debt)
    ensures var column := if "gross_amount" in raw && raw["gross_amount"] != "" then "gross_amount" else "amount";
      AmountsIn(raw, scale).None? <==>
        || ParseAmountMinor(Cell(raw, column), scale).Err?
        || !OptionalFits(raw, "net_amount", scale) || !OptionalFits(raw, "vat_amount", scale)
        || !OptionalFits(raw, "discount_amount", scale) || !OptionalFits(raw, "paid_amount", scale)
        || !OptionalFits(raw, "debt_amount", scale)
  {
    OptionalOnCell(raw, "net_amount", scale);
    OptionalOnCell(raw, "vat_amount", scale);
    OptionalOnCell(raw, "discount_amount", scale);
    OptionalOnCell(raw, "paid_amount", scale);
    OptionalOnCell(raw, "debt_amount", scale);
  }

  predicate OptionalFits(raw: RawRow, field: string, scale: nat) {
    TextOf(raw, field).Some? ==> ParseAmountMinor(Cell(raw, field), scale).Ok?
  }

  lemma OptionalOnCell(raw: RawRow, field: string, scale: nat)
    ensures OptionalAmountIn(raw, field, scale).Some? <==> OptionalFits(raw, field, scale)
    ensures OptionalAmountIn(raw, field, scale).Some? ==>
      AmountFits(raw, field, scale, OptionalAmountIn(raw, field, scale).value)
  {
  }

  /** Kind, status and payment status are known words, "sale", "posted" and "unknown" if
      left out; the sign is the one given, else -1 for a return or refund and 1 otherwise. */
  lemma ChoicesOnCells(kind: Option<DocumentKind>, status: Option<DocumentStatus>, payment: Option<PaymentStatus>,
                       given: Option<Option<int>>)
    ensures var c := Choose(kind, status, payment, given);
      c.Some? ==>
        && Some(c.value.kind) == kind && Some(c.value.status) == status && Some(c.value.payment) == payment
        && given.Some? && (given.value.Some? ==> c.value.sign == given.value.value)
        && (given.value.None? ==> c.value.sign == if c.value.kind in {Return, Refund} then -1 else 1)
    ensures Choose(kind, status, payment, given).Some? <==>
      && kind.Some? && status.Some? && payment.Some? && given.Some?
      && (given.value.Some? ==>
            && (given.value.value == 1 || given.value.value == -1)
            && (kind.value in {Return, Refund} ==> given.value.value == -1)
            && (kind.value == Sale ==> given.value.value == 1))
  {
  }

  lemma WordOrDefault(raw: RawRow, field: string, default: string)
    ensures TextOf(raw, field).None? ==> TextOr(raw, field, default) == default
    ensures TextOf(raw, field).Some? ==>
      |TextOr(raw, field, default)| == |TextOf(raw, field).value|
      && forall i :: 0 <= i < |TextOf(raw, field).value| ==>
           TextOr(raw, field, default)[i] == Lower(TextOf(raw, field).value[i])
  {
  }

  /** Every column of the row's content comes from its own cell. */
  lemma AssembledOnCells(head: HeadCells, amounts: AmountCells, choices: ChoiceCells, metadata: map<string, string>,
                         texts: TextCells)
    ensures var row := Assemble(head, amounts, choices, metadata, texts);
      var d := row.document;
      && row.customerExternalId == head.customer
      && row.contact == Contact(head.name, texts.phone, texts.email, texts.taxId, metadata)
      && d.kind == choices.kind && d.status == choices.status && d.payment == choices.payment && d.sign == choices.sign
      && d.currency == head.currency && d.scale == head.scale
      && d.documentDate == head.saleDate && d.effectiveDate == head.effective
      && d.gross == amounts.gross && d.net == amounts.net && d.vat == amounts.vat && d.discount == amounts.discount
      && d.paid == amounts.paid && d.debt == amounts.debt
      && d.externalId == texts.externalId && d.number == texts.number && d.erpType == texts.erpType
  {
  }

  lemma ContentOnCells(raw: RawRow, lib: Library)
    ensures Content(raw, lib).Some? ==>
      && HeadIn(raw, lib).Some? && ChoicesIn(raw, lib).Some? && MetadataIn(raw, lib).Some?
      && AmountsIn(raw, HeadIn(raw, lib).value.scale).Some?
      && Content(raw, lib).value == Assemble(
           HeadIn(raw, lib).value, AmountsIn(raw, HeadIn(raw, lib).value.scale).value, ChoicesIn(raw, lib).value,
           MetadataIn(raw, lib).value,
           TextCells(TextOf(raw, "phone"), TextOf(raw, "email"), TextOf(raw, "tax_id"),
                     TextOf(raw, "sale_external_id"), TextOf(raw, "document_number"), TextOf(raw, "document_type")))
    ensures HeadIn(raw, lib).Some? && ChoicesIn(raw, lib).Some? && MetadataIn(raw, lib).Some?
            && AmountsIn(raw, HeadIn(raw, lib).value.scale).Some?
        ==> Content(raw, lib).Some?
    ensures ChoicesIn(raw, lib) == Choose(
      KindOf(TextOr(raw, "document_kind", "sale")), StatusOf(TextOr(raw, "document_status", "posted")),
      PaymentOf(TextOr(raw, "payment_status", "unknown")),
      if TextOf(raw, "amount_sign").None? then Some(None)
      else if lib.integer(TextOf(raw, "amount_sign").value).None? then None
      else Some(lib.integer(TextOf(raw, "amount_sign").value)))
    ensures TextOf(raw, "metadata").None? ==> MetadataIn(raw, lib) == Some(map[])
    ensures TextOf(raw, "metadata").Some? ==> MetadataIn(raw, lib) == lib.jsonObject(TextOf(raw, "metadata").value)
  {
  }

  /** Two rows have the same key exactly when they have the same external id, or neither
      has one and customer, date, gross amount, currency and number are the same. */
  lemma SameKeyIff(customer: string, d: Document, other: string, e: Document)
    ensures BuildIdempotencyKey(customer, d) == BuildIdempotencyKey(other, e) <==>
      || (d.externalId.Some? && d.externalId == e.externalId)
      || (d.externalId.None? && e.externalId.None? && customer == other && d.documentDate == e.documentDate
          && d.gross == e.gross && d.currency == e.currency && d.number == e.number)
    ensures forall id :: BuildIdempotencyKey(customer, d) == External(id) <==> d.externalId == Some(id)
  {
  }

  // ----- the validator: one list of errors for the whole row -----

  method Complain(errors: seq<string>, bad: bool, message: string) returns (all: seq<string>)
    ensures |all| == |errors| + if bad then 1 else 0
  {
    all := if bad then errors + [message] else errors;
  }

  method ParseDate(value: Option<string>, field: string, errors: seq<string>, lib: Library)
    returns (date: Option<Date>, all: seq<string>)
    ensures date == match EmptyToNone(value) { case None => None case Some(text) => lib.date(text) }
    ensures |all| >= |errors| && (|all| == |errors| <==> date.Some?)
  {
    var text := EmptyToNone(value);
    if text.None? {
      return None, errors + [field + " is required."];
    }
    date := lib.date(text.value);
    all := if date.Some? then errors else errors + [field + " must use YYYY-MM-DD format."];
  }

  method ParseInt(raw: RawRow, field: string, errors: seq<string>, lib: Library)
    returns (n: Option<int>, all: seq<string>)
    ensures |all| >= |errors| && (|all| == |errors| <==> IntegerIn(raw, field, lib).Some?)
    ensures if |all| == |errors| then IntegerIn(raw, field, lib) == Some(n) else n == None
  {
    var text := TextOf(raw, field);
    if text.None? {
      return None, errors;
    }
    n := lib.integer(text.value);
    all := if n.Some? then errors else errors + [field + " must be an integer."];
  }

  method ParseCurrency(value: Option<string>, errors: seq<string>) returns (currency: Option<string>, all: seq<string>)
    ensures currency == match EmptyToNone(value) { case None => None case Some(text) => NormalizeCurrency(text) }
    ensures |all| >= |errors| && (|all| == |errors| <==> currency.Some?)
  {
    var text := EmptyToNone(value);
    if text.None? {
      return None, errors + ["currency is required."];
    }
    currency := NormalizeCurrency(text.value);
    all := if currency.Some? then errors else errors + ["currency must be a 3-letter ISO currency code."];
  }

  method ParseAmount(value: Option<string>, field: string, scale: nat, errors: seq<string>)
    returns (minor: Option<nat>, all: seq<string>)
    ensures minor == match ParseAmountMinor(value, scale) { case Ok(m) => Some(m) case Err(_) => None }
    ensures |all| >= |errors| && (|all| == |errors| <==> minor.Some?)
  {
    var parsed := ParseAmountMinor(value, scale);
    match parsed {
      case Ok(m) => return Some(m), errors;
      case Err(Required) => return None, errors + [field + " is required."];
      case Err(NotANumber) => return None, errors + [field + " must be a valid amount."];
      case Err(Negative) => return None, errors + [field + " must be non-negative."];
      case Err(TooManyFractionalDigits) => return None, errors + [field + " has too many fractional digits."];
    }
  }

  method OptionalAmount(raw: RawRow, field: string, scale: nat, errors: seq<string>)
    returns (minor: Option<nat>, all: seq<string>)
    ensures |all| >= |errors| && (|all| == |errors| <==> OptionalAmountIn(raw, field, scale).Some?)
    ensures |all| == |errors| ==> Some(minor) == OptionalAmountIn(raw, field, scale)
  {
    if TextOf(raw, field).None? {
      return None, errors;
    }
    minor, all := ParseAmount(Cell(raw, field), field, scale, errors);
  }

  method ParseAmounts(raw: RawRow, scale: nat, errors: seq<string>)
    returns (amounts: Option<AmountCells>, all: seq<string>)
    ensures amounts == AmountsIn(raw, scale)
    ensures |all| >= |errors| && (|all| == |errors| <==> amounts.Some?)
  {
    var column := AmountColumn(raw);
    var gross, net, vat, discount, paid, debt;
    gross, all := ParseAmount(Cell(raw, column), column, scale, errors);
    net, all := OptionalAmount(raw, "net_amount", scale, all);
    vat, all := OptionalAmount(raw, "vat_amount", scale, all);
    discount, all := OptionalAmount(raw, "discount_amount", scale, all);
    paid, all := OptionalAmount(raw, "paid_amount", scale, all);
    debt, all := OptionalAmount(raw, "debt_amount", scale, all);
    amounts := if |all| > |errors| then None else Some(AmountCells(gross.value, net, vat, discount, paid, debt));
  }

  method ParseChoices(raw: RawRow, errors: seq<string>, lib: Library)
    returns (choices: Option<ChoiceCells>, all: seq<string>)
    ensures choices == ChoicesIn(raw, lib)
    ensures |all| >= |errors| && (|all| == |errors| <==> choices.Some?)
  {
    var kind := KindOf(TextOr(raw, "document_kind", "sale"));
    var status := StatusOf(TextOr(raw, "document_status", "posted"));
    var payment := PaymentOf(TextOr(raw, "payment_status", "unknown"));
    var given;
    given, all := ParseInt(raw, "amount_sign", errors, lib);
    choices, all := CheckChoices(kind, status, payment, given, IntegerIn(raw, "amount_sign", lib), |errors|, all);
  }

  /** start is how many errors there were before the choices were looked at. */
  method CheckChoices(kind: Option<DocumentKind>, status: Option<DocumentStatus>, payment: Option<PaymentStatus>,
                      given: Option<int>, ghost cell: Option<Option<int>>, start: nat, errors: seq<string>)
    returns (choices: Option<ChoiceCells>, all: seq<string>)
    requires start <= |errors| && (start == |errors| <==> cell.Some?)
    requires if start == |errors| then cell == Some(given) else given == None
    ensures choices == Choose(kind, status, payment, cell)
    ensures |all| >= start && (|all| == start <==> choices.Some?)
  {
    all := errors;
    all := Complain(all, kind.None?, "document_kind has unsupported value.");
    all := Complain(all, status.None?, "document_status has unsupported value.");
    all := Complain(all, payment.None?, "payment_status has unsupported value.");
    var isReturn := kind == Some(Return) || kind == Some(Refund);
    var sign := if given.Some? then given.value else if isReturn then -1 else 1;
    all := CheckSign(kind, sign, all);
    choices := if |all| > start then None else Some(ChoiceCells(kind.value, status.value, payment.value, sign));
  }

  method CheckSign(kind: Option<DocumentKind>, sign: int, errors: seq<string>) returns (all: seq<string>)
    ensures |all| >= |errors|
    ensures kind.Some? ==> (|all| == |errors| <==> SignFits(kind.value, sign))
  {
    var isReturn := kind == Some(Return) || kind == Some(Refund);
    all := Complain(errors, sign != 1 && sign != -1, "amount_sign must be 1 or -1.");
    all := Complain(all, isReturn && sign != -1, "return/refund rows must use amount_sign -1.");
    all := Complain(all, kind == Some(Sale) && sign != 1, "sale rows must use amount_sign 1.");
  }

  method ParseScale(raw: RawRow, errors: seq<string>, lib: Library) returns (scale: nat, all: seq<string>)
    ensures |all| >= |errors| && (|all| == |errors| <==> ScaleIn(raw, lib).Some?)
    ensures |all| == |errors| ==> ScaleIn(raw, lib) == Some(scale)
  {
    var given;
    given, all := ParseInt(raw, "currency_scale", errors, lib);
    if given.Some? && given.value < 0 {
      return 0, all + ["currency_scale must be non-negative."];
    }
    scale := if given.Some? then given.value else 0;
  }

  /** The scale is 0 for the amounts that follow when it could not be read. */
  method ParseHead(raw: RawRow, lib: Library) returns (head: Option<HeadCells>, scale: nat, errors: seq<string>)
    ensures head == HeadIn(raw, lib) && (errors == [] <==> head.Some?)
    ensures head.Some? ==> scale == head.value.scale
  {
    errors := [];
    var customer, name := TextOf(raw, "customer_external_id"), TextOf(raw, "customer_name");
    errors := Complain(errors, customer.None?, "customer_external_id is required.");
    errors := Complain(errors, name.None?, "customer_name is required.");
    var saleDate, currency;
    saleDate, errors := ParseDate(Cell(raw, "sale_date"), "sale_date", errors, lib);
    var effective := saleDate;
    if TextOf(raw, "effective_date").Some? {
      effective, errors := ParseDate(Cell(raw, "effective_date"), "effective_date", errors, lib);
    }
    currency, errors := ParseCurrency(Cell(raw, "currency"), errors);
    scale, errors := ParseScale(raw, errors, lib);
    head := if errors != [] then None
            else Some(HeadCells(customer.value, name.value, saleDate.value, effective.value, currency.value, scale));
  }

  /** Every cell is checked and every complaint kept; content exists only without any. */
  method ValidateRow(raw: RawRow, number: nat, lib: Library) returns (r: RowResult)
    ensures r.number == number && r.content == Content(raw, lib)
    ensures r.errors == [] <==> r.content.Some?
    ensures r.content.Some? ==> r.key == Some(r.content.value.key)
  {
    var head, scale, errors := ParseHead(raw, lib);
    var amounts, choices;
    amounts, errors := ParseAmounts(raw, scale, errors);
    choices, errors := ParseChoices(raw, errors, lib);
    var metadata := MetadataIn(raw, lib);
    errors := Complain(errors, metadata.None?, "metadata must be a JSON object.");
    if errors != [] {
      var id := TextOf(raw, "sale_external_id");
      return RowResult(number, None, errors, if id.Some? then Some(External(id.value)) else None);
    }
    var row := Assemble(head.value, amounts.value, choices.value, metadata.value, TextsIn(raw));
    return RowResult(number, Some(row), errors, Some(row.key));
  }
}
