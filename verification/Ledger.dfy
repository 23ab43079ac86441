// What committing import rows does to customers, external references and sales.
module Ledger {
  import opened Basics
  import opened Models
  import opened Database
  import opened Strings

  datatype Ledger = Ledger(
    customers: map<Id, Customer>,
    refs: map<string, ExternalRef>,
    sales: map<SourceKey, SaleRecord>,
    next: Id)

  function LedgerOf(session: Session): Ledger
    reads session
  {
    Ledger(session.customers, session.refs, session.sales, session.nextCustomer)
  }

  /** References point at customers, and ids not yet drawn are free. */
  ghost predicate Sound(l: Ledger) {
    && (forall e :: e in l.refs ==> l.refs[e].customer in l.customers)
    && (forall k :: k in l.customers ==> k < l.next)
  }

  // ----- one row -----

  function Tidy(c: Contact): Contact {
    match c.email
    case None => c
    case Some(email) => c.(email := Some(LowerAll(email)))
  }

  function OrElse(said: Option<string>, known: Option<string>): Option<string> {
    if said.Some? then said else known
  }

  /** An update never erases phone, email or tax id; name and metadata are replaced. */
  function Merge(known: Contact, said: Contact): Contact {
    Contact(said.name, OrElse(said.phone, known.phone), OrElse(said.email, known.email),
            OrElse(said.taxId, known.taxId), said.metadata)
  }

  datatype SaleAction = Created | Updated | Skipped

  datatype RowOutcome = Failed | Done(createdCustomer: bool, updatedCustomer: bool, sale: SaleAction, customer: Id)

  function RecordFrom(row: NormalizedRow, customer: Id, batch: Id, deleted: bool): SaleRecord {
    SaleRecord(customer, row.document, Some(row.customerExternalId),
               row.document.status == Deleted, Some(batch), Some(row), deleted)
  }

  predicate Foreign(l: Ledger, company: Id, e: string) {
    e in l.refs && (l.refs[e].customer !in l.customers || l.customers[l.refs[e].customer].company != company)
  }

  /** The customer a row belongs to: the one its reference names, or a new one. */
  function OwnerId(l: Ledger, e: string): Id { if e in l.refs then l.refs[e].customer else l.next }

  function WithCustomer(l: Ledger, company: Id, row: NormalizedRow): Ledger
    requires !Foreign(l, company, row.customerExternalId)
  {
    var e, k, contact := row.customerExternalId, OwnerId(l, row.customerExternalId), Tidy(row.contact);
    l.(customers := l.customers[
         k := if e in l.refs then l.customers[k].(contact := Merge(l.customers[k].contact, contact))
              else Customer(company, contact, false)],
       refs := l.refs[e := ExternalRef(k, contact)],
       next := if e in l.refs then l.next else l.next + 1)
  }

  function SaleActionFor(l: Ledger, row: NormalizedRow): SaleAction {
    var key := Csv(row.key);
    if key !in l.sales then Created
    else if l.sales[key].content == Some(row) then Skipped
    else Updated
  }

  function WithSale(l: Ledger, batch: Id, row: NormalizedRow, customer: Id): Ledger {
    var key := Csv(row.key);
    match SaleActionFor(l, row)
    case Skipped => l
    case Created => l.(sales := l.sales[key := RecordFrom(row, customer, batch, false)])
    case Updated => l.(sales := l.sales[key := RecordFrom(row, customer, batch, l.sales[key].deleted)])
  }

  function CommitRow(l: Ledger, company: Id, batch: Id, row: NormalizedRow): (Ledger, RowOutcome) {
    var e := row.customerExternalId;
    if Foreign(l, company, e) then (l, Failed)
    else
      var k, m := OwnerId(l, e), WithCustomer(l, company, row);
      (WithSale(m, batch, row, k),
       Done(e !in l.refs, e in l.refs && m.customers[k].contact != l.customers[k].contact, SaleActionFor(l, row), k))
  }

  /** All rows in order: the final ledger and what happened to each row. */
  function CommitRows(l: Ledger, company: Id, batch: Id, rows: seq<NormalizedRow>): (r: (Ledger, seq<RowOutcome>))
    ensures |r.1| == |rows|
  {
    if rows == [] then (l, [])
    else
      var (mid, outcomes) := CommitRows(l, company, batch, rows[..|rows| - 1]);
      var (end, outcome) := CommitRow(mid, company, batch, rows[|rows| - 1]);
      (end, outcomes + [outcome])
  }

  lemma CommitRowsSnoc(l: Ledger, company: Id, batch: Id, rows: seq<NormalizedRow>, row: NormalizedRow)
    ensures var (mid, outcomes) := CommitRows(l, company, batch, rows);
            var (end, outcome) := CommitRow(mid, company, batch, row);
            CommitRows(l, company, batch, rows + [row]) == (end, outcomes + [outcome])
  {
  }

  function Affected(outcomes: seq<RowOutcome>): set<Id> {
    set o | o in outcomes && o.Done? && o.sale != Skipped :: o.customer
  }

  predicate DistinctKeys(rows: seq<NormalizedRow>) {
    forall i, j :: 0 <= i < j < |rows| ==> rows[i].key != rows[j].key
  }

  // ----- what only grows -----

  /** References keep their target, customers their company, and nothing is forgotten. */
  ghost predicate Grows(l: Ledger, m: Ledger) {
    && (forall e :: e in l.refs ==> e in m.refs && m.refs[e].customer == l.refs[e].customer)
    && l.customers.Keys <= m.customers.Keys
    && (forall k :: k in l.customers ==>
          m.customers[k].company == l.customers[k].company && m.customers[k].deleted == l.customers[k].deleted)
    && l.next <= m.next
  }

  lemma CommitRowGrows(l: Ledger, company: Id, batch: Id, row: NormalizedRow)
    requires Sound(l)
    ensures var m := CommitRow(l, company, batch, row).0;
            Sound(m) && Grows(l, m) && row.customerExternalId in m.refs
  {
    if !Foreign(l, company, row.customerExternalId) {
      WithCustomerGrows(l, company, row);
      WithSaleKeepsPeople(WithCustomer(l, company, row), batch, row, OwnerId(l, row.customerExternalId));
    }
  }

  lemma WithCustomerGrows(l: Ledger, company: Id, row: NormalizedRow)
    requires Sound(l) && !Foreign(l, company, row.customerExternalId)
    ensures var m := WithCustomer(l, company, row);
            Sound(m) && Grows(l, m) && row.customerExternalId in m.refs
  {
  }

  lemma WithSaleKeepsPeople(l: Ledger, batch: Id, row: NormalizedRow, customer: Id)
    ensures var m := WithSale(l, batch, row, customer);
            m.customers == l.customers && m.refs == l.refs && m.next == l.next
  {
  }

  lemma {:induction false} CommitRowsGrow(l: Ledger, company: Id, batch: Id, rows: seq<NormalizedRow>)
    requires Sound(l)
    ensures var m := CommitRows(l, company, batch, rows).0;
            && Sound(m) && Grows(l, m)
            && forall i :: 0 <= i < |rows| ==> rows[i].customerExternalId in m.refs
  {
    if rows == [] {
    } else {
      var front, last := rows[..|rows| - 1], rows[|rows| - 1];
      CommitRowsGrow(l, company, batch, front);
      CommitRowGrows(CommitRows(l, company, batch, front).0, company, batch, last);
    }
  }

  // ----- customers: a last-non-null-wins fold -----

  lemma MergeLaws(a: Contact, b: Contact, c: Contact)
    ensures Merge(Merge(a, b), c) == Merge(a, Merge(b, c))
    ensures Merge(a, a) == a
  {
  }

  function Join(a: Option<Contact>, b: Option<Contact>): Option<Contact> {
    if a.None? then b else if b.None? then a else Some(Merge(a.value, b.value))
  }

  /** The rows that write customer k: their reference resolves to k, and k is ours. */
  predicate Writes(row: NormalizedRow, targets: map<string, Id>, own: set<Id>, k: Id) {
    row.customerExternalId in targets && targets[row.customerExternalId] == k && k in own
  }

  /** Everything the rows say about customer k, later rows over earlier ones. */
  function Said(rows: seq<NormalizedRow>, targets: map<string, Id>, own: set<Id>, k: Id): Option<Contact> {
    if rows == [] then None
    else
      var front, last := rows[..|rows| - 1], rows[|rows| - 1];
      var said := Said(front, targets, own, k);
      if Writes(last, targets, own, k) then Join(said, Some(Tidy(last.contact))) else said
  }

  function ContactOf(l: Ledger, k: Id): Option<Contact> {
    if k in l.customers then Some(l.customers[k].contact) else None
  }

  /** targets and own describe a ledger's references and this company's customers. */
  ghost predicate Describes(targets: map<string, Id>, own: set<Id>, l: Ledger, company: Id) {
    && (forall e :: e in l.refs ==> e in targets && targets[e] == l.refs[e].customer)
    && (forall k :: k in l.customers ==> (k in own <==> l.customers[k].company == company))
  }

  /** The final contact of every customer is what it was, joined with what was said. */
  lemma {:induction false} ContactsAreFolds(l: Ledger, company: Id, batch: Id, rows: seq<NormalizedRow>,
                                            targets: map<string, Id>, own: set<Id>, k: Id)
    requires Sound(l) && Describes(targets, own, CommitRows(l, company, batch, rows).0, company)
    ensures ContactOf(CommitRows(l, company, batch, rows).0, k) == Join(ContactOf(l, k), Said(rows, targets, own, k))
  {
    if rows == [] {
    } else {
      var front, last := rows[..|rows| - 1], rows[|rows| - 1];
      var mid := CommitRows(l, company, batch, front).0;
      CommitRowsGrow(l, company, batch, front);
      CommitRowGrows(mid, company, batch, last);
      ContactsAreFolds(l, company, batch, front, targets, own, k);
      RowJoins(mid, company, batch, last, targets, own, k);
      JoinAssociates(ContactOf(l, k), Said(front, targets, own, k), Some(Tidy(last.contact)));
    }
  }

  lemma JoinAssociates(a: Option<Contact>, b: Option<Contact>, c: Option<Contact>)
    ensures Join(Join(a, b), c) == Join(a, Join(b, c))
  {
  }

  lemma RowJoins(l: Ledger, company: Id, batch: Id, row: NormalizedRow, targets: map<string, Id>, own: set<Id>, k: Id)
    requires Sound(l) && Describes(targets, own, CommitRow(l, company, batch, row).0, company)
    ensures ContactOf(CommitRow(l, company, batch, row).0, k)
         == if Writes(row, targets, own, k) then Join(ContactOf(l, k), Some(Tidy(row.contact))) else ContactOf(l, k)
  {
    var m := CommitRow(l, company, batch, row).0;
    CommitRowGrows(l, company, batch, row);
    assert targets[row.customerExternalId] == m.refs[row.customerExternalId].customer;
  }

  // ----- customers, field by field -----

  /** The row's reference leads to customer k of this company. */
  predicate Names(l: Ledger, company: Id, row: NormalizedRow, k: Id) {
    && row.customerExternalId in l.refs && l.refs[row.customerExternalId].customer == k
    && k in l.customers && l.customers[k].company == company
  }

  /** One row: name and metadata are replaced, phone, email and tax id only if the row has
      them, the email in lower case; no other customer changes, and a new customer is a
      live one of the company. */
  lemma RowOnFields(l: Ledger, company: Id, batch: Id, row: NormalizedRow, k: Id)
    requires Sound(l) && k in CommitRow(l, company, batch, row).0.customers
    ensures var m := CommitRow(l, company, batch, row).0;
      var now, said := m.customers[k].contact, row.contact;
      if Names(m, company, row, k) then
        && now.name == said.name && now.metadata == said.metadata
        && (said.phone.Some? ==> now.phone == said.phone)
        && (said.taxId.Some? ==> now.taxId == said.taxId)
        && (said.email.Some? ==> now.email == Some(LowerAll(said.email.value)))
        && (said.phone.None? ==> now.phone == if k in l.customers then l.customers[k].contact.phone else None)
        && (said.taxId.None? ==> now.taxId == if k in l.customers then l.customers[k].contact.taxId else None)
        && (said.email.None? ==> now.email == if k in l.customers then l.customers[k].contact.email else None)
        && (k !in l.customers ==> m.customers[k].company == company && !m.customers[k].deleted)
      else k in l.customers && m.customers[k] == l.customers[k]
  {
  }

  /** The last value there is wins; without any, the old one stays. */
  ghost predicate LastWins<T(!new)>(given: seq<Option<T>>, was: Option<T>, now: Option<T>) {
    && (forall i :: 0 <= i < |given| && IsLast(given, i) ==> now == given[i])
    && ((forall i :: 0 <= i < |given| ==> given[i].None?) ==> now == was)
  }

  ghost predicate IsLast<T(!new)>(given: seq<Option<T>>, i: nat)
    requires i < |given|
  {
    given[i].Some? && forall j :: i < j < |given| ==> given[j].None?
  }

  lemma LastWinsSnoc<T(!new)>(given: seq<Option<T>>, last: Option<T>, was: Option<T>, before: Option<T>, now: Option<T>)
    requires LastWins(given, was, before) && now == if last.Some? then last else before
    ensures LastWins(given + [last], was, now)
  {
    var all := given + [last];
    assert all[|given|] == last;
    forall i | 0 <= i < |all| && IsLast(all, i) ensures now == all[i] {
      if i < |given| {
        assert forall j :: i < j < |given| ==> given[j] == all[j];
        assert IsLast(given, i);
      }
    }
    if forall i :: 0 <= i < |all| ==> all[i].None? {
      assert forall i :: 0 <= i < |given| ==> given[i] == all[i];
    }
  }

  // What the rows that name a customer give, column by column.

  function Phones(l: Ledger, company: Id, rows: seq<NormalizedRow>, k: Id): seq<Option<string>> {
    seq(|rows|, i requires 0 <= i < |rows| => if Names(l, company, rows[i], k) then rows[i].contact.phone else None)
  }

  function TaxIds(l: Ledger, company: Id, rows: seq<NormalizedRow>, k: Id): seq<Option<string>> {
    seq(|rows|, i requires 0 <= i < |rows| => if Names(l, company, rows[i], k) then rows[i].contact.taxId else None)
  }

  function Emails(l: Ledger, company: Id, rows: seq<NormalizedRow>, k: Id): seq<Option<string>> {
    seq(|rows|, i requires 0 <= i < |rows| =>
      if Names(l, company, rows[i], k) && rows[i].contact.email.Some? then Some(LowerAll(rows[i].contact.email.value))
      else None)
  }

  function NamesGiven(l: Ledger, company: Id, rows: seq<NormalizedRow>, k: Id): seq<Option<string>> {
    seq(|rows|, i requires 0 <= i < |rows| =>
      if Names(l, company, rows[i], k) then Some(rows[i].contact.name) else None)
  }

  function MetadataGiven(l: Ledger, company: Id, rows: seq<NormalizedRow>, k: Id): seq<Option<map<string, string>>> {
    seq(|rows|, i requires 0 <= i < |rows| =>
      if Names(l, company, rows[i], k) then Some(rows[i].contact.metadata) else None)
  }

  function PhoneOf(c: Option<Contact>): Option<string> { if c.Some? then c.value.phone else None }

  function TaxIdOf(c: Option<Contact>): Option<string> { if c.Some? then c.value.taxId else None }

  function EmailOf(c: Option<Contact>): Option<string> { if c.Some? then c.value.email else None }

  function NameOf(c: Option<Contact>): Option<string> { if c.Some? then Some(c.value.name) else None }

  function MetadataOf(c: Option<Contact>): Option<map<string, string>> {
    if c.Some? then Some(c.value.metadata) else None
  }

  ghost predicate KeptColumns(end: Ledger, company: Id, rows: seq<NormalizedRow>, k: Id, was: Option<Contact>,
                            now: Option<Contact>) {
    && LastWins(Phones(end, company, rows, k), PhoneOf(was), PhoneOf(now))
    && LastWins(TaxIds(end, company, rows, k), TaxIdOf(was), TaxIdOf(now))
    && LastWins(Emails(end, company, rows, k), EmailOf(was), EmailOf(now))
  }

  ghost predicate ReplacedColumns(end: Ledger, company: Id, rows: seq<NormalizedRow>, k: Id, was: Option<Contact>,
                           now: Option<Contact>) {
    && LastWins(NamesGiven(end, company, rows, k), NameOf(was), NameOf(now))
    && LastWins(MetadataGiven(end, company, rows, k), MetadataOf(was), MetadataOf(now))
  }

  /** What one row makes of a customer's contact. */
  predicate OneRow(named: bool, said: Contact, before: Option<Contact>, now: Option<Contact>) {
    && (!named ==> now == before)
    && (named ==>
          && now.Some? && now.value.name == said.name && now.value.metadata == said.metadata
          && now.value.phone == (if said.phone.Some? then said.phone else PhoneOf(before))
          && now.value.taxId == (if said.taxId.Some? then said.taxId else TaxIdOf(before))
          && now.value.email == if said.email.Some? then Some(LowerAll(said.email.value)) else EmailOf(before))
  }

  lemma RowIsOneRow(l: Ledger, company: Id, batch: Id, row: NormalizedRow, k: Id)
    requires Sound(l)
    ensures var m := CommitRow(l, company, batch, row).0;
            OneRow(Names(m, company, row, k), row.contact, ContactOf(l, k), ContactOf(m, k))
  {
    CommitRowGrows(l, company, batch, row);
    if k in CommitRow(l, company, batch, row).0.customers {
      RowOnFields(l, company, batch, row, k);
    }
  }

  lemma KeptColumnsOne(end: Ledger, company: Id, front: seq<NormalizedRow>, last: NormalizedRow, k: Id,
                     was: Option<Contact>, before: Option<Contact>, now: Option<Contact>)
    requires KeptColumns(end, company, front, k, was, before)
    requires OneRow(Names(end, company, last, k), last.contact, before, now)
    ensures KeptColumns(end, company, front + [last], k, was, now)
  {
    var n, rows := |front|, front + [last];
    var phones, taxIds := Phones(end, company, rows, k), TaxIds(end, company, rows, k);
    var emails := Emails(end, company, rows, k);
    LastWinsSnoc(Phones(end, company, front, k), phones[n], PhoneOf(was), PhoneOf(before), PhoneOf(now));
    LastWinsSnoc(TaxIds(end, company, front, k), taxIds[n], TaxIdOf(was), TaxIdOf(before), TaxIdOf(now));
    LastWinsSnoc(Emails(end, company, front, k), emails[n], EmailOf(was), EmailOf(before), EmailOf(now));
    assert phones == Phones(end, company, front, k) + [phones[n]];
    assert taxIds == TaxIds(end, company, front, k) + [taxIds[n]];
    assert emails == Emails(end, company, front, k) + [emails[n]];
  }

  lemma ReplacedColumnsOne(end: Ledger, company: Id, front: seq<NormalizedRow>, last: NormalizedRow, k: Id,
                    was: Option<Contact>, before: Option<Contact>, now: Option<Contact>)
    requires ReplacedColumns(end, company, front, k, was, before)
    requires OneRow(Names(end, company, last, k), last.contact, before, now)
    ensures ReplacedColumns(end, company, front + [last], k, was, now)
  {
    var n, rows := |front|, front + [last];
    var names, metadata := NamesGiven(end, company, rows, k), MetadataGiven(end, company, rows, k);
    LastWinsSnoc(NamesGiven(end, company, front, k), names[n], NameOf(was), NameOf(before), NameOf(now));
    LastWinsSnoc(MetadataGiven(end, company, front, k), metadata[n], MetadataOf(was), MetadataOf(before),
                 MetadataOf(now));
    assert names == NamesGiven(end, company, front, k) + [names[n]];
    assert metadata == MetadataGiven(end, company, front, k) + [metadata[n]];
  }

  /** Names reads the same in every later ledger. */
  lemma NamesStays(l: Ledger, end: Ledger, company: Id, row: NormalizedRow, k: Id)
    requires Sound(l) && Grows(l, end) && row.customerExternalId in l.refs
    ensures Names(l, company, row, k) <==> Names(end, company, row, k)
  {
  }

  lemma GrowsTwice(a: Ledger, b: Ledger, c: Ledger)
    requires Grows(a, b) && Grows(b, c)
    ensures Grows(a, c)
  {
  }

  /** The customer fold, field by field over a whole commit: phone, tax id and lower-cased
      email are those of the last row naming the customer that has one, the old ones if no
      such row exists; name and metadata are those of the last row naming the customer. */
  lemma {:induction false} ContactOnFields(l: Ledger, company: Id, batch: Id, rows: seq<NormalizedRow>, k: Id,
                                           end: Ledger)
    requires Sound(l) && Grows(CommitRows(l, company, batch, rows).0, end)
    ensures var was, now := ContactOf(l, k), ContactOf(CommitRows(l, company, batch, rows).0, k);
            KeptColumns(end, company, rows, k, was, now) && ReplacedColumns(end, company, rows, k, was, now)
  {
    if rows == [] {
    } else {
      var front, last := rows[..|rows| - 1], rows[|rows| - 1];
      assert rows == front + [last];
      var mid, m := CommitRows(l, company, batch, front).0, CommitRows(l, company, batch, rows).0;
      CommitRowsSnoc(l, company, batch, front, last);
      CommitRowsGrow(l, company, batch, front);
      CommitRowGrows(mid, company, batch, last);
      GrowsTwice(mid, m, end);
      ContactOnFields(l, company, batch, front, k, end);
      RowIsOneRow(mid, company, batch, last, k);
      NamesStays(m, end, company, last, k);
      KeptColumnsOne(end, company, front, last, k, ContactOf(l, k), ContactOf(mid, k), ContactOf(m, k));
      ReplacedColumnsOne(end, company, front, last, k, ContactOf(l, k), ContactOf(mid, k), ContactOf(m, k));
    }
  }

  /** In the words of a reader: the phone of the last row that names the customer and has
      one, else the phone there was. */
  lemma FinalPhone(l: Ledger, company: Id, batch: Id, rows: seq<NormalizedRow>, k: Id)
    requires Sound(l) && k in CommitRows(l, company, batch, rows).0.customers
    ensures var m := CommitRows(l, company, batch, rows).0;
      && (forall i :: 0 <= i < |rows| && Names(m, company, rows[i], k) && rows[i].contact.phone.Some?
            && (forall j :: i < j < |rows| && Names(m, company, rows[j], k) ==> rows[j].contact.phone.None?)
            ==> m.customers[k].contact.phone == rows[i].contact.phone)
      && ((forall i :: 0 <= i < |rows| && Names(m, company, rows[i], k) ==> rows[i].contact.phone.None?)
            ==> m.customers[k].contact.phone == if k in l.customers then l.customers[k].contact.phone else None)
  {
    var m := CommitRows(l, company, batch, rows).0;
    CommitRowsGrow(l, company, batch, rows);
    ContactOnFields(l, company, batch, rows, k, m);
    var phones := Phones(m, company, rows, k);
    forall i | 0 <= i < |rows| && Names(m, company, rows[i], k) && rows[i].contact.phone.Some?
               && (forall j :: i < j < |rows| && Names(m, company, rows[j], k) ==> rows[j].contact.phone.None?)
      ensures m.customers[k].contact.phone == rows[i].contact.phone
    {
      assert IsLast(phones, i);
    }
  }

  // ----- references: the last row wins -----

  function LastSaid(rows: seq<NormalizedRow>, e: string): Option<Contact> {
    if rows == [] then None
    else if rows[|rows| - 1].customerExternalId == e then Some(Tidy(rows[|rows| - 1].contact))
    else LastSaid(rows[..|rows| - 1], e)
  }

  lemma {:induction false} RefsAreLast(l: Ledger, company: Id, batch: Id, rows: seq<NormalizedRow>, e: string)
    requires Sound(l)
    ensures var m := CommitRows(l, company, batch, rows).0;
            if Foreign(l, company, e) || LastSaid(rows, e).None?
            then (e in m.refs <==> e in l.refs) && (e in l.refs ==> m.refs[e] == l.refs[e])
            else e in m.refs && m.refs[e].contact == LastSaid(rows, e).value
  {
    if rows == [] {
    } else {
      var front, last := rows[..|rows| - 1], rows[|rows| - 1];
      CommitRowsGrow(l, company, batch, front);
      RefsAreLast(l, company, batch, front, e);
      ForeignIsFixed(l, company, batch, front, e);
    }
  }

  /** Whether a reference leads outside the company never changes. */
  lemma {:induction false} ForeignIsFixed(l: Ledger, company: Id, batch: Id, rows: seq<NormalizedRow>, e: string)
    requires Sound(l)
    ensures Foreign(CommitRows(l, company, batch, rows).0, company, e) <==> Foreign(l, company, e)
  {
    if rows == [] {
    } else {
      var front := rows[..|rows| - 1];
      CommitRowsGrow(l, company, batch, front);
      ForeignIsFixed(l, company, batch, front, e);
      CommitRowGrows(CommitRows(l, company, batch, front).0, company, batch, rows[|rows| - 1]);
    }
  }

  // ----- sales: one key, one row -----

  predicate KeyIn(rows: seq<NormalizedRow>, key: SourceKey) {
    exists i :: 0 <= i < |rows| && Csv(rows[i].key) == key
  }

  /** Keys that no row has are untouched. */
  lemma {:induction false} OtherKeysUntouched(l: Ledger, company: Id, batch: Id, rows: seq<NormalizedRow>,
                                              key: SourceKey)
    requires !KeyIn(rows, key)
    ensures SameSale(l, CommitRows(l, company, batch, rows).0, key)
  {
    if rows == [] {
    } else {
      var front, last := rows[..|rows| - 1], rows[|rows| - 1];
      assert !KeyIn(front, key) by {
        assert forall i :: 0 <= i < |front| ==> front[i] == rows[i];
      }
      OtherKeysUntouched(l, company, batch, front, key);
      assert Csv(last.key) != key;
    }
  }

  /** Each row's key holds its content afterwards, unless the row failed, and what happened
      to a row depends only on the starting ledger. */
  lemma {:induction false} EveryRowDone(l: Ledger, company: Id, batch: Id, rows: seq<NormalizedRow>, i: nat)
    requires Sound(l) && DistinctKeys(rows) && i < |rows|
    ensures var (m, outcomes) := CommitRows(l, company, batch, rows);
            RowDone(l, m, company, batch, rows[i], outcomes[i])
  {
    var front, last := rows[..|rows| - 1], rows[|rows| - 1];
    var (mid, outcomes) := CommitRows(l, company, batch, front);
    CommitRowsGrow(l, company, batch, front);
    CommitRowGrows(mid, company, batch, last);
    if i < |front| {
      EveryRowDone(l, company, batch, front, i);
      LaterRowKeeps(l, mid, company, batch, rows[i], outcomes[i], last);
    } else {
      ForeignIsFixed(l, company, batch, front, last.customerExternalId);
      OtherKeysUntouched(l, company, batch, front, Csv(last.key));
      RowDoneAtOnce(mid, company, batch, last);
    }
  }

  lemma RowDoneAtOnce(l: Ledger, company: Id, batch: Id, row: NormalizedRow)
    requires Sound(l)
    ensures var (m, outcome) := CommitRow(l, company, batch, row); RowDone(l, m, company, batch, row, outcome)
  {
  }

  lemma LaterRowKeeps(l: Ledger, mid: Ledger, company: Id, batch: Id, row: NormalizedRow, outcome: RowOutcome,
                      last: NormalizedRow)
    requires Sound(mid) && RowDone(l, mid, company, batch, row, outcome) && row.key != last.key
    ensures RowDone(l, CommitRow(mid, company, batch, last).0, company, batch, row, outcome)
  {
    CommitRowGrows(mid, company, batch, last);
  }

  predicate SameSale(l: Ledger, m: Ledger, key: SourceKey) {
    && (key in l.sales <==> key in m.sales)
    && (key in l.sales ==> l.sales[key] == m.sales[key])
  }

  predicate RowDone(l: Ledger, m: Ledger, company: Id, batch: Id, row: NormalizedRow, outcome: RowOutcome) {
    var key := Csv(row.key);
    if Foreign(l, company, row.customerExternalId) then outcome == Failed && SameSale(l, m, key)
    else
      && outcome.Done? && outcome.sale == SaleActionFor(l, row)
      && row.customerExternalId in m.refs && m.refs[row.customerExternalId].customer == outcome.customer
      && key in m.sales && m.sales[key].content == Some(row)
      && (outcome.sale == Skipped ==> SameSale(l, m, key))
      && (outcome.sale == Created ==> m.sales[key] == RecordFrom(row, outcome.customer, batch, false))
      && (outcome.sale == Updated ==> m.sales[key] == RecordFrom(row, outcome.customer, batch, l.sales[key].deleted))
  }

  /** What a row of a commit leaves in its sale, column by column: nothing if its reference
      leads outside the company, nothing new if the stored content is the row's own, and
      otherwise the row's document for the customer its reference leads to. */
  lemma RecordOnFields(l: Ledger, company: Id, batch: Id, rows: seq<NormalizedRow>, i: nat)
    requires Sound(l) && DistinctKeys(rows) && i < |rows|
    ensures var (m, outcomes) := CommitRows(l, company, batch, rows);
      var row, e, key, o := rows[i], rows[i].customerExternalId, Csv(rows[i].key), outcomes[i];
      if e in l.refs && l.customers[l.refs[e].customer].company != company then o.Failed? && SameSale(l, m, key)
      else
        && o.Done? && e in m.refs && o.customer == m.refs[e].customer && key in m.sales
        && if key in l.sales && l.sales[key].content == Some(row) then
             o.sale == Skipped && m.sales[key] == l.sales[key]
           else
             var r := m.sales[key];
             && o.sale == (if key in l.sales then Updated else Created)
             && r.customer == m.refs[e].customer && r.document == row.document
             && (r.deletedInSource <==> row.document.status == Deleted)
             && r.batch == Some(batch) && r.sourceCustomer == Some(e) && r.content == Some(row)
             && (r.deleted <==> key in l.sales && l.sales[key].deleted)
  {
    EveryRowDone(l, company, batch, rows, i);
  }

  /** Whether a row made its customer, and whether it changed the customer's contact. */
  lemma OutcomeOnFields(l: Ledger, company: Id, batch: Id, row: NormalizedRow)
    requires Sound(l)
    ensures var (m, o) := CommitRow(l, company, batch, row);
      var e := row.customerExternalId;
      o.Done? ==>
        && (o.createdCustomer <==> e !in l.refs)
        && (o.createdCustomer ==> o.customer !in l.customers && o.customer in m.customers
                                  && m.customers[o.customer].company == company && !m.customers[o.customer].deleted)
        && (o.updatedCustomer <==> e in l.refs && m.customers[o.customer].contact != l.customers[o.customer].contact)
  {
  }

  // ----- who is affected -----

  /** A reference made by the commit leads to a customer made by the commit. */
  lemma {:induction false} NewRefsAreNew(l: Ledger, company: Id, batch: Id, rows: seq<NormalizedRow>)
    requires Sound(l)
    ensures var m := CommitRows(l, company, batch, rows).0;
            forall e :: e in m.refs && e !in l.refs ==> m.refs[e].customer >= l.next
  {
    if rows == [] {
    } else {
      var front := rows[..|rows| - 1];
      var mid := CommitRows(l, company, batch, front).0;
      NewRefsAreNew(l, company, batch, front);
      CommitRowsGrow(l, company, batch, front);
      CommitRowGrows(mid, company, batch, rows[|rows| - 1]);
    }
  }

  /** Read from the ledger before the commit: the row will write a sale of customer k. */
  predicate Marks(l: Ledger, company: Id, row: NormalizedRow, k: Id) {
    var e := row.customerExternalId;
    e in l.refs && l.refs[e].customer == k && !Foreign(l, company, e) && SaleActionFor(l, row) != Skipped
  }

  predicate Marked(l: Ledger, company: Id, rows: seq<NormalizedRow>, k: Id) {
    exists i :: 0 <= i < |rows| && Marks(l, company, rows[i], k)
  }

  lemma OutcomeMarksIff(l: Ledger, company: Id, batch: Id, rows: seq<NormalizedRow>, k: Id, i: nat)
    requires Sound(l) && DistinctKeys(rows) && k < l.next && i < |rows|
    ensures var o := CommitRows(l, company, batch, rows).1[i];
            o.Done? && o.sale != Skipped && o.customer == k <==> Marks(l, company, rows[i], k)
  {
    EveryRowDone(l, company, batch, rows, i);
    NewRefsAreNew(l, company, batch, rows);
    CommitRowsGrow(l, company, batch, rows);
  }

  /** Which of the customers there were are affected can be told beforehand. */
  lemma AffectedIff(l: Ledger, company: Id, batch: Id, rows: seq<NormalizedRow>, k: Id)
    requires Sound(l) && DistinctKeys(rows) && k < l.next
    ensures k in Affected(CommitRows(l, company, batch, rows).1) <==> Marked(l, company, rows, k)
  {
    var outcomes := CommitRows(l, company, batch, rows).1;
    forall i | 0 <= i < |rows|
      ensures outcomes[i].Done? && outcomes[i].sale != Skipped && outcomes[i].customer == k
         <==> Marks(l, company, rows[i], k)
    {
      OutcomeMarksIff(l, company, batch, rows, k, i);
    }
    if Marked(l, company, rows, k) {
      var i :| 0 <= i < |rows| && Marks(l, company, rows[i], k);
      assert outcomes[i] in outcomes;
    }
  }

  // ----- replay -----

  /** Committing the same rows again, from whatever database the first commit left, skips
      every sale (a row that failed fails again), affects no customer and leaves
      customers, references and sales exactly as they are. */
  lemma ReplayChangesNothing(l: Ledger, company: Id, first: Id, second: Id, rows: seq<NormalizedRow>)
    requires Sound(l) && DistinctKeys(rows)
    ensures var (once, outcomes) := CommitRows(l, company, first, rows);
            var (twice, again) := CommitRows(once, company, second, rows);
            && twice == once
            && Affected(again) == {}
            && forall i :: 0 <= i < |rows| ==>
                 if outcomes[i].Failed? then again[i].Failed? else again[i].Done? && again[i].sale == Skipped
  {
    var (once, outcomes) := CommitRows(l, company, first, rows);
    var (twice, again) := CommitRows(once, company, second, rows);
    CommitRowsGrow(l, company, first, rows);
    CommitRowsGrow(once, company, second, rows);
    forall i | 0 <= i < |rows|
      ensures if outcomes[i].Failed? then again[i].Failed? else again[i].Done? && again[i].sale == Skipped
    {
      EveryRowDone(l, company, first, rows, i);
      EveryRowDone(once, company, second, rows, i);
      ForeignIsFixed(l, company, first, rows, rows[i].customerExternalId);
    }
    assert twice.sales == once.sales by {
      ReplayKeepsSales(once, company, second, rows);
    }
    ReplayKeepsPeople(l, company, first, second, rows);
  }

  lemma ReplayKeepsSales(l: Ledger, company: Id, batch: Id, rows: seq<NormalizedRow>)
    requires Sound(l) && DistinctKeys(rows)
    requires var outcomes := CommitRows(l, company, batch, rows).1;
             forall i :: 0 <= i < |rows| ==> outcomes[i].Failed? || outcomes[i].sale == Skipped
    ensures CommitRows(l, company, batch, rows).0.sales == l.sales
  {
    var (m, outcomes) := CommitRows(l, company, batch, rows);
    forall key ensures SameSale(l, m, key) {
      if KeyIn(rows, key) {
        var i :| 0 <= i < |rows| && Csv(rows[i].key) == key;
        EveryRowDone(l, company, batch, rows, i);
      } else {
        OtherKeysUntouched(l, company, batch, rows, key);
      }
    }
    SameSales(l, m);
  }

  lemma SameSales(l: Ledger, m: Ledger)
    requires forall key :: SameSale(l, m, key)
    ensures m.sales == l.sales
  {
    forall key | key in l.sales ensures key in m.sales && m.sales[key] == l.sales[key] {
      assert SameSale(l, m, key);
    }
    forall key | key in m.sales ensures key in l.sales {
      assert SameSale(l, m, key);
    }
  }

  lemma ReplayKeepsPeople(l: Ledger, company: Id, first: Id, second: Id, rows: seq<NormalizedRow>)
    requires Sound(l)
    ensures var once := CommitRows(l, company, first, rows).0;
            var twice := CommitRows(once, company, second, rows).0;
            twice.customers == once.customers && twice.refs == once.refs && twice.next == once.next
  {
    var once := CommitRows(l, company, first, rows).0;
    var twice := CommitRows(once, company, second, rows).0;
    CommitRowsGrow(l, company, first, rows);
    CommitRowsGrow(once, company, second, rows);
    NoNewCustomers(once, company, second, rows);
    var targets := map e | e in once.refs :: once.refs[e].customer;
    var own := set k | k in once.customers && once.customers[k].company == company;
    forall k | k in once.customers ensures twice.customers[k] == once.customers[k] {
      ContactsAreFolds(l, company, first, rows, targets, own, k);
      ContactsAreFolds(once, company, second, rows, targets, own, k);
      JoinAssociates(ContactOf(l, k), Said(rows, targets, own, k), Said(rows, targets, own, k));
    }
    forall e | e in once.refs ensures twice.refs[e] == once.refs[e] {
      RefsAreLast(l, company, first, rows, e);
      RefsAreLast(once, company, second, rows, e);
      ForeignIsFixed(l, company, first, rows, e);
    }
  }

  lemma {:induction false} NoNewCustomers(l: Ledger, company: Id, batch: Id, rows: seq<NormalizedRow>)
    requires Sound(l) && forall i :: 0 <= i < |rows| ==> rows[i].customerExternalId in l.refs
    ensures var m := CommitRows(l, company, batch, rows).0;
            m.customers.Keys == l.customers.Keys && m.refs.Keys == l.refs.Keys && m.next == l.next
  {
    if rows == [] {
    } else {
      NoNewCustomers(l, company, batch, rows[..|rows| - 1]);
      CommitRowsGrow(l, company, batch, rows[..|rows| - 1]);
    }
  }
}
