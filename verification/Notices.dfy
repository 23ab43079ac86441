// What processing domain events does to the notification table, and what it keeps.
module Notices {
  import opened Basics
  import opened Models
  import T = Templates

  // ----- rows -----

  datatype EventStatus = PendingEvent | ProcessingEvent | ProcessedEvent | FailedEvent

  /** context holds the values that templates and conditions can name. */
  datatype DomainEvent = DomainEvent(
    company: Option<Id>,
    eventType: string,
    customer: Option<Id>,
    actorCustomer: Option<Id>,
    context: T.Value,
    status: EventStatus,
    attempts: nat)

  datatype Channel = EmailChannel | Sms | Telegram | InApp | Webhook

  datatype RecipientType = ToCustomer | ToCompanyAdmins | ToSalesManagers

  datatype Rule = Rule(
    id: Id, company: Id, eventType: string, template: Id, channel: Channel, to: RecipientType,
    conditions: map<string, T.Value>, active: bool)

  datatype Template = Template(company: Id, active: bool, subject: Option<string>, body: string)

  datatype User = User(id: Id, company: Id, isAdmin: bool, active: bool, email: Option<string>)

  datatype Person = Person(company: Id, email: Option<string>, phone: Option<string>)

  datatype Assignment = Assignment(company: Id, customer: Id, manager: Id)

  /** The tables the notification service reads; lists are in the order of their queries. */
  datatype Directory = Directory(
    rules: seq<Rule>,
    templates: map<Id, Template>,
    customers: map<Id, Person>,
    users: seq<User>,
    assignments: seq<Assignment>)

  datatype Address = Inbox(address: string) | Account(id: Id)

  datatype Recipient = Recipient(customer: Option<Id>, user: Option<Id>, address: Address)

  datatype Letter =
    | PendingLetter(to: Address, subject: Option<string>, body: string)
    | SkippedLetter(reason: string)
    | FailedLetter(missingPath: string)

  datatype Row = Row(event: Id, rule: Id, customer: Option<Id>, user: Option<Id>, letter: Letter)

  /** checked, processed and failed count events; generated, skipped and unrendered
      count notifications. */
  datatype EventStats = EventStats(
    checked: nat, processed: nat, failed: nat, withoutCompany: nat, withoutRules: nat,
    generated: nat, skipped: nat, unrendered: nat)

  // ----- what a rule asks for -----

  function RulesFor(rules: seq<Rule>, company: Id, eventType: string): seq<Rule> {
    if rules == [] then []
    else
      var r := rules[|rules| - 1];
      RulesFor(rules[..|rules| - 1], company, eventType)
      + if r.company == company && r.eventType == eventType && r.active then [r] else []
  }

  function NonEmpty(text: Option<string>): Option<Address> {
    if text.Some? && text.value != "" then Some(Inbox(text.value)) else None
  }

  function CustomerAddress(k: Id, p: Person, channel: Channel): Option<Address> {
    match channel
    case EmailChannel => NonEmpty(p.email)
    case Sms => NonEmpty(p.phone)
    case Telegram => NonEmpty(p.phone)
    case InApp => Some(Account(k))
    case Webhook => None
  }

  function UserAddress(u: User, channel: Channel): Option<Address> {
    match channel
    case EmailChannel => NonEmpty(u.email)
    case InApp => Some(Account(u.id))
    case _ => None
  }

  function ForUser(u: User, channel: Channel): seq<Recipient> {
    match UserAddress(u, channel)
    case None => []
    case Some(address) => [Recipient(None, Some(u.id), address)]
  }

  function Admins(users: seq<User>, company: Id, channel: Channel): seq<Recipient> {
    if users == [] then []
    else
      var u := users[|users| - 1];
      Admins(users[..|users| - 1], company, channel)
      + if u.company == company && u.isAdmin && u.active then ForUser(u, channel) else []
  }

  function WithId(users: seq<User>, id: Id, channel: Channel): seq<Recipient> {
    if users == [] then []
    else
      var u := users[|users| - 1];
      WithId(users[..|users| - 1], id, channel) + if u.id == id && u.active then ForUser(u, channel) else []
  }

  function Managers(assignments: seq<Assignment>, users: seq<User>, company: Id, customer: Id, channel: Channel)
    : seq<Recipient> {
    if assignments == [] then []
    else
      var a := assignments[|assignments| - 1];
      Managers(assignments[..|assignments| - 1], users, company, customer, channel)
      + if a.company == company && a.customer == customer then WithId(users, a.manager, channel) else []
  }

  function RecipientsFor(d: Directory, e: DomainEvent, rule: Rule): seq<Recipient>
    requires e.company.Some?
  {
    match rule.to
    case ToCustomer =>
      var k := if e.customer.Some? then e.customer else e.actorCustomer;
      if k.None? || k.value !in d.customers || d.customers[k.value].company != e.company.value then []
      else (match CustomerAddress(k.value, d.customers[k.value], rule.channel)
            case None => []
            case Some(address) => [Recipient(k, None, address)])
    case ToCompanyAdmins => Admins(d.users, e.company.value, rule.channel)
    case ToSalesManagers =>
      if e.customer.None? then []
      else Managers(d.assignments, d.users, e.company.value, e.customer.value, rule.channel)
  }

  predicate IsAdminOf(u: User, company: Id) { u.company == company && u.isAdmin && u.active }

  /** u is active and assigned to the customer. */
  predicate Manages(assignments: seq<Assignment>, u: User, company: Id, customer: Id) {
    u.active && Assignment(company, customer, u.id) in assignments
  }

  /** The user has an address on the channel, and the recipient names only the user. */
  predicate Reaches(r: Recipient, u: User, channel: Channel) {
    UserAddress(u, channel).Some? && r == Recipient(None, Some(u.id), UserAddress(u, channel).value)
  }

  lemma {:induction false} RulesForIff(rules: seq<Rule>, company: Id, eventType: string, rule: Rule)
    ensures rule in RulesFor(rules, company, eventType)
       <==> rule in rules && rule.company == company && rule.eventType == eventType && rule.active
  {
    if rules == [] {
    } else {
      var front, last := rules[..|rules| - 1], rules[|rules| - 1];
      assert rules == front + [last];
      RulesForIff(front, company, eventType, rule);
    }
  }

  lemma {:induction false} AdminsIff(users: seq<User>, company: Id, channel: Channel, r: Recipient)
    ensures r in Admins(users, company, channel)
       <==> exists u :: u in users && IsAdminOf(u, company) && Reaches(r, u, channel)
  {
    if users == [] {
    } else {
      var front, last := users[..|users| - 1], users[|users| - 1];
      assert users == front + [last];
      AdminsIff(front, company, channel, r);
      assert r in ForUser(last, channel) <==> Reaches(r, last, channel);
      assert forall u :: u in users <==> u in front || u == last;
    }
  }

  lemma {:induction false} WithIdIff(users: seq<User>, id: Id, channel: Channel, r: Recipient)
    ensures r in WithId(users, id, channel)
       <==> exists u :: u in users && u.id == id && u.active && Reaches(r, u, channel)
  {
    if users == [] {
    } else {
      var front, last := users[..|users| - 1], users[|users| - 1];
      assert users == front + [last];
      WithIdIff(front, id, channel, r);
      assert r in ForUser(last, channel) <==> Reaches(r, last, channel);
      assert forall u :: u in users <==> u in front || u == last;
    }
  }

  lemma {:induction false} ManagersIff(assignments: seq<Assignment>, users: seq<User>, company: Id, customer: Id,
                                       channel: Channel, r: Recipient)
    ensures r in Managers(assignments, users, company, customer, channel)
       <==> exists u :: u in users && Manages(assignments, u, company, customer) && Reaches(r, u, channel)
  {
    if assignments == [] {
    } else {
      var front, last := assignments[..|assignments| - 1], assignments[|assignments| - 1];
      assert assignments == front + [last];
      ManagersIff(front, users, company, customer, channel, r);
      WithIdIff(users, last.manager, channel, r);
      assert forall u :: u in users ==> (Manages(assignments, u, company, customer) <==>
        Manages(front, u, company, customer) || (u.active && last == Assignment(company, customer, u.id)));
    }
  }

  /** The path resolves to an equal value. */
  predicate Meets(context: T.Value, path: string, expected: T.Value) {
    match T.ResolvePath(context, path)
    case None => false
    case Some(actual) => T.Equal(actual, expected)
  }

  predicate ConditionsMatch(conditions: map<string, T.Value>, context: T.Value) {
    forall path :: path in conditions ==> Meets(context, path, conditions[path])
  }

  function RenderSubject(subject: Option<string>, context: T.Value): Result<Option<string>, string> {
    match subject
    case None => Ok(None)
    case Some(text) =>
      match T.Render(T.Scan(text), context)
      case Err(path) => Err(path)
      case Ok(s) => Ok(Some(s))
  }

  /** What one rule wants for one event, whatever notifications exist. */
  datatype Plan =
    | NoTemplate
    | Skip(reason: string)
    | Unrenderable(path: string)
    | Deliver(recipients: seq<Recipient>, subject: Option<string>, body: string)

  function PlanFor(d: Directory, e: DomainEvent, rule: Rule): Plan
    requires e.company.Some?
  {
    if rule.template !in d.templates || d.templates[rule.template].company != rule.company then NoTemplate
    else
      var template := d.templates[rule.template];
      if !template.active then Skip("template_inactive")
      else if !ConditionsMatch(rule.conditions, e.context) then Skip("condition_not_matched")
      else
        match RenderSubject(template.subject, e.context)
        case Err(path) => Unrenderable(path)
        case Ok(subject) =>
          match T.Render(T.Scan(template.body), e.context)
          case Err(path) => Unrenderable(path)
          case Ok(body) =>
            var recipients := RecipientsFor(d, e, rule);
            if recipients == [] then Skip("recipient_unavailable") else Deliver(recipients, subject, body)
  }

  // ----- carrying plans out -----

  /** Rows for an event and a rule. */
  function CountAny(rows: seq<Row>, e: Id, rule: Id): nat {
    if rows == [] then 0
    else
      var r := rows[|rows| - 1];
      CountAny(rows[..|rows| - 1], e, rule) + if r.event == e && r.rule == rule then 1 else 0
  }

  predicate InSlot(r: Row, e: Id, rule: Id, customer: Option<Id>, user: Option<Id>) {
    r.event == e && r.rule == rule && r.customer == customer && r.user == user
  }

  /** Rows for an event, a rule and a recipient. */
  function CountFor(rows: seq<Row>, e: Id, rule: Id, customer: Option<Id>, user: Option<Id>): nat {
    if rows == [] then 0
    else
      CountFor(rows[..|rows| - 1], e, rule, customer, user)
      + if InSlot(rows[|rows| - 1], e, rule, customer, user) then 1 else 0
  }

  /** The work so far; raised says that an exception has ended the event's processing. */
  datatype Box = Box(rows: seq<Row>, stats: EventStats, raised: bool)

  /** One notification without a recipient. The lookup raises when it finds two rows. */
  function Note(b: Box, e: Id, rule: Id, letter: Letter, stats: EventStats): Box {
    var n := CountAny(b.rows, e, rule);
    if n > 1 then b.(raised := true)
    else Box(if n == 0 then b.rows + [Row(e, rule, None, None, letter)] else b.rows, stats, b.raised)
  }

  function SendOne(b: Box, e: Id, rule: Id, to: Recipient, subject: Option<string>, body: string): Box {
    var n := CountFor(b.rows, e, rule, to.customer, to.user);
    if n > 1 then b.(raised := true)
    else if n == 1 then b
    else Box(b.rows + [Row(e, rule, to.customer, to.user, PendingLetter(to.address, subject, body))],
             b.stats.(generated := b.stats.generated + 1), b.raised)
  }

  function SendAll(b: Box, e: Id, rule: Id, recipients: seq<Recipient>, subject: Option<string>, body: string): Box {
    if recipients == [] then b
    else
      var before := SendAll(b, e, rule, recipients[..|recipients| - 1], subject, body);
      if before.raised then before
      else SendOne(before, e, rule, recipients[|recipients| - 1], subject, body)
  }

  function Carry(b: Box, e: Id, rule: Id, plan: Plan): Box {
    match plan
    case NoTemplate => b.(raised := true)
    case Skip(reason) => Note(b, e, rule, SkippedLetter(reason), b.stats.(skipped := b.stats.skipped + 1))
    case Unrenderable(path) => Note(b, e, rule, FailedLetter(path), b.stats.(unrendered := b.stats.unrendered + 1))
    case Deliver(recipients, subject, body) => SendAll(b, e, rule, recipients, subject, body)
  }

  function CarryAll(d: Directory, b: Box, id: Id, e: DomainEvent, rules: seq<Rule>): Box
    requires e.company.Some?
  {
    if rules == [] then b
    else
      var before := CarryAll(d, b, id, e, rules[..|rules| - 1]);
      if before.raised then before
      else Carry(before, id, rules[|rules| - 1].id, PlanFor(d, e, rules[|rules| - 1]))
  }

  /** One event: the box afterwards, and whether processing it raised. */
  function HandleEvent(d: Directory, rows: seq<Row>, stats: EventStats, id: Id, e: DomainEvent): Box {
    var b := Box(rows, stats, false);
    if e.company.None? then b.(stats := stats.(withoutCompany := stats.withoutCompany + 1))
    else
      var rules := RulesFor(d.rules, e.company.value, e.eventType);
      if rules == [] then b.(stats := stats.(withoutRules := stats.withoutRules + 1))
      else CarryAll(d, b, id, e, rules)
  }

  function Closed(e: DomainEvent, raised: bool): DomainEvent {
    e.(status := if raised then FailedEvent else ProcessedEvent, attempts := e.attempts + 1)
  }

  function Tick(s: EventStats, raised: bool): EventStats {
    if raised then s.(failed := s.failed + 1) else s.(processed := s.processed + 1)
  }

  datatype Mailroom = Mailroom(events: map<Id, DomainEvent>, rows: seq<Row>, stats: EventStats)

  function HandleOne(d: Directory, m: Mailroom, id: Id): Mailroom
    requires id in m.events
  {
    var b := HandleEvent(d, m.rows, m.stats, id, m.events[id]);
    Mailroom(m.events[id := Closed(m.events[id], b.raised)], b.rows, Tick(b.stats, b.raised))
  }

  /** A whole pass over fetched events; a failed event does not stop the pass. */
  function HandleAll(d: Directory, m: Mailroom, ids: seq<Id>): (r: Mailroom)
    requires forall id :: id in ids ==> id in m.events
    ensures r.events.Keys == m.events.Keys
  {
    if ids == [] then m
    else HandleOne(d, HandleAll(d, m, ids[..|ids| - 1]), ids[|ids| - 1])
  }

  // ----- uniqueness -----

  ghost predicate Unique(rows: seq<Row>) {
    forall i, j :: 0 <= i < j < |rows| ==>
      !InSlot(rows[j], rows[i].event, rows[i].rule, rows[i].customer, rows[i].user)
  }

  lemma {:induction false} CountForIs(rows: seq<Row>, e: Id, rule: Id, customer: Option<Id>, user: Option<Id>)
    ensures CountFor(rows, e, rule, customer, user) == 0
       <==> forall i :: 0 <= i < |rows| ==> !InSlot(rows[i], e, rule, customer, user)
    ensures Unique(rows) ==> CountFor(rows, e, rule, customer, user) <= 1
    ensures CountFor(rows, e, rule, customer, user) <= CountAny(rows, e, rule)
  {
    if rows == [] {
    } else {
      var front := rows[..|rows| - 1];
      assert forall i :: 0 <= i < |front| ==> front[i] == rows[i];
      CountForIs(front, e, rule, customer, user);
    }
  }

  lemma AppendUnique(rows: seq<Row>, r: Row)
    requires Unique(rows) && CountFor(rows, r.event, r.rule, r.customer, r.user) == 0
    ensures Unique(rows + [r])
  {
    CountForIs(rows, r.event, r.rule, r.customer, r.user);
  }

  lemma NoteKeepsUnique(b: Box, e: Id, rule: Id, letter: Letter, stats: EventStats)
    requires Unique(b.rows)
    ensures Unique(Note(b, e, rule, letter, stats).rows)
  {
    CountForIs(b.rows, e, rule, None, None);
    if CountAny(b.rows, e, rule) == 0 {
      AppendUnique(b.rows, Row(e, rule, None, None, letter));
    }
  }

  lemma {:induction false} SendAllKeepsUnique(b: Box, e: Id, rule: Id, recipients: seq<Recipient>,
                                              subject: Option<string>, body: string)
    requires Unique(b.rows)
    ensures Unique(SendAll(b, e, rule, recipients, subject, body).rows)
    ensures !b.raised ==> !SendAll(b, e, rule, recipients, subject, body).raised
  {
    if recipients == [] {
    } else {
      var front, to := recipients[..|recipients| - 1], recipients[|recipients| - 1];
      var before := SendAll(b, e, rule, front, subject, body);
      SendAllKeepsUnique(b, e, rule, front, subject, body);
      CountForIs(before.rows, e, rule, to.customer, to.user);
      if CountFor(before.rows, e, rule, to.customer, to.user) == 0 {
        AppendUnique(before.rows, Row(e, rule, to.customer, to.user, PendingLetter(to.address, subject, body)));
      }
    }
  }

  lemma CarryKeepsUnique(b: Box, e: Id, rule: Id, plan: Plan)
    requires Unique(b.rows)
    ensures Unique(Carry(b, e, rule, plan).rows)
  {
    match plan
    case NoTemplate =>
    case Skip(reason) => NoteKeepsUnique(b, e, rule, SkippedLetter(reason), b.stats.(skipped := b.stats.skipped + 1));
    case Unrenderable(path) =>
      NoteKeepsUnique(b, e, rule, FailedLetter(path), b.stats.(unrendered := b.stats.unrendered + 1));
    case Deliver(recipients, subject, body) => SendAllKeepsUnique(b, e, rule, recipients, subject, body);
  }

  lemma {:induction false} CarryAllKeepsUnique(d: Directory, b: Box, id: Id, e: DomainEvent, rules: seq<Rule>)
    requires e.company.Some? && Unique(b.rows)
    ensures Unique(CarryAll(d, b, id, e, rules).rows)
  {
    if rules == [] {
    } else {
      var front, last := rules[..|rules| - 1], rules[|rules| - 1];
      CarryAllKeepsUnique(d, b, id, e, front);
      CarryKeepsUnique(CarryAll(d, b, id, e, front), id, last.id, PlanFor(d, e, last));
    }
  }

  lemma {:induction false} HandleAllKeepsUnique(d: Directory, m: Mailroom, ids: seq<Id>)
    requires (forall id :: id in ids ==> id in m.events) && Unique(m.rows)
    ensures Unique(HandleAll(d, m, ids).rows)
  {
    if ids == [] {
    } else {
      var before, id := HandleAll(d, m, ids[..|ids| - 1]), ids[|ids| - 1];
      HandleAllKeepsUnique(d, m, ids[..|ids| - 1]);
      HandleEventKeepsUnique(d, before.rows, before.stats, id, before.events[id]);
    }
  }

  lemma HandleEventKeepsUnique(d: Directory, rows: seq<Row>, stats: EventStats, id: Id, e: DomainEvent)
    requires Unique(rows)
    ensures Unique(HandleEvent(d, rows, stats, id, e).rows)
  {
    if e.company.Some? {
      CarryAllKeepsUnique(d, Box(rows, stats, false), id, e, RulesFor(d.rules, e.company.value, e.eventType));
    }
  }

  /** A pass of a run: the tables as other services have left them, the events there are,
      and those the query fetched. */
  datatype Pass = Pass(directory: Directory, events: map<Id, DomainEvent>, ids: seq<Id>)

  ghost predicate PassesFetchEvents(passes: seq<Pass>) {
    forall i, id :: 0 <= i < |passes| && id in passes[i].ids ==> id in passes[i].events
  }

  const NO_STATS := EventStats(0, 0, 0, 0, 0, 0, 0, 0)

  ghost function RunRows(passes: seq<Pass>): seq<Row>
    requires PassesFetchEvents(passes)
  {
    if passes == [] then []
    else
      var p := passes[|passes| - 1];
      HandleAll(p.directory, Mailroom(p.events, RunRows(passes[..|passes| - 1]), NO_STATS), p.ids).rows
  }

  /** Over every run of passes, with rules, templates, recipients and event statuses edited
      freely in between, no two notifications share event, rule, customer and user. */
  lemma {:induction false} RunKeepsUnique(passes: seq<Pass>)
    requires PassesFetchEvents(passes)
    ensures Unique(RunRows(passes))
  {
    if passes == [] {
    } else {
      var p := passes[|passes| - 1];
      RunKeepsUnique(passes[..|passes| - 1]);
      HandleAllKeepsUnique(p.directory, Mailroom(p.events, RunRows(passes[..|passes| - 1]), NO_STATS), p.ids);
    }
  }

  // ----- accounting -----

  function CountPending(rows: seq<Row>): nat {
    if rows == [] then 0
    else CountPending(rows[..|rows| - 1]) + if rows[|rows| - 1].letter.PendingLetter? then 1 else 0
  }

  /** after extends before by rows of one event, and generated counts the pending ones. */
  ghost predicate Grown(before: Box, after: Box, e: Id) {
    && before.rows <= after.rows
    && (forall i :: |before.rows| <= i < |after.rows| ==> after.rows[i].event == e)
    && after.stats.generated + CountPending(before.rows) == before.stats.generated + CountPending(after.rows)
    && after.stats.processed == before.stats.processed && after.stats.failed == before.stats.failed
    && after.stats.checked == before.stats.checked
  }

  lemma AppendGrows(b: Box, r: Row, stats: EventStats, raised: bool)
    requires stats.generated == b.stats.generated + if r.letter.PendingLetter? then 1 else 0
    requires stats.processed == b.stats.processed && stats.failed == b.stats.failed && stats.checked == b.stats.checked
    ensures Grown(b, Box(b.rows + [r], stats, raised), r.event)
  {
  }

  lemma NoteGrows(b: Box, e: Id, rule: Id, letter: Letter, stats: EventStats)
    requires !letter.PendingLetter? && stats.generated == b.stats.generated
    requires stats.processed == b.stats.processed && stats.failed == b.stats.failed && stats.checked == b.stats.checked
    ensures Grown(b, Note(b, e, rule, letter, stats), e)
  {
  }

  lemma {:induction false} SendAllGrows(b: Box, e: Id, rule: Id, recipients: seq<Recipient>, subject: Option<string>,
                                        body: string)
    ensures Grown(b, SendAll(b, e, rule, recipients, subject, body), e)
  {
    if recipients == [] {
    } else {
      var front, to := recipients[..|recipients| - 1], recipients[|recipients| - 1];
      var before := SendAll(b, e, rule, front, subject, body);
      SendAllGrows(b, e, rule, front, subject, body);
      if !before.raised && CountFor(before.rows, e, rule, to.customer, to.user) == 0 {
        AppendGrows(before, Row(e, rule, to.customer, to.user, PendingLetter(to.address, subject, body)),
                    before.stats.(generated := before.stats.generated + 1), false);
      }
    }
  }

  lemma {:induction false} CarryAllGrows(d: Directory, b: Box, id: Id, e: DomainEvent, rules: seq<Rule>)
    requires e.company.Some?
    ensures Grown(b, CarryAll(d, b, id, e, rules), id)
  {
    if rules == [] {
    } else {
      var front, last := rules[..|rules| - 1], rules[|rules| - 1];
      CarryAllGrows(d, b, id, e, front);
      CarryGrows(CarryAll(d, b, id, e, front), id, last.id, PlanFor(d, e, last));
    }
  }

  lemma CarryGrows(b: Box, e: Id, rule: Id, plan: Plan)
    ensures Grown(b, Carry(b, e, rule, plan), e)
  {
    match plan
    case NoTemplate =>
    case Skip(reason) => NoteGrows(b, e, rule, SkippedLetter(reason), b.stats.(skipped := b.stats.skipped + 1));
    case Unrenderable(path) =>
      NoteGrows(b, e, rule, FailedLetter(path), b.stats.(unrendered := b.stats.unrendered + 1));
    case Deliver(recipients, subject, body) => SendAllGrows(b, e, rule, recipients, subject, body);
  }

  lemma HandleEventGrows(d: Directory, rows: seq<Row>, stats: EventStats, id: Id, e: DomainEvent)
    ensures Grown(Box(rows, stats, false), HandleEvent(d, rows, stats, id, e), id)
  {
    if e.company.Some? {
      CarryAllGrows(d, Box(rows, stats, false), id, e, RulesFor(d.rules, e.company.value, e.eventType));
    }
  }

  /** After a pass every fetched event is processed or failed, the two counters add up to
      the number of events fetched, no notification is lost, and the generated ones are
      exactly the new pending rows. */
  lemma {:induction false} PassAccounting(d: Directory, m: Mailroom, ids: seq<Id>)
    requires forall id :: id in ids ==> id in m.events
    ensures var r := HandleAll(d, m, ids);
      && (forall id :: id in ids ==> r.events[id].status == ProcessedEvent || r.events[id].status == FailedEvent)
      && (forall id :: id in m.events && id !in ids ==> r.events[id] == m.events[id])
      && r.stats.checked == m.stats.checked
      && r.stats.processed + r.stats.failed == m.stats.processed + m.stats.failed + |ids|
      && m.rows <= r.rows
      && r.stats.generated + CountPending(m.rows) == m.stats.generated + CountPending(r.rows)
  {
    if ids == [] {
    } else {
      var front, id := ids[..|ids| - 1], ids[|ids| - 1];
      assert ids == front + [id];
      var before := HandleAll(d, m, front);
      PassAccounting(d, m, front);
      HandleEventGrows(d, before.rows, before.stats, id, before.events[id]);
    }
  }

  // ----- replay -----

  /** The rule makes processing raise, given the notifications there are: its template is
      gone, or it is due a note but already has two or more notifications. */
  predicate Blocks(rows: seq<Row>, e: Id, rule: Id, plan: Plan) {
    plan.NoTemplate? || ((plan.Skip? || plan.Unrenderable?) && CountAny(rows, e, rule) > 1)
  }

  /** Whether carrying out a plan raises, on a table without duplicates: the template is
      gone, or a note is due for a rule that already notified two or more recipients. */
  lemma RaisesIff(b: Box, e: Id, rule: Id, plan: Plan)
    requires Unique(b.rows) && !b.raised
    ensures Carry(b, e, rule, plan).raised
       <==> Blocks(b.rows, e, rule, plan)
  {
    if plan.Deliver? {
      SendAllKeepsUnique(b, e, rule, plan.recipients, plan.subject, plan.body);
    }
  }

  /** A plan that is already reflected in the table. */
  ghost predicate Satisfied(rows: seq<Row>, e: Id, rule: Id, plan: Plan) {
    match plan
    case NoTemplate => false
    case Skip(_) => CountAny(rows, e, rule) == 1
    case Unrenderable(_) => CountAny(rows, e, rule) == 1
    case Deliver(recipients, _, _) =>
      forall i :: 0 <= i < |recipients| ==> CountFor(rows, e, rule, recipients[i].customer, recipients[i].user) >= 1
  }

  lemma {:induction false} CountsPrefix(rows: seq<Row>, more: seq<Row>, e: Id, rule: Id, customer: Option<Id>,
                                        user: Option<Id>)
    ensures CountFor(rows + more, e, rule, customer, user) >= CountFor(rows, e, rule, customer, user)
    ensures CountAny(rows + more, e, rule) >= CountAny(rows, e, rule)
    ensures (forall i :: 0 <= i < |more| ==> more[i].event != e || more[i].rule != rule) ==>
      CountAny(rows + more, e, rule) == CountAny(rows, e, rule)
  {
    if more == [] {
      assert rows + more == rows;
    } else {
      var front, last := more[..|more| - 1], more[|more| - 1];
      assert (rows + more)[..|rows + more| - 1] == rows + front;
      assert forall i :: 0 <= i < |front| ==> front[i] == more[i];
      CountsPrefix(rows, front, e, rule, customer, user);
    }
  }

  lemma SendOneSatisfies(b: Box, e: Id, rule: Id, to: Recipient, subject: Option<string>, body: string,
                         other: Recipient)
    requires !SendOne(b, e, rule, to, subject, body).raised
    ensures var after := SendOne(b, e, rule, to, subject, body).rows;
            && CountFor(after, e, rule, to.customer, to.user) >= 1
            && CountFor(after, e, rule, other.customer, other.user)
               >= CountFor(b.rows, e, rule, other.customer, other.user)
  {
  }

  lemma {:induction false} SendAllSatisfies(b: Box, e: Id, rule: Id, recipients: seq<Recipient>,
                                            subject: Option<string>, body: string, i: nat)
    requires i < |recipients| && !SendAll(b, e, rule, recipients, subject, body).raised
    ensures var after := SendAll(b, e, rule, recipients, subject, body).rows;
            CountFor(after, e, rule, recipients[i].customer, recipients[i].user) >= 1
  {
    var front, to := recipients[..|recipients| - 1], recipients[|recipients| - 1];
    SendOneSatisfies(SendAll(b, e, rule, front, subject, body), e, rule, to, subject, body, recipients[i]);
    if i == |front| {
    } else {
      SendAllSatisfies(b, e, rule, front, subject, body, i);
    }
  }

  /** Carrying a plan out leaves it satisfied, unless it raises. */
  lemma CarrySatisfies(b: Box, e: Id, rule: Id, plan: Plan)
    requires !Carry(b, e, rule, plan).raised
    ensures Satisfied(Carry(b, e, rule, plan).rows, e, rule, plan)
  {
    match plan
    case NoTemplate =>
    case Skip(reason) =>
      assert (b.rows + [Row(e, rule, None, None, SkippedLetter(reason))])[..|b.rows|] == b.rows;
    case Unrenderable(path) =>
      assert (b.rows + [Row(e, rule, None, None, FailedLetter(path))])[..|b.rows|] == b.rows;
    case Deliver(recipients, subject, body) =>
      forall i | 0 <= i < |recipients|
        ensures CountFor(Carry(b, e, rule, plan).rows, e, rule, recipients[i].customer, recipients[i].user) >= 1
      {
        SendAllSatisfies(b, e, rule, recipients, subject, body, i);
      }
  }

  /** A satisfied plan adds nothing, whoever carries it out. */
  lemma SatisfiedAddsNothing(b: Box, e: Id, rule: Id, plan: Plan)
    requires Unique(b.rows) && !b.raised && Satisfied(b.rows, e, rule, plan)
    ensures var after := Carry(b, e, rule, plan);
            !after.raised && after.rows == b.rows && after.stats.generated == b.stats.generated
  {
    if plan.Deliver? {
      SendAllAgain(b, e, rule, plan.recipients, plan.subject, plan.body);
    }
  }

  /** And only a satisfied plan does: carrying a plan out leaves the table alone, without
      raising, if and only if the plan is already reflected in it. */
  lemma SatisfiedIff(b: Box, e: Id, rule: Id, plan: Plan)
    requires Unique(b.rows) && !b.raised
    ensures Satisfied(b.rows, e, rule, plan)
       <==> !Carry(b, e, rule, plan).raised && Carry(b, e, rule, plan).rows == b.rows
  {
    if Satisfied(b.rows, e, rule, plan) {
      SatisfiedAddsNothing(b, e, rule, plan);
    }
    if !Carry(b, e, rule, plan).raised {
      CarrySatisfies(b, e, rule, plan);
    }
  }

  lemma {:induction false} SendAllAgain(b: Box, e: Id, rule: Id, recipients: seq<Recipient>, subject: Option<string>,
                                        body: string)
    requires Unique(b.rows) && !b.raised
    requires forall i :: 0 <= i < |recipients| ==>
      CountFor(b.rows, e, rule, recipients[i].customer, recipients[i].user) >= 1
    ensures SendAll(b, e, rule, recipients, subject, body) == b
  {
    if recipients == [] {
    } else {
      var front, to := recipients[..|recipients| - 1], recipients[|recipients| - 1];
      assert forall i :: 0 <= i < |front| ==> front[i] == recipients[i];
      SendAllAgain(b, e, rule, front, subject, body);
      CountForIs(b.rows, e, rule, to.customer, to.user);
    }
  }

  lemma {:induction false} TwoSlots(rows: seq<Row>, e: Id, rule: Id, r: Recipient, q: Recipient)
    requires r.customer != q.customer || r.user != q.user
    ensures CountAny(rows, e, rule)
         >= CountFor(rows, e, rule, r.customer, r.user) + CountFor(rows, e, rule, q.customer, q.user)
  {
    if rows == [] {
    } else {
      TwoSlots(rows[..|rows| - 1], e, rule, r, q);
    }
  }

  /** The premise that nothing changed is needed: once a rule has notified two recipients,
      processing the event again raises if its template has been switched off. */
  lemma ReplayRaisesAfterDeactivation(b: Box, e: Id, rule: Id, plan: Plan, i: nat, j: nat, reason: string)
    requires Unique(b.rows) && !b.raised && plan.Deliver? && i < |plan.recipients| && j < |plan.recipients|
    requires plan.recipients[i].customer != plan.recipients[j].customer
             || plan.recipients[i].user != plan.recipients[j].user
    ensures var once := Carry(b, e, rule, plan);
            !once.raised && Carry(once, e, rule, Skip(reason)).raised
  {
    var once := Carry(b, e, rule, plan);
    RaisesIff(b, e, rule, plan);
    CarryKeepsUnique(b, e, rule, plan);
    CarrySatisfies(b, e, rule, plan);
    TwoSlots(once.rows, e, rule, plan.recipients[i], plan.recipients[j]);
    RaisesIff(once, e, rule, Skip(reason));
  }

  /** Rules are told apart by their ids. */
  ghost predicate DistinctRules(rules: seq<Rule>) {
    forall i, j :: 0 <= i < j < |rules| ==> rules[i].id != rules[j].id
  }

  predicate Known(recipients: seq<Recipient>, r: Recipient) {
    exists i :: 0 <= i < |recipients| && recipients[i].customer == r.customer && recipients[i].user == r.user
  }

  /** The second plan asks for no notification the first did not ask for; texts, addresses
      and the order of the recipients may differ. */
  ghost predicate Alike(p: Plan, q: Plan) {
    match p
    case NoTemplate => q.NoTemplate?
    case Skip(_) => q.Skip? || q.Unrenderable?
    case Unrenderable(_) => q.Skip? || q.Unrenderable?
    case Deliver(recipients, _, _) =>
      q.Deliver? && forall r :: r in q.recipients ==> Known(recipients, r)
  }

  lemma AlikeSatisfied(rows: seq<Row>, e: Id, rule: Id, p: Plan, q: Plan)
    requires Satisfied(rows, e, rule, p) && Alike(p, q)
    ensures Satisfied(rows, e, rule, q)
  {
    if q.Deliver? {
      forall i | 0 <= i < |q.recipients|
        ensures CountFor(rows, e, rule, q.recipients[i].customer, q.recipients[i].user) >= 1
      {
        assert Known(p.recipients, q.recipients[i]);
      }
    }
  }

  /** Rows of other rules do not unsettle a plan. */
  lemma StaysSatisfied(rows: seq<Row>, more: seq<Row>, e: Id, rule: Id, plan: Plan)
    requires Satisfied(rows, e, rule, plan)
    requires forall i :: 0 <= i < |more| ==> more[i].event != e || more[i].rule != rule
    ensures Satisfied(rows + more, e, rule, plan)
  {
    CountsPrefix(rows, more, e, rule, None, None);
    if plan.Deliver? {
      forall i | 0 <= i < |plan.recipients|
        ensures CountFor(rows + more, e, rule, plan.recipients[i].customer, plan.recipients[i].user) >= 1
      {
        CountsPrefix(rows, more, e, rule, plan.recipients[i].customer, plan.recipients[i].user);
      }
    }
  }

  lemma CarryOnlyAdds(b: Box, e: Id, rule: Id, plan: Plan) returns (more: seq<Row>)
    ensures Carry(b, e, rule, plan).rows == b.rows + more
    ensures forall i :: 0 <= i < |more| ==> more[i].event == e && more[i].rule == rule
  {
    if plan.Deliver? {
      more := SendOnlyAdds(b, e, rule, plan.recipients, plan.subject, plan.body);
    } else {
      more := Carry(b, e, rule, plan).rows[|b.rows|..];
    }
  }

  lemma {:induction false} SendOnlyAdds(b: Box, e: Id, rule: Id, recipients: seq<Recipient>, subject: Option<string>,
                                        body: string)
    returns (more: seq<Row>)
    ensures SendAll(b, e, rule, recipients, subject, body).rows == b.rows + more
    ensures forall i :: 0 <= i < |more| ==> more[i].event == e && more[i].rule == rule
  {
    if recipients == [] {
      more := [];
    } else {
      var before := SendAll(b, e, rule, recipients[..|recipients| - 1], subject, body);
      more := SendOnlyAdds(b, e, rule, recipients[..|recipients| - 1], subject, body);
      more := more + SendAll(b, e, rule, recipients, subject, body).rows[|before.rows|..];
    }
  }

  // ----- when an event fails -----

  /** Rules only add notifications of their own. */
  lemma {:induction false} OthersUncounted(d: Directory, b: Box, id: Id, e: DomainEvent, rules: seq<Rule>, rule: Id)
    requires e.company.Some? && forall i :: 0 <= i < |rules| ==> rules[i].id != rule
    ensures CountAny(CarryAll(d, b, id, e, rules).rows, id, rule) == CountAny(b.rows, id, rule)
  {
    if rules == [] {
    } else {
      var front, last := rules[..|rules| - 1], rules[|rules| - 1];
      var before := CarryAll(d, b, id, e, front);
      assert forall i :: 0 <= i < |front| ==> front[i] == rules[i];
      OthersUncounted(d, b, id, e, front, rule);
      CarryUncounted(before, id, last.id, PlanFor(d, e, last), rule);
    }
  }

  lemma CarryUncounted(b: Box, e: Id, own: Id, plan: Plan, rule: Id)
    requires own != rule
    ensures CountAny(Carry(b, e, own, plan).rows, e, rule) == CountAny(b.rows, e, rule)
  {
    var more := CarryOnlyAdds(b, e, own, plan);
    CountsPrefix(b.rows, more, e, rule, None, None);
  }

  predicate AnyBlocks(d: Directory, rows: seq<Row>, id: Id, e: DomainEvent, rules: seq<Rule>)
    requires e.company.Some?
  {
    exists i :: 0 <= i < |rules| && Blocks(rows, id, rules[i].id, PlanFor(d, e, rules[i]))
  }

  lemma AnyBlocksSnoc(d: Directory, rows: seq<Row>, id: Id, e: DomainEvent, rules: seq<Rule>)
    requires e.company.Some? && rules != []
    ensures var n := |rules| - 1;
      AnyBlocks(d, rows, id, e, rules)
      <==> AnyBlocks(d, rows, id, e, rules[..n]) || Blocks(rows, id, rules[n].id, PlanFor(d, e, rules[n]))
  {
    var front := rules[..|rules| - 1];
    assert forall i :: 0 <= i < |front| ==> front[i] == rules[i];
    if AnyBlocks(d, rows, id, e, front) {
      var i :| 0 <= i < |front| && Blocks(rows, id, front[i].id, PlanFor(d, e, front[i]));
      assert Blocks(rows, id, rules[i].id, PlanFor(d, e, rules[i]));
    }
  }

  lemma {:induction false} CarryAllRaisesIff(d: Directory, b: Box, id: Id, e: DomainEvent, rules: seq<Rule>)
    requires e.company.Some? && DistinctRules(rules) && Unique(b.rows) && !b.raised
    ensures CarryAll(d, b, id, e, rules).raised <==> AnyBlocks(d, b.rows, id, e, rules)
  {
    if rules == [] {
    } else {
      var front, last := rules[..|rules| - 1], rules[|rules| - 1];
      var before := CarryAll(d, b, id, e, front);
      CarryAllRaisesIff(d, b, id, e, front);
      AnyBlocksSnoc(d, b.rows, id, e, rules);
      if !before.raised {
        CarryAllKeepsUnique(d, b, id, e, front);
        OthersUncounted(d, b, id, e, front, last.id);
        RaisesIff(before, id, last.id, PlanFor(d, e, last));
      }
    }
  }

  /** Processing an event, for the first time or again, fails if and only if one of its
      rules blocks it, judged by the notifications there are when it starts. */
  lemma EventFailsIff(d: Directory, rows: seq<Row>, stats: EventStats, id: Id, e: DomainEvent)
    requires Unique(rows)
    requires e.company.Some? ==> DistinctRules(RulesFor(d.rules, e.company.value, e.eventType))
    ensures HandleEvent(d, rows, stats, id, e).raised
       <==> e.company.Some? && AnyBlocks(d, rows, id, e, RulesFor(d.rules, e.company.value, e.eventType))
  {
    if e.company.Some? {
      CarryAllRaisesIff(d, Box(rows, stats, false), id, e, RulesFor(d.rules, e.company.value, e.eventType));
    }
  }

  lemma CarryKeepsSatisfied(b: Box, e: Id, own: Id, plan: Plan, rule: Id, kept: Plan)
    requires own != rule && Satisfied(b.rows, e, rule, kept)
    ensures Satisfied(Carry(b, e, own, plan).rows, e, rule, kept)
  {
    var more := CarryOnlyAdds(b, e, own, plan);
    StaysSatisfied(b.rows, more, e, rule, kept);
  }

  /** After an event has been processed every one of its rules is satisfied. */
  lemma {:induction false} AllSatisfied(d: Directory, b: Box, id: Id, e: DomainEvent, rules: seq<Rule>, i: nat)
    requires e.company.Some? && DistinctRules(rules) && i < |rules|
    requires !CarryAll(d, b, id, e, rules).raised
    ensures Satisfied(CarryAll(d, b, id, e, rules).rows, id, rules[i].id, PlanFor(d, e, rules[i]))
  {
    var n := |rules| - 1;
    if i == n {
      LastSatisfied(d, b, id, e, rules);
    } else {
      NotRaisedBefore(d, b, id, e, rules);
      AllSatisfied(d, b, id, e, rules[..n], i);
      LastKeepsSatisfied(d, b, id, e, rules, rules[i].id, PlanFor(d, e, rules[i]));
    }
  }

  lemma NotRaisedBefore(d: Directory, b: Box, id: Id, e: DomainEvent, rules: seq<Rule>)
    requires e.company.Some? && rules != [] && !CarryAll(d, b, id, e, rules).raised
    ensures !CarryAll(d, b, id, e, rules[..|rules| - 1]).raised
  {
  }

  lemma LastSatisfied(d: Directory, b: Box, id: Id, e: DomainEvent, rules: seq<Rule>)
    requires e.company.Some? && rules != [] && !CarryAll(d, b, id, e, rules).raised
    ensures var last := rules[|rules| - 1];
            Satisfied(CarryAll(d, b, id, e, rules).rows, id, last.id, PlanFor(d, e, last))
  {
    var last := rules[|rules| - 1];
    CarrySatisfies(CarryAll(d, b, id, e, rules[..|rules| - 1]), id, last.id, PlanFor(d, e, last));
  }

  lemma LastKeepsSatisfied(d: Directory, b: Box, id: Id, e: DomainEvent, rules: seq<Rule>, rule: Id, kept: Plan)
    requires e.company.Some? && rules != [] && !CarryAll(d, b, id, e, rules).raised
    requires rules[|rules| - 1].id != rule
    requires Satisfied(CarryAll(d, b, id, e, rules[..|rules| - 1]).rows, id, rule, kept)
    ensures Satisfied(CarryAll(d, b, id, e, rules).rows, id, rule, kept)
  {
    var last := rules[|rules| - 1];
    CarryKeepsSatisfied(CarryAll(d, b, id, e, rules[..|rules| - 1]), id, last.id, PlanFor(d, e, last), rule, kept);
  }

  lemma {:induction false} SatisfiedRulesAddNothing(d: Directory, b: Box, id: Id, e: DomainEvent, rules: seq<Rule>)
    requires e.company.Some? && Unique(b.rows) && !b.raised
    requires forall i :: 0 <= i < |rules| ==> Satisfied(b.rows, id, rules[i].id, PlanFor(d, e, rules[i]))
    ensures var after := CarryAll(d, b, id, e, rules);
            !after.raised && after.rows == b.rows && after.stats.generated == b.stats.generated
  {
    if rules == [] {
    } else {
      var front, last := rules[..|rules| - 1], rules[|rules| - 1];
      assert forall i :: 0 <= i < |front| ==> front[i] == rules[i];
      SatisfiedRulesAddNothing(d, b, id, e, front);
      SatisfiedAddsNothing(CarryAll(d, b, id, e, front), id, last.id, PlanFor(d, e, last));
    }
  }

  /** The plan of every rule of the event is reflected in the table. */
  ghost predicate AllReflected(d: Directory, rows: seq<Row>, id: Id, e: DomainEvent)
    requires e.company.Some?
  {
    var rules := RulesFor(d.rules, e.company.value, e.eventType);
    forall i :: 0 <= i < |rules| ==> Satisfied(rows, id, rules[i].id, PlanFor(d, e, rules[i]))
  }

  /** Processing an event adds no notification and does not raise if and only if all its
      rules are already reflected in the table. */
  lemma EventAddsNothingIff(d: Directory, rows: seq<Row>, stats: EventStats, id: Id, e: DomainEvent)
    requires Unique(rows) && e.company.Some? && DistinctRules(RulesFor(d.rules, e.company.value, e.eventType))
    ensures var after := HandleEvent(d, rows, stats, id, e);
            !after.raised && after.rows == rows <==> AllReflected(d, rows, id, e)
  {
    var rules := RulesFor(d.rules, e.company.value, e.eventType);
    var after := HandleEvent(d, rows, stats, id, e);
    if AllReflected(d, rows, id, e) {
      SatisfiedRulesAddNothing(d, Box(rows, stats, false), id, e, rules);
    }
    if !after.raised && after.rows == rows && rules != [] {
      forall i | 0 <= i < |rules| ensures Satisfied(rows, id, rules[i].id, PlanFor(d, e, rules[i])) {
        AllSatisfied(d, Box(rows, stats, false), id, e, rules, i);
      }
    }
  }

  /** Nothing that matters to the event has changed between two directories: the second
      lists no new rule, and every rule still asks for the same notifications. */
  ghost predicate NothingNew(d: Directory, d2: Directory, e: DomainEvent)
    requires e.company.Some?
  {
    var was, now := RulesFor(d.rules, e.company.value, e.eventType), RulesFor(d2.rules, e.company.value, e.eventType);
    forall rule :: rule in now ==> rule in was && Alike(PlanFor(d, e, rule), PlanFor(d2, e, rule))
  }

  /** Processing an event again, after it was processed without an exception and whatever
      other events were processed since, adds no notification and does not raise. */
  lemma ReplayAddsNothing(d: Directory, d2: Directory, rows: seq<Row>, since: seq<Row>, stats: EventStats,
                          stats2: EventStats, id: Id, e: DomainEvent)
    requires Unique(rows) && !HandleEvent(d, rows, stats, id, e).raised
    requires e.company.Some? ==> DistinctRules(RulesFor(d.rules, e.company.value, e.eventType)) && NothingNew(d, d2, e)
    requires Unique(HandleEvent(d, rows, stats, id, e).rows + since)
    requires forall i :: 0 <= i < |since| ==> since[i].event != id
    ensures var table := HandleEvent(d, rows, stats, id, e).rows + since;
      var again := HandleEvent(d2, table, stats2, id, e);
      !again.raised && again.rows == table && again.stats.generated == stats2.generated
  {
    var table := HandleEvent(d, rows, stats, id, e).rows + since;
    if e.company.Some? {
      var was, now := RulesFor(d.rules, e.company.value, e.eventType), RulesFor(d2.rules, e.company.value, e.eventType);
      if now != [] {
        forall i | 0 <= i < |now| ensures Satisfied(table, id, now[i].id, PlanFor(d2, e, now[i])) {
          assert now[i] in was;
          var j :| 0 <= j < |was| && was[j] == now[i];
          AllSatisfied(d, Box(rows, stats, false), id, e, was, j);
          StaysSatisfied(HandleEvent(d, rows, stats, id, e).rows, since, id, now[i].id, PlanFor(d, e, now[i]));
          AlikeSatisfied(table, id, now[i].id, PlanFor(d, e, now[i]), PlanFor(d2, e, now[i]));
        }
        SatisfiedRulesAddNothing(d2, Box(table, stats2, false), id, e, now);
      }
    }
  }
}
