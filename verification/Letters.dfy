// What the notifications of an event are, read from the columns of rules, templates and
// recipients.
module Letters {
  import opened Basics
  import opened Models
  import opened Notices
  import T = Templates

  predicate Applies(d: Directory, e: DomainEvent, rule: Rule) {
    rule in d.rules && rule.active && e.company == Some(rule.company) && rule.eventType == e.eventType
  }

  predicate HasTemplate(d: Directory, rule: Rule) {
    rule.template in d.templates && d.templates[rule.template].company == rule.company
  }

  /** Every condition names a path of the context that holds an equal value. */
  predicate ConditionsMet(e: DomainEvent, rule: Rule) {
    forall path :: path in rule.conditions ==>
      && T.ResolvePath(e.context, path).Some?
      && T.Equal(T.ResolvePath(e.context, path).value, rule.conditions[path])
  }

  predicate Renders(text: string, context: T.Value) {
    forall i :: 0 <= i < |T.Scan(text)| ==> T.Resolves(T.Scan(text)[i], context)
  }

  predicate SubjectRenders(subject: Option<string>, context: T.Value) {
    subject.Some? ==> Renders(subject.value, context)
  }

  function SubjectText(subject: Option<string>, context: T.Value): Option<string> {
    if subject.Some? then Some(T.Substituted(T.Scan(subject.value), context)) else None
  }

  /** The address a person has on a channel: the email, the phone for text messages and
      Telegram, the account inside the application, none for a webhook. */
  predicate PersonAt(k: Id, p: Person, channel: Channel, to: Address) {
    || (channel == EmailChannel && p.email.Some? && p.email.value != "" && to == Inbox(p.email.value))
    || (channel == Sms && p.phone.Some? && p.phone.value != "" && to == Inbox(p.phone.value))
    || (channel == Telegram && p.phone.Some? && p.phone.value != "" && to == Inbox(p.phone.value))
    || (channel == InApp && to == Account(k))
  }

  predicate UserAt(u: User, channel: Channel, to: Address) {
    || (channel == EmailChannel && u.email.Some? && u.email.value != "" && to == Inbox(u.email.value))
    || (channel == InApp && to == Account(u.id))
  }

  /** r is to be notified: the customer the event is about, or else its acting customer; an
      active administrator of the company; an active manager of the customer. */
  ghost predicate Due(d: Directory, e: DomainEvent, rule: Rule, r: Recipient)
    requires e.company.Some?
  {
    match rule.to
    case ToCustomer =>
      && r.user == None && r.customer.Some?
      && r.customer == (if e.customer.Some? then e.customer else e.actorCustomer)
      && r.customer.value in d.customers && d.customers[r.customer.value].company == e.company.value
      && PersonAt(r.customer.value, d.customers[r.customer.value], rule.channel, r.address)
    case ToCompanyAdmins =>
      && r.customer == None
      && exists u :: u in d.users && u.company == e.company.value && u.isAdmin && u.active
                     && r.user == Some(u.id) && UserAt(u, rule.channel, r.address)
    case ToSalesManagers =>
      && r.customer == None && e.customer.Some?
      && exists u :: u in d.users && u.active && Assignment(e.company.value, e.customer.value, u.id) in d.assignments
                     && r.user == Some(u.id) && UserAt(u, rule.channel, r.address)
  }

  lemma ReachesIff(r: Recipient, u: User, channel: Channel)
    ensures Reaches(r, u, channel) <==> r.customer == None && r.user == Some(u.id) && UserAt(u, channel, r.address)
  {
  }

  lemma RecipientsOnFields(d: Directory, e: DomainEvent, rule: Rule, r: Recipient)
    requires e.company.Some?
    ensures r in RecipientsFor(d, e, rule) <==> Due(d, e, rule, r)
  {
    forall u ensures Reaches(r, u, rule.channel)
                <==> r.customer == None && r.user == Some(u.id) && UserAt(u, rule.channel, r.address) {
      ReachesIff(r, u, rule.channel);
    }
    match rule.to
    case ToCustomer =>
    case ToCompanyAdmins => AdminsIff(d.users, e.company.value, rule.channel, r);
    case ToSalesManagers =>
      if e.customer.Some? {
        ManagersIff(d.assignments, d.users, e.company.value, e.customer.value, rule.channel, r);
      }
  }

  // ----- what a rule asks for -----

  /** The path of the first placeholder that does not resolve. */
  ghost predicate FirstMissing(text: string, context: T.Value, path: string) {
    exists i :: 0 <= i < |T.Scan(text)| && T.Scan(text)[i] == T.Hole(path) && !T.Resolves(T.Scan(text)[i], context)
                && forall j :: 0 <= j < i ==> T.Resolves(T.Scan(text)[j], context)
  }

  lemma {:induction false} MissingPath(tokens: seq<T.Token>, context: T.Value)
    requires T.Render(tokens, context).Err?
    ensures exists i :: 0 <= i < |tokens| && tokens[i] == T.Hole(T.Render(tokens, context).error)
                        && !T.Resolves(tokens[i], context)
                        && forall j :: 0 <= j < i ==> T.Resolves(tokens[j], context)
  {
    if !T.Resolves(tokens[0], context) {
    } else {
      MissingPath(tokens[1..], context);
      var i :| 0 <= i < |tokens[1..]| && tokens[1..][i] == T.Hole(T.Render(tokens[1..], context).error)
               && !T.Resolves(tokens[1..][i], context)
               && forall j :: 0 <= j < i ==> T.Resolves(tokens[1..][j], context);
      assert tokens[i + 1] == tokens[1..][i];
      assert forall j :: 1 <= j < i + 1 ==> tokens[j] == tokens[1..][j - 1];
    }
  }

  /** The one note a rule asks for, if it asks for one: inactive template, unmet condition,
      missing placeholder, nobody to notify, in this order. */
  ghost predicate NoteDue(d: Directory, e: DomainEvent, rule: Rule, letter: Letter)
    requires e.company.Some? && HasTemplate(d, rule)
  {
    var template := d.templates[rule.template];
    if !template.active then letter == SkippedLetter("template_inactive")
    else if !ConditionsMet(e, rule) then letter == SkippedLetter("condition_not_matched")
    else if !SubjectRenders(template.subject, e.context) then
      letter.FailedLetter? && FirstMissing(template.subject.value, e.context, letter.missingPath)
    else if !Renders(template.body, e.context) then
      letter.FailedLetter? && FirstMissing(template.body, e.context, letter.missingPath)
    else letter == SkippedLetter("recipient_unavailable") && forall r :: !Due(d, e, rule, r)
  }

  /** The rule notifies recipients with these texts. */
  ghost predicate LettersDue(d: Directory, e: DomainEvent, rule: Rule, subject: Option<string>, body: string)
    requires e.company.Some?
  {
    && HasTemplate(d, rule)
    && var template := d.templates[rule.template];
       && template.active && ConditionsMet(e, rule)
       && SubjectRenders(template.subject, e.context) && subject == SubjectText(template.subject, e.context)
       && Renders(template.body, e.context) && body == T.Substituted(T.Scan(template.body), e.context)
  }

  ghost predicate PlanFits(d: Directory, e: DomainEvent, rule: Rule, plan: Plan)
    requires e.company.Some?
  {
    match plan
    case NoTemplate => !HasTemplate(d, rule)
    case Skip(reason) => HasTemplate(d, rule) && NoteDue(d, e, rule, SkippedLetter(reason))
    case Unrenderable(path) => HasTemplate(d, rule) && NoteDue(d, e, rule, FailedLetter(path))
    case Deliver(recipients, subject, body) =>
      && LettersDue(d, e, rule, subject, body) && recipients != []
      && forall r :: r in recipients <==> Due(d, e, rule, r)
  }

  lemma ConditionsIff(e: DomainEvent, rule: Rule)
    ensures ConditionsMatch(rule.conditions, e.context) <==> ConditionsMet(e, rule)
  {
    if ConditionsMatch(rule.conditions, e.context) {
      forall path | path in rule.conditions
        ensures T.ResolvePath(e.context, path).Some?
        ensures T.Equal(T.ResolvePath(e.context, path).value, rule.conditions[path])
      {
        assert Meets(e.context, path, rule.conditions[path]);
      }
    }
    if ConditionsMet(e, rule) {
      forall path | path in rule.conditions ensures Meets(e.context, path, rule.conditions[path]) {
      }
    }
  }

  lemma TextOnTokens(text: string, context: T.Value)
    ensures T.Render(T.Scan(text), context).Ok? <==> Renders(text, context)
    ensures T.Render(T.Scan(text), context).Ok? ==>
      T.Render(T.Scan(text), context).value == T.Substituted(T.Scan(text), context)
    ensures T.Render(T.Scan(text), context).Err? ==>
      FirstMissing(text, context, T.Render(T.Scan(text), context).error)
  {
    T.RenderIff(T.Scan(text), context);
    if T.Render(T.Scan(text), context).Err? {
      MissingPath(T.Scan(text), context);
    }
  }

  lemma SubjectOnTokens(subject: Option<string>, context: T.Value)
    ensures RenderSubject(subject, context).Ok? <==> SubjectRenders(subject, context)
    ensures RenderSubject(subject, context).Ok? ==>
      RenderSubject(subject, context).value == SubjectText(subject, context)
    ensures RenderSubject(subject, context).Err? ==>
      subject.Some? && FirstMissing(subject.value, context, RenderSubject(subject, context).error)
  {
    if subject.Some? {
      TextOnTokens(subject.value, context);
    }
  }

  lemma PlanOnFields(d: Directory, e: DomainEvent, rule: Rule)
    requires e.company.Some?
    ensures PlanFits(d, e, rule, PlanFor(d, e, rule))
  {
    ConditionsIff(e, rule);
    if HasTemplate(d, rule) {
      SubjectOnTokens(d.templates[rule.template].subject, e.context);
      TextOnTokens(d.templates[rule.template].body, e.context);
      var recipients := RecipientsFor(d, e, rule);
      forall r ensures r in recipients <==> Due(d, e, rule, r) {
        RecipientsOnFields(d, e, rule, r);
      }
      if recipients == [] {
        assert forall r :: r !in recipients;
      }
    }
  }

  // ----- what an event adds -----

  /** The row is what a plan writes. */
  ghost predicate Written(row: Row, e: Id, rule: Id, plan: Plan) {
    && row.event == e && row.rule == rule
    && match plan
       case NoTemplate => false
       case Skip(reason) => row == Row(e, rule, None, None, SkippedLetter(reason))
       case Unrenderable(path) => row == Row(e, rule, None, None, FailedLetter(path))
       case Deliver(recipients, subject, body) =>
         exists r :: r in recipients && row == Row(e, rule, r.customer, r.user, PendingLetter(r.address, subject, body))
  }

  lemma {:induction false} SentRow(b: Box, e: Id, rule: Id, recipients: seq<Recipient>, subject: Option<string>,
                                   body: string, j: nat)
    requires |b.rows| <= j < |SendAll(b, e, rule, recipients, subject, body).rows|
    ensures var row := SendAll(b, e, rule, recipients, subject, body).rows[j];
            exists r :: r in recipients
                        && row == Row(e, rule, r.customer, r.user, PendingLetter(r.address, subject, body))
  {
    if recipients == [] {
      assert false;
    } else {
      var front, to := recipients[..|recipients| - 1], recipients[|recipients| - 1];
      var before := SendAll(b, e, rule, front, subject, body);
      if j < |before.rows| {
        SentRow(b, e, rule, front, subject, body, j);
        var r :| r in front
                 && before.rows[j] == Row(e, rule, r.customer, r.user, PendingLetter(r.address, subject, body));
        assert r in recipients;
      } else {
        assert to in recipients;
      }
    }
  }

  lemma CarriedRow(b: Box, e: Id, rule: Id, plan: Plan, j: nat)
    requires |b.rows| <= j < |Carry(b, e, rule, plan).rows|
    ensures Written(Carry(b, e, rule, plan).rows[j], e, rule, plan)
  {
    if plan.Deliver? {
      SentRow(b, e, rule, plan.recipients, plan.subject, plan.body, j);
    }
  }

  lemma {:induction false} NewRow(d: Directory, b: Box, id: Id, e: DomainEvent, rules: seq<Rule>, j: nat)
    returns (i: nat)
    requires e.company.Some? && |b.rows| <= j < |CarryAll(d, b, id, e, rules).rows|
    ensures i < |rules|
    ensures Written(CarryAll(d, b, id, e, rules).rows[j], id, rules[i].id, PlanFor(d, e, rules[i]))
  {
    if rules == [] {
      assert false;
    } else {
      var n := |rules| - 1;
      var before := CarryAll(d, b, id, e, rules[..n]);
      if j < |before.rows| {
        i := NewRow(d, b, id, e, rules[..n], j);
        CarryAllGrows(d, b, id, e, rules[..n]);
        CarryGrows(before, id, rules[n].id, PlanFor(d, e, rules[n]));
      } else {
        i := n;
        CarriedRow(before, id, rules[n].id, PlanFor(d, e, rules[n]), j);
      }
    }
  }

  /** Every notification an event adds comes from a rule that applies to it: a note the
      rule asks for, or a pending letter to somebody due, with the texts of an active
      template all of whose rule's conditions are met. */
  lemma NewRowsOnFields(d: Directory, rows: seq<Row>, stats: EventStats, id: Id, e: DomainEvent, j: nat)
    requires |rows| <= j < |HandleEvent(d, rows, stats, id, e).rows|
    ensures e.company.Some?
    ensures var row := HandleEvent(d, rows, stats, id, e).rows[j];
      exists rule :: Applies(d, e, rule) && row.event == id && row.rule == rule.id && HasTemplate(d, rule)
        && if row.letter.PendingLetter? then
             && LettersDue(d, e, rule, row.letter.subject, row.letter.body)
             && Due(d, e, rule, Recipient(row.customer, row.user, row.letter.to))
           else row.customer == None && row.user == None && NoteDue(d, e, rule, row.letter)
  {
    var rules := RulesFor(d.rules, e.company.value, e.eventType);
    var i := NewRow(d, Box(rows, stats, false), id, e, rules, j);
    RulesForIff(d.rules, e.company.value, e.eventType, rules[i]);
    PlanOnFields(d, e, rules[i]);
    assert Applies(d, e, rules[i]);
  }

  lemma {:induction false} CountedRow(rows: seq<Row>, e: Id, rule: Id) returns (j: nat)
    requires CountAny(rows, e, rule) > 0
    ensures j < |rows| && rows[j].event == e && rows[j].rule == rule
  {
    var last := |rows| - 1;
    if rows[last].event == e && rows[last].rule == rule {
      j := last;
    } else {
      j := CountedRow(rows[..last], e, rule);
    }
  }

  lemma {:induction false} NotCounted(rows: seq<Row>, e: Id, rule: Id, j: nat)
    requires CountAny(rows, e, rule) == 0 && j < |rows|
    ensures rows[j].event != e || rows[j].rule != rule
  {
    if j == |rows| - 1 {
    } else {
      NotCounted(rows[..|rows| - 1], e, rule, j);
    }
  }

  /** A rule that asks for a note gets exactly that one, unless the event fails: for an
      unmet condition one "condition_not_matched", and nobody is notified. */
  lemma NoteOnFields(d: Directory, rows: seq<Row>, stats: EventStats, id: Id, e: DomainEvent, rule: Rule)
    requires Applies(d, e, rule) && HasTemplate(d, rule) && CountAny(rows, id, rule.id) == 0
    requires DistinctRules(RulesFor(d.rules, e.company.value, e.eventType))
    requires !HandleEvent(d, rows, stats, id, e).raised
    requires exists letter :: NoteDue(d, e, rule, letter)
    ensures var after := HandleEvent(d, rows, stats, id, e).rows;
      && CountAny(after, id, rule.id) == 1
      && exists j :: |rows| <= j < |after| && after[j].event == id && after[j].rule == rule.id
                     && after[j].customer == None && after[j].user == None && NoteDue(d, e, rule, after[j].letter)
  {
    var rules := RulesFor(d.rules, e.company.value, e.eventType);
    RulesForIff(d.rules, e.company.value, e.eventType, rule);
    var i :| 0 <= i < |rules| && rules[i] == rule;
    var b, after := Box(rows, stats, false), HandleEvent(d, rows, stats, id, e).rows;
    NotesAreNotDelivered(d, e, rule);
    AllSatisfied(d, b, id, e, rules, i);
    var j := CountedRow(after, id, rule.id);
    if j < |rows| {
      CarryAllGrows(d, b, id, e, rules);
      NotCounted(rows, id, rule.id, j);
    }
    var k := NewRow(d, b, id, e, rules, j);
    NoteIsDue(d, e, rule, after[j], id);
  }

  lemma NotesAreNotDelivered(d: Directory, e: DomainEvent, rule: Rule)
    requires e.company.Some? && HasTemplate(d, rule) && exists letter :: NoteDue(d, e, rule, letter)
    ensures PlanFor(d, e, rule).Skip? || PlanFor(d, e, rule).Unrenderable?
  {
    PlanOnFields(d, e, rule);
    var recipients := RecipientsFor(d, e, rule);
    if recipients != [] {
      assert recipients[0] in recipients;
      RecipientsOnFields(d, e, rule, recipients[0]);
    }
  }

  lemma NoteIsDue(d: Directory, e: DomainEvent, rule: Rule, row: Row, id: Id)
    requires e.company.Some? && HasTemplate(d, rule)
    requires PlanFor(d, e, rule).Skip? || PlanFor(d, e, rule).Unrenderable?
    requires Written(row, id, rule.id, PlanFor(d, e, rule))
    ensures row.customer == None && row.user == None && NoteDue(d, e, rule, row.letter)
  {
    PlanOnFields(d, e, rule);
  }

  lemma {:induction false} FilledSlot(rows: seq<Row>, e: Id, rule: Id, customer: Option<Id>, user: Option<Id>)
    returns (j: nat)
    requires CountFor(rows, e, rule, customer, user) > 0
    ensures j < |rows| && InSlot(rows[j], e, rule, customer, user)
  {
    var last := |rows| - 1;
    if InSlot(rows[last], e, rule, customer, user) {
      j := last;
    } else {
      j := FilledSlot(rows[..last], e, rule, customer, user);
    }
  }

  /** And everybody due is notified, unless the event fails. */
  lemma EverybodyDueIsNotified(d: Directory, rows: seq<Row>, stats: EventStats, id: Id, e: DomainEvent, rule: Rule,
                               subject: Option<string>, body: string, r: Recipient)
    requires Applies(d, e, rule) && LettersDue(d, e, rule, subject, body) && Due(d, e, rule, r)
    requires DistinctRules(RulesFor(d.rules, e.company.value, e.eventType))
    requires !HandleEvent(d, rows, stats, id, e).raised
    ensures exists j :: 0 <= j < |HandleEvent(d, rows, stats, id, e).rows|
              && InSlot(HandleEvent(d, rows, stats, id, e).rows[j], id, rule.id, r.customer, r.user)
  {
    var rules := RulesFor(d.rules, e.company.value, e.eventType);
    RulesForIff(d.rules, e.company.value, e.eventType, rule);
    var i :| 0 <= i < |rules| && rules[i] == rule;
    PlanOnFields(d, e, rule);
    AllSatisfied(d, Box(rows, stats, false), id, e, rules, i);
    var plan := PlanFor(d, e, rule);
    assert plan.Deliver? && r in plan.recipients;
    var m :| 0 <= m < |plan.recipients| && plan.recipients[m] == r;
    var j := FilledSlot(HandleEvent(d, rows, stats, id, e).rows, id, rule.id, r.customer, r.user);
  }

  // ----- how an event ends -----

  /** An event ends failed exactly when processing it raised, else processed; either way it
      has been tried once more and is counted once. Without a company, or without a rule
      that applies, nothing is written. */
  lemma EventEnds(d: Directory, m: Mailroom, id: Id)
    requires id in m.events
    ensures var e, r := m.events[id], HandleOne(d, m, id);
      var raised := HandleEvent(d, m.rows, m.stats, id, e).raised;
      && r.events == m.events[id := r.events[id]]
      && r.events[id] == e.(status := r.events[id].status, attempts := e.attempts + 1)
      && (r.events[id].status == FailedEvent <==> raised) && (r.events[id].status == ProcessedEvent <==> !raised)
      && r.stats.failed == m.stats.failed + (if raised then 1 else 0)
      && r.stats.processed == m.stats.processed + (if raised then 0 else 1)
      && (e.company.None? ==> !raised && r.rows == m.rows && r.stats.withoutCompany == m.stats.withoutCompany + 1)
      && (e.company.Some? && (forall rule :: !Applies(d, e, rule)) ==>
            !raised && r.rows == m.rows && r.stats.withoutRules == m.stats.withoutRules + 1)
  {
    var e := m.events[id];
    HandleEventGrows(d, m.rows, m.stats, id, e);
    if e.company.Some? {
      var rules := RulesFor(d.rules, e.company.value, e.eventType);
      if rules != [] {
        RulesForIff(d.rules, e.company.value, e.eventType, rules[0]);
        assert Applies(d, e, rules[0]);
      }
    }
  }

  /** A note counts as skipped or unrendered even when its row was there already. */
  lemma NotesAreCounted(b: Box, e: Id, rule: Id, plan: Plan)
    requires !b.raised && !Carry(b, e, rule, plan).raised
    ensures var after := Carry(b, e, rule, plan).stats;
      && after.skipped == b.stats.skipped + (if plan.Skip? then 1 else 0)
      && after.unrendered == b.stats.unrendered + (if plan.Unrenderable? then 1 else 0)
      && (plan.Skip? || plan.Unrenderable? ==> after.generated == b.stats.generated)
  {
    if plan.Deliver? {
      SendingCountsNoNotes(b, e, rule, plan.recipients, plan.subject, plan.body);
    }
  }

  lemma {:induction false} SendingCountsNoNotes(b: Box, e: Id, rule: Id, recipients: seq<Recipient>,
                                                subject: Option<string>, body: string)
    ensures var after := SendAll(b, e, rule, recipients, subject, body).stats;
            after.skipped == b.stats.skipped && after.unrendered == b.stats.unrendered
  {
    if recipients == [] {
    } else {
      SendingCountsNoNotes(b, e, rule, recipients[..|recipients| - 1], subject, body);
    }
  }
}
