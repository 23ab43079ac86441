// The notification service: passes over pending domain events.
module Notifications {
  import opened Basics
  import opened Models
  import opened Notices

  class Center {
    // What other services maintain and this one only reads.
    var directory: Directory
    var events: map<Id, DomainEvent>
    // Event ids by time of occurrence.
    var order: seq<Id>
    var rows: seq<Row>
    var stats: EventStats

    constructor (directory: Directory, events: map<Id, DomainEvent>, order: seq<Id>)
      requires Listed(events, order)
      ensures this.directory == directory && this.events == events && this.order == order
      ensures rows == [] && stats == NO_STATS
    {
      this.directory, this.events, this.order := directory, events, order;
      rows, stats := [], NO_STATS;
    }

    function State(): Mailroom
      reads this
    {
      Mailroom(events, rows, stats)
    }

    // ----- lookups -----

    /** scalar_one_or_none: two or more rows raise. */
    method NotificationExists(e: Id, rule: Id, to: Option<Recipient>) returns (r: Result<bool, ()>)
      ensures var n := if to.None? then CountAny(rows, e, rule)
                       else CountFor(rows, e, rule, to.value.customer, to.value.user);
              r == if n > 1 then Err(()) else Ok(n == 1)
    {
      var n := 0;
      for i := 0 to |rows|
        invariant n == if to.None? then CountAny(rows[..i], e, rule)
                       else CountFor(rows[..i], e, rule, to.value.customer, to.value.user)
      {
        assert rows[..i + 1][..i] == rows[..i];
        if rows[i].event == e && rows[i].rule == rule
           && (to.None? || (rows[i].customer == to.value.customer && rows[i].user == to.value.user)) {
          n := n + 1;
        }
      }
      assert rows[..|rows|] == rows;
      return if n > 1 then Err(()) else Ok(n == 1);
    }

    method ConditionsHold(conditions: map<string, T.Value>, context: T.Value) returns (ok: bool)
      ensures ok == ConditionsMatch(conditions, context)
    {
      var rest := conditions.Keys;
      while rest != {}
        invariant rest <= conditions.Keys
        invariant forall path :: path in conditions && path !in rest ==>
          Meets(context, path, conditions[path])
      {
        var path :| path in rest;
        var actual := T.ResolvePath(context, path);
        if actual.None? || !T.Equal(actual.value, conditions[path]) {
          return false;
        }
        rest := rest - {path};
      }
      return true;
    }

    // ----- creating rows once -----

    /** A skipped or failed notification; false when the lookup raised. */
    method CreateNoteOnce(e: Id, rule: Id, letter: Letter) returns (ok: bool)
      modifies this`rows
      ensures Box(rows, stats, !ok) == Note(Box(old(rows), stats, false), e, rule, letter, stats)
    {
      var exists_ := NotificationExists(e, rule, None);
      if exists_.Err? {
        return false;
      }
      if !exists_.value {
        rows := rows + [Row(e, rule, None, None, letter)];
      }
      return true;
    }

    method CreatePendingOnce(e: Id, rule: Id, to: Recipient, subject: Option<string>, body: string) returns (ok: bool)
      modifies this`rows, this`stats
      ensures Box(rows, stats, !ok) == SendOne(Box(old(rows), old(stats), false), e, rule, to, subject, body)
    {
      var exists_ := NotificationExists(e, rule, Some(to));
      if exists_.Err? {
        return false;
      }
      if !exists_.value {
        rows := rows + [Row(e, rule, to.customer, to.user, PendingLetter(to.address, subject, body))];
        stats := stats.(generated := stats.generated + 1);
      }
      return true;
    }

    // ----- one rule, one event -----

    method MakePlan(e: DomainEvent, rule: Rule) returns (plan: Plan)
      requires e.company.Some?
      ensures plan == PlanFor(directory, e, rule)
    {
      if rule.template !in directory.templates || directory.templates[rule.template].company != rule.company {
        return NoTemplate;
      }
      var template := directory.templates[rule.template];
      if !template.active {
        return Skip("template_inactive");
      }
      var holds := ConditionsHold(rule.conditions, e.context);
      if !holds {
        return Skip("condition_not_matched");
      }
      var subject: Option<string> := None;
      if template.subject.Some? {
        var rendered := T.RenderTemplate(template.subject.value, e.context);
        if rendered.Err? {
          return Unrenderable(rendered.error);
        }
        subject := Some(rendered.value);
      }
      var body := T.RenderTemplate(template.body, e.context);
      if body.Err? {
        return Unrenderable(body.error);
      }
      var recipients := RecipientsFor(directory, e, rule);
      if recipients == [] {
        return Skip("recipient_unavailable");
      }
      return Deliver(recipients, subject, body.value);
    }

    method SendToAll(e: Id, rule: Id, recipients: seq<Recipient>, subject: Option<string>, body: string)
      returns (ok: bool)
      modifies this`rows, this`stats
      ensures Box(rows, stats, !ok) == SendAll(Box(old(rows), old(stats), false), e, rule, recipients, subject, body)
    {
      ghost var start := Box(rows, stats, false);
      for i := 0 to |recipients|
        invariant Box(rows, stats, false) == SendAll(start, e, rule, recipients[..i], subject, body)
      {
        assert recipients[..i + 1][..i] == recipients[..i];
        ok := CreatePendingOnce(e, rule, recipients[i], subject, body);
        if !ok {
          SendAllStops(start, e, rule, recipients, subject, body, i + 1);
          return;
        }
      }
      assert recipients[..|recipients|] == recipients;
      return true;
    }

    method ProcessRuleForEvent(id: Id, e: DomainEvent, rule: Rule) returns (ok: bool)
      requires e.company.Some?
      modifies this`rows, this`stats
      ensures Box(rows, stats, !ok)
           == Carry(Box(old(rows), old(stats), false), id, rule.id, PlanFor(directory, e, rule))
    {
      var plan := MakePlan(e, rule);
      match plan {
        case NoTemplate =>
          ok := false;
        case Skip(reason) =>
          ok := CreateNoteOnce(id, rule.id, SkippedLetter(reason));
          if ok {
            stats := stats.(skipped := stats.skipped + 1);
          }
        case Unrenderable(path) =>
          ok := CreateNoteOnce(id, rule.id, FailedLetter(path));
          if ok {
            stats := stats.(unrendered := stats.unrendered + 1);
          }
        case Deliver(recipients, subject, body) =>
          ok := SendToAll(id, rule.id, recipients, subject, body);
      }
    }

    method ProcessRules(id: Id, e: DomainEvent, rules: seq<Rule>) returns (ok: bool)
      requires e.company.Some?
      modifies this`rows, this`stats
      ensures Box(rows, stats, !ok) == CarryAll(directory, Box(old(rows), old(stats), false), id, e, rules)
    {
      ghost var start := Box(rows, stats, false);
      for i := 0 to |rules|
        invariant Box(rows, stats, false) == CarryAll(directory, start, id, e, rules[..i])
      {
        assert rules[..i + 1][..i] == rules[..i];
        ok := ProcessRuleForEvent(id, e, rules[i]);
        if !ok {
          CarryAllStops(directory, start, id, e, rules, i + 1);
          return;
        }
      }
      assert rules[..|rules|] == rules;
      return true;
    }

    method ProcessDomainEvent(id: Id) returns (ok: bool)
      requires id in events
      modifies this`rows, this`stats, this`events
      ensures var e := old(events)[id];
        && Box(rows, stats, !ok) == HandleEvent(directory, old(rows), old(stats), id, e)
        && events == old(events)[id := e.(status := if ok then ProcessedEvent else ProcessingEvent,
                                          attempts := e.attempts + 1)]
    {
      var e := events[id];
      var open := e.(status := ProcessingEvent, attempts := e.attempts + 1);
      events := events[id := open];
      if e.company.None? {
        stats := stats.(withoutCompany := stats.withoutCompany + 1);
        events := events[id := open.(status := ProcessedEvent)];
        return true;
      }
      var rules := RulesFor(directory.rules, e.company.value, e.eventType);
      if rules == [] {
        stats := stats.(withoutRules := stats.withoutRules + 1);
        events := events[id := open.(status := ProcessedEvent)];
        return true;
      }
      ok := ProcessRules(id, e, rules);
      if ok {
        events := events[id := open.(status := ProcessedEvent)];
      }
    }

    method ProcessOrFail(id: Id)
      requires id in events
      modifies this`rows, this`stats, this`events
      ensures State() == HandleOne(directory, old(State()), id)
    {
      ghost var before := State();
      var ok := ProcessDomainEvent(id);
      if ok {
        stats := stats.(processed := stats.processed + 1);
      } else {
        events := events[id := events[id].(status := FailedEvent)];
        stats := stats.(failed := stats.failed + 1);
      }
      assert events == before.events[id := Closed(before.events[id], !ok)];
    }

    // ----- a pass -----

    /** The oldest pending events, of one company or of all. */
    function Pending(ids: seq<Id>, company: Option<Id>): (found: seq<Id>)
      requires Listed(events, ids)
      reads this
      ensures forall id :: id in found <==>
        id in ids && events[id].status == PendingEvent && (company.None? || events[id].company == company)
    {
      if ids == [] then []
      else
        var id := ids[|ids| - 1];
        Pending(ids[..|ids| - 1], company)
        + if events[id].status == PendingEvent && (company.None? || events[id].company == company) then [id] else []
    }

    function Fetched(company: Option<Id>, limit: nat): (ids: seq<Id>)
      requires Listed(events, order)
      reads this
      ensures |ids| <= limit && forall id :: id in ids ==> id in events
    {
      var ids := Pending(order, company);
      if |ids| <= limit then ids else ids[..limit]
    }

    /** The query keeps the order of the events and takes the first of them up to the limit. */
    lemma PendingInOrder(ids: seq<Id>, id: Id, company: Option<Id>)
      requires Listed(events, ids) && id in events
      ensures Pending(ids + [id], company)
           == Pending(ids, company)
              + if events[id].status == PendingEvent && (company == None || events[id].company == company) then [id]
                else []
    {
      assert (ids + [id])[..|ids|] == ids;
    }

    lemma FetchedAreFirst(company: Option<Id>, limit: nat)
      requires Listed(events, order)
      ensures Fetched(company, limit) <= Pending(order, company)
      ensures |Fetched(company, limit)| == Min(limit, |Pending(order, company)|)
    {
    }

    method ProcessEach(ids: seq<Id>)
      requires Listed(events, ids)
      modifies this`rows, this`stats, this`events
      ensures State() == HandleAll(directory, old(State()), ids)
    {
      ghost var start := State();
      for i := 0 to |ids|
        invariant events.Keys == start.events.Keys
        invariant State() == HandleAll(directory, start, ids[..i])
      {
        HandleAllNext(directory, start, ids, i);
        ProcessOrFail(ids[i]);
      }
      assert ids[..|ids|] == ids;
    }

    /** A pass: the fetched events one after the other, a failing one marked and passed. */
    method ProcessPendingDomainEvents(company: Option<Id>, limit: nat)
      requires Listed(events, order)
      modifies this`rows, this`stats, this`events
      ensures var ids := old(Fetched(company, limit));
        State() == HandleAll(directory, Mailroom(old(events), old(rows), NO_STATS.(checked := |ids|)), ids)
    {
      var ids := Fetched(company, limit);
      stats := NO_STATS.(checked := |ids|);
      ProcessEach(ids);
    }
  }

  lemma HandleAllNext(d: Directory, m: Mailroom, ids: seq<Id>, i: nat)
    requires Listed(m.events, ids) && i < |ids|
    ensures ids[i] in m.events
    ensures HandleAll(d, m, ids[..i + 1]) == HandleOne(d, HandleAll(d, m, ids[..i]), ids[i])
  {
    assert ids[..i + 1][..i] == ids[..i];
    assert ids[i] in ids;
  }

  /** Every listed event exists. */
  predicate Listed(events: map<Id, DomainEvent>, order: seq<Id>) {
    forall id :: id in order ==> id in events
  }

  /** The first recipient whose lookup raises ends the loop. */
  lemma {:induction false} SendAllStops(b: Box, e: Id, rule: Id, recipients: seq<Recipient>, subject: Option<string>,
                                        body: string, n: nat)
    requires n <= |recipients| && SendAll(b, e, rule, recipients[..n], subject, body).raised
    ensures SendAll(b, e, rule, recipients, subject, body) == SendAll(b, e, rule, recipients[..n], subject, body)
    decreases |recipients| - n
  {
    if n < |recipients| {
      assert recipients[..n + 1][..n] == recipients[..n];
      SendAllStops(b, e, rule, recipients, subject, body, n + 1);
    } else {
      assert recipients[..n] == recipients;
    }
  }

  /** The first rule that raises ends the loop. */
  lemma {:induction false} CarryAllStops(d: Directory, b: Box, id: Id, e: DomainEvent, rules: seq<Rule>, n: nat)
    requires e.company.Some? && n <= |rules| && CarryAll(d, b, id, e, rules[..n]).raised
    ensures CarryAll(d, b, id, e, rules) == CarryAll(d, b, id, e, rules[..n])
    decreases |rules| - n
  {
    if n < |rules| {
      assert rules[..n + 1][..n] == rules[..n];
      CarryAllStops(d, b, id, e, rules, n + 1);
    } else {
      assert rules[..n] == rules;
    }
  }
}
