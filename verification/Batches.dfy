// Import batches: which rows a preview accepts, what a commit makes of them, and what every
// run of previews, commits and cancellations keeps.
module Batches {
  import opened Basics
  import opened Models
  import opened Database
  import opened Ledger
  import opened ImportRows

  // ----- previews -----

  /** What validation leaves for each row of a file, before duplicates are marked. */
  function Contents(raws: seq<RawRow>, lib: Library): seq<Option<NormalizedRow>> {
    seq(|raws|, i requires 0 <= i < |raws| => Content(raws[i], lib))
  }

  ghost predicate KeyShared(contents: seq<Option<NormalizedRow>>, i: nat)
    requires i < |contents| && contents[i].Some?
  {
    exists j :: 0 <= j < |contents| && j != i && contents[j].Some? && contents[j].value.key == contents[i].value.key
  }

  /** A previewed row is invalid if and only if it had an error of its own or shares its
      key with another row that had none. */
  ghost function PreviewRow(contents: seq<Option<NormalizedRow>>, i: nat): ImportRow
    requires i < |contents|
  {
    if contents[i].None? || KeyShared(contents, i) then ImportRow(i + 2, None, Invalid)
    else ImportRow(i + 2, contents[i], Valid)
  }

  ghost function PreviewRows(contents: seq<Option<NormalizedRow>>): seq<ImportRow> {
    seq(|contents|, i requires 0 <= i < |contents| => PreviewRow(contents, i))
  }

  function CountStatus(rows: seq<ImportRow>, status: RowStatus): nat {
    if rows == [] then 0
    else CountStatus(rows[..|rows| - 1], status) + if rows[|rows| - 1].status == status then 1 else 0
  }

  function PreviewedBatch(rows: seq<ImportRow>): ImportBatch {
    ImportBatch(Previewed, rows, |rows|, CountStatus(rows, Valid), CountStatus(rows, Invalid), 0, 0)
  }

  // ----- the valid rows and what becomes of them -----

  predicate IsValid(r: ImportRow) { r.status == Valid && r.content.Some? }

  function ValidContents(rows: seq<ImportRow>): seq<NormalizedRow> {
    if rows == [] then []
    else
      var last := rows[|rows| - 1];
      ValidContents(rows[..|rows| - 1]) + if IsValid(last) then [last.content.value] else []
  }

  function StatusAfter(o: RowOutcome): RowStatus {
    if o.Done? && o.sale != Skipped then CommittedRow else SkippedRow
  }

  /** The valid rows take the status of their outcomes, the others stay. */
  function Settled(rows: seq<ImportRow>, outcomes: seq<RowOutcome>): (settled: seq<ImportRow>)
    requires |outcomes| == |ValidContents(rows)|
    ensures |settled| == |rows|
  {
    if rows == [] then []
    else
      var front, last := rows[..|rows| - 1], rows[|rows| - 1];
      if IsValid(last)
      then Settled(front, outcomes[..|outcomes| - 1]) + [last.(status := StatusAfter(outcomes[|outcomes| - 1]))]
      else Settled(front, outcomes) + [last]
  }

  datatype CommitStats = CommitStats(
    createdCustomers: nat, updatedCustomers: nat,
    createdSales: nat, updatedSales: nat, skippedSales: nat, failedRows: nat)

  function One(b: bool): nat { if b then 1 else 0 }

  function Counted(s: CommitStats, o: RowOutcome): CommitStats {
    match o
    case Failed => s.(failedRows := s.failedRows + 1)
    case Done(created, updated, sale, _) =>
      CommitStats(s.createdCustomers + One(created), s.updatedCustomers + One(updated),
                  s.createdSales + One(sale == Created), s.updatedSales + One(sale == Updated),
                  s.skippedSales + One(sale == Skipped), s.failedRows)
  }

  function Tallied(outcomes: seq<RowOutcome>): CommitStats {
    if outcomes == [] then CommitStats(0, 0, 0, 0, 0, 0)
    else Counted(Tallied(outcomes[..|outcomes| - 1]), outcomes[|outcomes| - 1])
  }

  function WithResult(batch: ImportBatch, settled: seq<ImportRow>, stats: CommitStats): ImportBatch {
    batch.(status := CommittedBatch, rows := settled,
           committedRows := stats.createdSales + stats.updatedSales,
           skippedRows := stats.skippedSales + stats.failedRows)
  }

  function BatchAfter(batch: ImportBatch, outcomes: seq<RowOutcome>): ImportBatch
    requires |outcomes| == |ValidContents(batch.rows)|
  {
    WithResult(batch, Settled(batch.rows, outcomes), Tallied(outcomes))
  }

  // ----- runs -----

  datatype State = State(company: Id, ledger: Ledger, batches: map<Id, ImportBatch>, log: seq<Id>)

  function StateOf(session: Session): State
    reads session
  {
    State(session.company, LedgerOf(session), session.batches, session.importLog)
  }

  /** recalculated says whether the progress of every affected customer could be
      recalculated; Others is whatever other services do to the ledger between calls. */
  datatype Op =
    | Preview(id: Id, contents: seq<Option<NormalizedRow>>, maxRows: nat)
    | Commit(id: Id, recalculated: bool)
    | Cancel(id: Id)
    | Others(ledger: Ledger)

  predicate Committable(status: BatchStatus) {
    status != CommittedBatch && status != CancelledBatch && status != FailedBatch
  }

  function Committed(s: State, id: Id): (Ledger, seq<RowOutcome>)
    requires id in s.batches
  {
    CommitRows(s.ledger, s.company, id, ValidContents(s.batches[id].rows))
  }

  /** A batch applied: the ledger, the batch and the log. */
  function Applied(s: State, id: Id): State
    requires id in s.batches
  {
    var (ledger, outcomes) := Committed(s, id);
    State(s.company, ledger, s.batches[id := BatchAfter(s.batches[id], outcomes)], s.log + [id])
  }

  /** The effect of one call, or None when it raises and the request is rolled back. */
  ghost function Apply(s: State, op: Op): Option<State> {
    match op
    case Preview(id, contents, maxRows) =>
      if id in s.batches || |contents| > maxRows then None
      else Some(s.(batches := s.batches[id := PreviewedBatch(PreviewRows(contents))]))
    case Commit(id, recalculated) =>
      if id !in s.batches || !Committable(s.batches[id].status) || !recalculated then None
      else Some(Applied(s, id))
    case Cancel(id) =>
      if id !in s.batches || s.batches[id].status == CommittedBatch then None
      else Some(s.(batches := s.batches[id := s.batches[id].(status := CancelledBatch)]))
    case Others(ledger) => Some(s.(ledger := ledger))
  }

  ghost function Step(s: State, op: Op): State {
    match Apply(s, op)
    case None => s
    case Some(next) => next
  }

  ghost function Run(s: State, ops: seq<Op>): State {
    if ops == [] then s else Step(Run(s, ops[..|ops| - 1]), ops[|ops| - 1])
  }

  ghost predicate Outcome(before: State, op: Op, ok: bool, after: State) {
    ok == Apply(before, op).Some? && after == Step(before, op)
  }

  // ----- the calls on the columns of a batch -----

  /** Which batches can be committed, and the batch and log afterwards. */
  lemma CommitOnFields(s: State, id: Id)
    ensures Apply(s, Commit(id, true)).Some?
       <==> id in s.batches && s.batches[id].status in {DraftBatch, Previewed}
    ensures Apply(s, Commit(id, false)).None?
    ensures Apply(s, Commit(id, true)).Some? ==>
      var next, (ledger, outcomes) := Apply(s, Commit(id, true)).value,
                                      CommitRows(s.ledger, s.company, id, ValidContents(s.batches[id].rows));
      && next.ledger == ledger && next.company == s.company && next.log == s.log + [id]
      && id in next.batches && next.batches == s.batches[id := next.batches[id]]
      && next.batches[id].status == CommittedBatch && |next.batches[id].rows| == |s.batches[id].rows|
      && next.batches[id].totalRows == s.batches[id].totalRows
      && next.batches[id].validRows == s.batches[id].validRows
      && next.batches[id].invalidRows == s.batches[id].invalidRows
  {
  }

  lemma CancelOnFields(s: State, id: Id)
    ensures Apply(s, Cancel(id)).Some? <==> id in s.batches && s.batches[id].status != CommittedBatch
    ensures Apply(s, Cancel(id)).Some? ==>
      Apply(s, Cancel(id)).value == s.(batches := s.batches[id := s.batches[id].(status := CancelledBatch)])
  {
  }

  /** A preview of a file within the limit stores a batch with a row for each line, counted
      from 2 below the header, valid or not, and nothing committed yet. */
  lemma PreviewOnFields(s: State, id: Id, contents: seq<Option<NormalizedRow>>, maxRows: nat)
    requires id !in s.batches
    ensures Apply(s, Preview(id, contents, maxRows)).Some? <==> |contents| <= maxRows
    ensures Apply(s, Preview(id, contents, maxRows)).Some? ==>
      var next := Apply(s, Preview(id, contents, maxRows)).value;
      && next.ledger == s.ledger && next.log == s.log && id in next.batches
      && next.batches == s.batches[id := next.batches[id]]
      && var b := next.batches[id];
         && b.status == Previewed && b.totalRows == |contents| == |b.rows| && b.committedRows == 0 && b.skippedRows == 0
         && forall i :: 0 <= i < |contents| ==>
              var shared := contents[i].Some? && exists j :: 0 <= j < |contents| && j != i && contents[j].Some?
                                                             && contents[j].value.key == contents[i].value.key;
              b.rows[i] == if contents[i].None? || shared then ImportRow(i + 2, None, Invalid)
                           else ImportRow(i + 2, contents[i], Valid)
  {
  }

  /** A row is committed if its sale was created or rewritten, skipped if its sale was the
      same already or the row failed; other rows stay as they are. */
  lemma StatusOnOutcome(front: seq<ImportRow>, last: ImportRow, outcomes: seq<RowOutcome>, o: RowOutcome)
    requires |outcomes| == |ValidContents(front)|
    ensures last.status == Valid && last.content.Some? ==>
      var settled := Settled(front + [last], outcomes + [o]);
      && settled[|front|].number == last.number && settled[|front|].content == last.content
      && (settled[|front|].status == CommittedRow <==> o.Done? && (o.sale == Created || o.sale == Updated))
      && (settled[|front|].status == SkippedRow <==> o.Failed? || o.sale == Skipped)
    ensures last.status != Valid ==> Settled(front + [last], outcomes)[|front|] == last
  {
    SettledSnocOpen(front, last, outcomes);
  }

  /** The statistics count the outcomes. */
  lemma {:induction false} StatisticsOnOutcomes(outcomes: seq<RowOutcome>)
    ensures var t := Tallied(outcomes);
      && t.createdCustomers == Count(outcomes, (o: RowOutcome) => o.Done? && o.createdCustomer)
      && t.updatedCustomers == Count(outcomes, (o: RowOutcome) => o.Done? && o.updatedCustomer)
      && t.createdSales == Count(outcomes, (o: RowOutcome) => o.Done? && o.sale == Created)
      && t.updatedSales == Count(outcomes, (o: RowOutcome) => o.Done? && o.sale == Updated)
      && t.skippedSales == Count(outcomes, (o: RowOutcome) => o.Done? && o.sale == Skipped)
      && t.failedRows == Count(outcomes, (o: RowOutcome) => o.Failed?)
  {
    if outcomes == [] {
    } else {
      StatisticsOnOutcomes(outcomes[..|outcomes| - 1]);
    }
  }

  // ----- row accounting over every run -----

  ghost predicate DistinctValid(rows: seq<ImportRow>) {
    forall i, j :: 0 <= i < j < |rows| && IsValid(rows[i]) && IsValid(rows[j]) ==>
      rows[i].content.value.key != rows[j].content.value.key
  }

  /** The counters of a batch are the numbers of its rows in each status. */
  ghost predicate Accounted(b: ImportBatch) {
    && b.totalRows == |b.rows| && b.invalidRows == CountStatus(b.rows, Invalid)
    && b.validRows + b.invalidRows == b.totalRows
    && b.committedRows == CountStatus(b.rows, CommittedRow)
    && b.skippedRows == CountStatus(b.rows, SkippedRow)
    && (b.status == CommittedBatch ==> b.committedRows + b.skippedRows == b.validRows)
    && (b.status != CommittedBatch ==> b.committedRows == 0 && b.skippedRows == 0)
  }

  ghost predicate BatchSound(b: ImportBatch) {
    Accounted(b) && DistinctValid(b.rows) && ContentKept(b.rows)
  }

  /** Every batch is sound, and the committed batches are those in the log, each once. */
  ghost predicate Inv(s: State) {
    && (forall id :: id in s.batches ==> BatchSound(s.batches[id]))
    && (forall id :: id in s.log <==> id in s.batches && s.batches[id].status == CommittedBatch)
    && (forall i, j :: 0 <= i < j < |s.log| ==> s.log[i] != s.log[j])
  }

  lemma {:induction false} StatusesAddUp(rows: seq<ImportRow>)
    ensures CountStatus(rows, Valid) + CountStatus(rows, Invalid) + CountStatus(rows, CommittedRow)
          + CountStatus(rows, SkippedRow) == |rows|
  {
    if rows == [] {
    } else {
      StatusesAddUp(rows[..|rows| - 1]);
    }
  }

  lemma {:induction false} NoneOfStatus(rows: seq<ImportRow>, status: RowStatus)
    requires forall i :: 0 <= i < |rows| ==> rows[i].status != status
    ensures CountStatus(rows, status) == 0
  {
    if rows == [] {
    } else {
      NoneOfStatus(rows[..|rows| - 1], status);
    }
  }

  lemma PreviewIsSound(contents: seq<Option<NormalizedRow>>)
    ensures BatchSound(PreviewedBatch(PreviewRows(contents)))
  {
    var rows := PreviewRows(contents);
    NoneOfStatus(rows, CommittedRow);
    NoneOfStatus(rows, SkippedRow);
    StatusesAddUp(rows);
    forall i, j | 0 <= i < j < |rows| && IsValid(rows[i]) && IsValid(rows[j])
      ensures rows[i].content.value.key != rows[j].content.value.key
    {
      assert rows[i] == PreviewRow(contents, i) && rows[j] == PreviewRow(contents, j);
    }
  }

  /** How many outcomes give their row a status. */
  function Gained(outcomes: seq<RowOutcome>, status: RowStatus): nat {
    if outcomes == [] then 0
    else Gained(outcomes[..|outcomes| - 1], status) + One(StatusAfter(outcomes[|outcomes| - 1]) == status)
  }

  lemma {:induction false} GainedIsTallied(outcomes: seq<RowOutcome>)
    ensures var t := Tallied(outcomes);
      && Gained(outcomes, CommittedRow) == t.createdSales + t.updatedSales
      && Gained(outcomes, SkippedRow) == t.skippedSales + t.failedRows
      && Gained(outcomes, Invalid) == 0
  {
    if outcomes == [] {
    } else {
      GainedIsTallied(outcomes[..|outcomes| - 1]);
    }
  }

  lemma CountStatusSnoc(rows: seq<ImportRow>, row: ImportRow, status: RowStatus)
    ensures CountStatus(rows + [row], status) == CountStatus(rows, status) + if row.status == status then 1 else 0
  {
  }

  /** A row whose status is valid has content. */
  ghost predicate ContentKept(rows: seq<ImportRow>) {
    forall i :: 0 <= i < |rows| && rows[i].status == Valid ==> rows[i].content.Some?
  }

  lemma ContentSnoc(front: seq<ImportRow>, last: ImportRow)
    requires ContentKept(front + [last])
    ensures ContentKept(front) && (last.status == Valid ==> IsValid(last))
  {
    var rows := front + [last];
    assert rows[|front|] == last;
    assert forall i :: 0 <= i < |front| ==> front[i] == rows[i];
  }

  lemma SettledSnoc(front: seq<ImportRow>, last: ImportRow, outcomes: seq<RowOutcome>)
    requires |outcomes| == |ValidContents(front + [last])|
    ensures ValidContents(front + [last]) == ValidContents(front) + if IsValid(last) then [last.content.value] else []
    ensures Settled(front + [last], outcomes)
         == if IsValid(last)
            then Settled(front, outcomes[..|outcomes| - 1]) + [last.(status := StatusAfter(outcomes[|outcomes| - 1]))]
            else Settled(front, outcomes) + [last]
  {
  }

  lemma SettledSnocOpen(front: seq<ImportRow>, last: ImportRow, outcomes: seq<RowOutcome>)
    requires |outcomes| == |ValidContents(front)|
    ensures !IsValid(last) ==>
      ValidContents(front + [last]) == ValidContents(front)
      && Settled(front + [last], outcomes) == Settled(front, outcomes) + [last]
    ensures IsValid(last) ==>
      ValidContents(front + [last]) == ValidContents(front) + [last.content.value]
      && forall o ::
        Settled(front + [last], outcomes + [o]) == Settled(front, outcomes) + [last.(status := StatusAfter(o))]
  {
  }

  lemma OutcomesSnoc(outcomes: seq<RowOutcome>, o: RowOutcome)
    ensures Tallied(outcomes + [o]) == Counted(Tallied(outcomes), o)
    ensures Affected(outcomes + [o]) == Affected(outcomes) + if o.Done? && o.sale != Skipped then {o.customer} else {}
  {
  }

  /** Settling moves each valid row into exactly one of the two counters. */
  lemma {:induction false} SettledCounts(rows: seq<ImportRow>, outcomes: seq<RowOutcome>, status: RowStatus)
    requires |outcomes| == |ValidContents(rows)| && ContentKept(rows)
    ensures CountStatus(Settled(rows, outcomes), status)
         == if status == Valid then 0 else CountStatus(rows, status) + Gained(outcomes, status)
    decreases |rows|, 1
  {
    if rows == [] {
    } else {
      var front, last := rows[..|rows| - 1], rows[|rows| - 1];
      assert rows == front + [last];
      SettledCountsOne(front, last, outcomes, status);
    }
  }

  lemma {:induction false} SettledCountsOne(front: seq<ImportRow>, last: ImportRow, outcomes: seq<RowOutcome>,
                                            status: RowStatus)
    requires |outcomes| == |ValidContents(front + [last])| && ContentKept(front + [last])
    ensures CountStatus(Settled(front + [last], outcomes), status)
         == if status == Valid then 0 else CountStatus(front + [last], status) + Gained(outcomes, status)
    decreases |front| + 1, 0
  {
    ContentSnoc(front, last);
    SettledSnoc(front, last, outcomes);
    CountStatusSnoc(front, last, status);
    if IsValid(last) {
      var before, o := outcomes[..|outcomes| - 1], outcomes[|outcomes| - 1];
      SettledCounts(front, before, status);
      CountStatusSnoc(Settled(front, before), last.(status := StatusAfter(o)), status);
    } else {
      SettledCounts(front, outcomes, status);
      CountStatusSnoc(Settled(front, outcomes), last, status);
    }
  }

  lemma {:induction false} SettledNotValid(rows: seq<ImportRow>, outcomes: seq<RowOutcome>, i: nat)
    requires |outcomes| == |ValidContents(rows)| && i < |rows|
    requires ContentKept(rows)
    ensures Settled(rows, outcomes)[i].status != Valid
  {
    var front, last := rows[..|rows| - 1], rows[|rows| - 1];
    if i == |front| {
    } else {
      SettledNotValid(front, if IsValid(last) then outcomes[..|outcomes| - 1] else outcomes, i);
    }
  }

  lemma CommitIsSound(b: ImportBatch, outcomes: seq<RowOutcome>)
    requires BatchSound(b) && b.status != CommittedBatch && |outcomes| == |ValidContents(b.rows)|
    ensures BatchSound(BatchAfter(b, outcomes))
  {
    SettledCounts(b.rows, outcomes, CommittedRow);
    SettledCounts(b.rows, outcomes, SkippedRow);
    SettledCounts(b.rows, outcomes, Invalid);
    SettledCounts(b.rows, outcomes, Valid);
    GainedIsTallied(outcomes);
    StatusesAddUp(b.rows);
    StatusesAddUp(Settled(b.rows, outcomes));
    forall i | 0 <= i < |b.rows| ensures Settled(b.rows, outcomes)[i].status != Valid {
      SettledNotValid(b.rows, outcomes, i);
    }
  }

  lemma StepKeepsInv(s: State, op: Op)
    requires Inv(s)
    ensures Inv(Step(s, op))
  {
    match op
    case Preview(id, contents, maxRows) => PreviewIsSound(contents);
    case Commit(id, recalculated) =>
      if Apply(s, op).Some? {
        CommitIsSound(s.batches[id], Committed(s, id).1);
      }
    case Cancel(id) =>
    case Others(_) =>
  }

  const NO_LEDGER := Ledger(map[], map[], map[], 0)

  /** Over every run: a batch is applied at most once, its counters are the numbers of its
      rows in each status, and the valid rows of a batch have distinct keys. */
  lemma {:induction false} RunKeepsInv(company: Id, ops: seq<Op>)
    ensures Inv(Run(State(company, NO_LEDGER, map[], []), ops))
  {
    if ops == [] {
    } else {
      RunKeepsInv(company, ops[..|ops| - 1]);
      StepKeepsInv(Run(State(company, NO_LEDGER, map[], []), ops[..|ops| - 1]), ops[|ops| - 1]);
    }
  }

  /** A committed or cancelled batch is never touched again; in particular a cancelled one
      is never applied. */
  lemma {:induction false} FinalBatchesStay(s: State, ops: seq<Op>, id: Id)
    requires Inv(s) && id in s.batches && s.batches[id].status in {CommittedBatch, CancelledBatch}
    ensures var end := Run(s, ops);
      && Inv(end) && id in end.batches && end.batches[id] == s.batches[id]
      && (s.batches[id].status == CancelledBatch ==> id !in end.log)
  {
    if ops == [] {
    } else {
      FinalBatchesStay(s, ops[..|ops| - 1], id);
      FinalBatchStays(Run(s, ops[..|ops| - 1]), ops[|ops| - 1], id);
      StepKeepsInv(Run(s, ops[..|ops| - 1]), ops[|ops| - 1]);
    }
  }

  lemma FinalBatchStays(s: State, op: Op, id: Id)
    requires id in s.batches && s.batches[id].status in {CommittedBatch, CancelledBatch}
    ensures id in Step(s, op).batches && Step(s, op).batches[id] == s.batches[id]
  {
  }

  lemma {:induction false} ValidContentsAreRows(rows: seq<ImportRow>, m: nat) returns (i: nat)
    requires m < |ValidContents(rows)|
    ensures i < |rows| && IsValid(rows[i]) && rows[i].content.value == ValidContents(rows)[m]
  {
    var front, last := rows[..|rows| - 1], rows[|rows| - 1];
    if m < |ValidContents(front)| {
      i := ValidContentsAreRows(front, m);
    } else {
      i := |rows| - 1;
    }
  }

  /** What the commit loop relies on. */
  lemma {:induction false} ValidContentsDistinct(rows: seq<ImportRow>)
    requires DistinctValid(rows)
    ensures DistinctKeys(ValidContents(rows))
  {
    if rows == [] {
    } else {
      var front, last := rows[..|rows| - 1], rows[|rows| - 1];
      ValidContentsDistinct(front);
      if IsValid(last) {
        forall m | 0 <= m < |ValidContents(front)| ensures ValidContents(front)[m].key != last.content.value.key {
          var i := ValidContentsAreRows(front, m);
          assert rows[i] == front[i];
        }
      }
    }
  }

  // ----- replay -----

  /** Previewing a file and committing the batch. */
  ghost function Uploaded(s: State, id: Id, file: seq<Option<NormalizedRow>>, maxRows: nat): State {
    Step(Step(s, Preview(id, file, maxRows)), Commit(id, true))
  }

  lemma UploadMeaning(s: State, id: Id, file: seq<Option<NormalizedRow>>, maxRows: nat)
    requires id !in s.batches && |file| <= maxRows
    ensures var (ledger, outcomes) := CommitRows(s.ledger, s.company, id, ValidContents(PreviewRows(file)));
            var batch := BatchAfter(PreviewedBatch(PreviewRows(file)), outcomes);
            Uploaded(s, id, file, maxRows) == State(s.company, ledger, s.batches[id := batch], s.log + [id])
  {
    var batch := PreviewedBatch(PreviewRows(file));
    var outcomes := CommitRows(s.ledger, s.company, id, ValidContents(batch.rows)).1;
    assert s.batches[id := batch][id := BatchAfter(batch, outcomes)] == s.batches[id := BatchAfter(batch, outcomes)];
  }

  /** Uploading a file a second time: the new batch skips every valid row, no customer is
      affected and the ledger stays as the first upload left it. */
  lemma ReimportChangesNothing(s: State, first: Id, second: Id, file: seq<Option<NormalizedRow>>, maxRows: nat)
    requires Sound(s.ledger) && first != second && first !in s.batches && second !in s.batches && |file| <= maxRows
    ensures var once := Uploaded(s, first, file, maxRows);
      var twice := Uploaded(once, second, file, maxRows);
      && twice.ledger == once.ledger
      && Affected(CommitRows(once.ledger, s.company, second, ValidContents(PreviewRows(file))).1) == {}
      && twice.batches[second].status == CommittedBatch
      && twice.batches[second].committedRows == 0
      && twice.batches[second].skippedRows == twice.batches[second].validRows
  {
    var rows := PreviewRows(file);
    var once := Uploaded(s, first, file, maxRows);
    UploadMeaning(s, first, file, maxRows);
    UploadMeaning(once, second, file, maxRows);
    PreviewIsSound(file);
    ValidContentsDistinct(rows);
    ReplayChangesNothing(s.ledger, s.company, first, second, ValidContents(rows));
    var again := CommitRows(once.ledger, s.company, second, ValidContents(rows)).1;
    NothingCommitted(again);
    CommitIsSound(PreviewedBatch(rows), again);
  }

  lemma {:induction false} NothingCommitted(outcomes: seq<RowOutcome>)
    requires forall i :: 0 <= i < |outcomes| ==> outcomes[i].Failed? || outcomes[i].sale == Skipped
    ensures Tallied(outcomes).createdSales == 0 && Tallied(outcomes).updatedSales == 0
  {
    if outcomes == [] {
    } else {
      NothingCommitted(outcomes[..|outcomes| - 1]);
    }
  }
}
