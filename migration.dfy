/** The migration engine: resumes or starts a checkpoint, sets up the target
    collection, streams the source batches through the transformer into
    Milvus, and records progress, failure or completion in the checkpoint
    store. The search service and Milvus are abstract collaborators: a
    document source given as functions, and a sink that logs every call and
    raises on the calls its fault plan names. */
module Migration {
  import opened Wrappers
  import opened PyDict
  import opened Values
  import opened IndexMappings
  import opened SchemaModel
  import opened Checkpoints
  import opened DataTransformation
  import Config

  /** The calls the migrator makes on the Milvus client. */
  datatype SinkCall =
    | CreateCollection(collection: string, schema: CollectionSchema, dropExisting: bool)
    | CreateIndex(collection: string, field: string, config: MilvusIndexConfig)
    | Insert(collection: string, rows: seq<Row>)
    | LoadCollection(collection: string)

  /** What call number `n` raises under the fault plan, if anything. */
  function Fault(faults: map<nat, string>, n: nat): Option<string> {
    if n in faults then Some(faults[n]) else None
  }

  /** The Milvus client: every call is appended to `calls`; the call with
      number `n` (counting from zero over the client's life) raises
      `faults[n]` when the plan has an entry for it. */
  class MilvusSink {
    var calls: seq<SinkCall>
    const faults: map<nat, string>

    constructor (faults: map<nat, string>)
      ensures calls == [] && this.faults == faults
    {
      calls := [];
      this.faults := faults;
    }

    /** Makes one call; the result is the exception it raised, if any. */
    method Call(c: SinkCall) returns (raised: Option<string>)
      modifies this
      ensures calls == old(calls) + [c]
      ensures raised == Fault(faults, |old(calls)|)
    {
      raised := Fault(faults, |calls|);
      calls := calls + [c];
    }
  }

  /** The calls `cs[..n]` made one after the other from the log `calls`,
      stopping at the first that raises. */
  function CallsUpTo(calls: seq<SinkCall>, faults: map<nat, string>, cs: seq<SinkCall>, n: nat): (seq<SinkCall>, Option<string>)
    requires n <= |cs|
  {
    if n == 0 then (calls, None)
    else
      var (log, raised) := CallsUpTo(calls, faults, cs, n - 1);
      if raised.Some? then (log, raised) else (log + [cs[n - 1]], Fault(faults, |log|))
  }

  /** The log grows by a prefix of the planned calls; the whole plan is made
      exactly when nothing raised, and a raise comes from the last call made. */
  lemma {:induction false} CallsPrefix(calls: seq<SinkCall>, faults: map<nat, string>, cs: seq<SinkCall>, n: nat)
    requires n <= |cs|
    ensures var (log, raised) := CallsUpTo(calls, faults, cs, n);
      && (exists k :: 0 <= k <= n && log == calls + cs[..k])
      && (raised.None? ==> log == calls + cs[..n])
      && (raised.Some? ==> |log| > |calls| && raised == Fault(faults, |log| - 1))
  {
    if n == 0 {
      assert calls == calls + cs[..0];
    } else {
      CallsPrefix(calls, faults, cs, n - 1);
      var (log, raised) := CallsUpTo(calls, faults, cs, n - 1);
      if raised.None? {
        assert log + [cs[n - 1]] == calls + cs[..n];
      }
    }
  }

  /** `_setup_collection`: create the collection, then one index per index
      conversion, in order. */
  function SetupCalls(collection: string, conversion: SchemaConversionResult, dropExisting: bool): (cs: seq<SinkCall>)
    ensures |cs| == 1 + |conversion.indexConversions|
    ensures cs[0] == CreateCollection(collection, conversion.collectionSchema, dropExisting)
    ensures forall i :: 0 <= i < |conversion.indexConversions| ==>
      cs[i + 1] == CreateIndex(collection, conversion.indexConversions[i].targetField, conversion.indexConversions[i].milvusConfig)
  {
    [CreateCollection(collection, conversion.collectionSchema, dropExisting)]
      + seq(|conversion.indexConversions|, i requires 0 <= i < |conversion.indexConversions| =>
          CreateIndex(collection, conversion.indexConversions[i].targetField, conversion.indexConversions[i].milvusConfig))
  }

  /** What the generator `extract_documents` yields: the batches it produces,
      and then either the end of the stream or the exception it raises. */
  datatype Extraction = Extraction(batches: seq<seq<Document>>, raised: Option<string>)

  /** The search service: the document count of an index, and the batches
      from `skip` on at a given batch size. */
  datatype DocumentSource = DocumentSource(
    count: string -> Result<int, string>,
    extract: (string, int, int) -> Extraction)

  /** Everything a run reads that does not change during it. */
  datatype Run = Run(
    indexName: string,
    collection: string,
    batchSize: int,
    dryRun: bool,
    setup: seq<SinkCall>,
    transform: seq<Document> -> Result<seq<Row>, string>,
    keyField: Option<string>,
    py: Builtins,
    faults: map<nat, string>,
    callback: bool,
    now: real)

  /** The effects of a run so far: the checkpoint, the sink's log, the
      records saved by this run, the progress reports of this run, and the
      exception in flight. */
  datatype Progress = Progress(
    record: CheckpointRecord,
    calls: seq<SinkCall>,
    saves: seq<CheckpointRecord>,
    reports: seq<(int, int)>,
    raised: Option<string>)

  /** `last_key`: `str` of the key field of the batch's last raw document
      (`""` when that document lacks it), or `""` without a key field or
      with an empty batch. */
  function LastKey(py: Builtins, keyField: Option<string>, batch: seq<Document>): (k: string)
    ensures keyField.None? || batch == [] ==> k == ""
  {
    if keyField.Some? && keyField.value != "" && batch != [] then
      Str(py, Get(batch[|batch| - 1], keyField.value).GetOr(VStr("")))
    else ""
  }

  /** `transform_batch` of a transformer with field map `m`, made total for
      a run: a map with an entry lacking a target field never arises. */
  function BatchRows(coerce: Coercer, m: Dict<string, FieldConversion>, batch: seq<Document>): Result<seq<Row>, string> {
    if AllMapped(m) then BatchUpTo(coerce, m, batch, |batch|) else Ok([])
  }

  /** The rows a batch transforms into. */
  function RowsOf(run: Run, batch: seq<Document>): Result<seq<Row>, string> {
    run.transform(batch)
  }

  /** One iteration of the batch loop, given what the batch transforms into. */
  function BatchStep(run: Run, p: Progress, batch: seq<Document>, transformed: Result<seq<Row>, string>): Progress {
    if p.raised.Some? then p
    else
      match transformed
      case Err(e) => p.(raised := Some(e))
      case Ok(rows) =>
        if rows == [] then p
        else
          var calls := if run.dryRun then p.calls else p.calls + [Insert(run.collection, rows)];
          var raised := if run.dryRun then None else Fault(run.faults, |p.calls|);
          if raised.Some? then p.(calls := calls, raised := raised)
          else
            var r := Advanced(p.record, |rows|, LastKey(run.py, run.keyField, batch), run.now);
            var reports := if run.callback then p.reports + [(r.migratedDocuments, r.totalDocuments)] else p.reports;
            Progress(r, calls, p.saves + [r], reports, None)
  }

  /** The loop over the first `n` batches; an exception ends it. */
  function Batches(run: Run, p: Progress, batches: seq<seq<Document>>, n: nat): Progress
    requires n <= |batches|
  {
    if n == 0 then p
    else BatchStep(run, Batches(run, p, batches, n - 1), batches[n - 1], RowsOf(run, batches[n - 1]))
  }

  /** The whole loop: every batch, then the generator's own exception. */
  function Drained(run: Run, p: Progress, x: Extraction): Progress
  {
    var q := Batches(run, p, x.batches, |x.batches|);
    if q.raised.None? && x.raised.Some? then q.(raised := x.raised) else q
  }

  /** The checkpoint after the loop: failed with the exception's message,
      or completed. */
  function Concluded(run: Run, q: Progress): CheckpointRecord {
    if q.raised.Some? then MarkedFailed(q.record, q.raised.value, run.now) else Marked(q.record, Completed, run.now)
  }

  /** After the loop: mark failed and save on an exception; otherwise mark
      completed, save, and load the collection unless this is a dry run. */
  function Finished(run: Run, q: Progress): Progress {
    var r := Concluded(run, q);
    var saved := q.(record := r, saves := q.saves + [r]);
    if q.raised.Some? || run.dryRun then saved
    else saved.(calls := q.calls + [LoadCollection(run.collection)], raised := Fault(run.faults, |q.calls|))
  }

  /** The checkpoint stored for the index, when it is in progress. */
  predicate Resumes(run: Run, files: Files) {
    var loaded := Loaded(files, run.indexName, run.now);
    loaded.Some? && loaded.value.status == InProgress
  }

  /** The checkpoint a run starts from: the stored one when it is in
      progress, otherwise a fresh one over the source's document count. */
  function Start(run: Run, files: Files, source: DocumentSource): Result<CheckpointRecord, string> {
    if Resumes(run, files) then Ok(Loaded(files, run.indexName, run.now).value)
    else
      match source.count(run.indexName)
      case Err(e) => Err(e)
      case Ok(total) => Ok(Stamped(NewRecord(run.indexName, run.collection, total), run.now))
  }

  /** The number of documents the extraction skips. */
  function Skip(run: Run, files: Files): int {
    if Resumes(run, files) then Loaded(files, run.indexName, run.now).value.migratedDocuments else 0
  }

  /** The progress once the checkpoint is marked in progress and saved and
      the collection is set up; the setup's exception, if any, is in flight. */
  function SetUp(run: Run, r0: CheckpointRecord, calls: seq<SinkCall>): Progress {
    var r1 := Marked(r0, InProgress, run.now);
    var (log, raised) := CallsUpTo(calls, run.faults, run.setup, |run.setup|);
    Progress(r1, log, [r1], [], raised)
  }

  /** `migrate`, from the store's files and the sink's log before the run. */
  function Migration(run: Run, files: Files, calls: seq<SinkCall>, source: DocumentSource): Progress
  {
    match Start(run, files, source)
    case Err(e) => Progress(NewRecord(run.indexName, run.collection, 0), calls, [], [], Some(e))
    case Ok(r0) =>
      var p := SetUp(run, r0, calls);
      if p.raised.Some? then p
      else Finished(run, Drained(run, p, source.extract(run.indexName, run.batchSize, Skip(run, files))))
  }

  /** The store after saving each record in turn. */
  function SaveAll(files: Files, rs: seq<CheckpointRecord>): Files {
    if rs == [] then files else Saved(SaveAll(files, rs[..|rs| - 1]), rs[|rs| - 1])
  }

  // ---------------------------------------------------------------------
  // Properties of a run
  // ---------------------------------------------------------------------

  /** A stored checkpoint is resumed, with its migrated count as the skip,
      only when it is in progress; a completed or failed one is replaced by a
      fresh pending checkpoint over the current document count. */
  lemma StartRule(run: Run, files: Files, source: DocumentSource)
    ensures Skip(run, files) != 0 ==> Resumes(run, files)
    ensures Resumes(run, files) ==> Start(run, files, source) == Ok(Loaded(files, run.indexName, run.now).value)
    ensures !Resumes(run, files) ==>
      (Start(run, files, source).Ok? <==> source.count(run.indexName).Ok?)
      && (Start(run, files, source).Ok? ==>
            var r := Start(run, files, source).value;
            && r.status == Pending && r.migratedDocuments == 0 && r.batchNumber == 0
            && r.totalDocuments == source.count(run.indexName).value
            && r.indexName == run.indexName && r.collectionName == run.collection)
  {
  }

  /** When the count cannot be read nothing is saved and Milvus is not
      touched; otherwise the first thing saved is the starting checkpoint
      marked in progress, before any call to Milvus can fail. */
  lemma FirstSave(run: Run, files: Files, calls: seq<SinkCall>, source: DocumentSource)
    ensures var p := Migration(run, files, calls, source);
      && (Start(run, files, source).Err? ==>
            p.saves == [] && p.calls == calls && p.raised == Some(Start(run, files, source).error))
      && (Start(run, files, source).Ok? ==>
            |p.saves| >= 1 && p.saves[0] == Marked(Start(run, files, source).value, InProgress, run.now)
            && p.saves[0].status == InProgress)
  {
    match Start(run, files, source)
    case Err(e) =>
    case Ok(r0) =>
      var p := SetUp(run, r0, calls);
      if p.raised.None? {
        var x := source.extract(run.indexName, run.batchSize, Skip(run, files));
        BatchesGrow(run, p, x.batches, |x.batches|);
      }
  }

  /** A setup failure leaves the checkpoint saved in progress and nothing
      else saved: it is not marked failed. */
  lemma SetupFailureLeavesInProgress(run: Run, files: Files, calls: seq<SinkCall>, source: DocumentSource)
    requires Start(run, files, source).Ok?
    requires CallsUpTo(calls, run.faults, run.setup, |run.setup|).1.Some?
    ensures var p := Migration(run, files, calls, source);
      && p.raised == CallsUpTo(calls, run.faults, run.setup, |run.setup|).1
      && |p.saves| == 1 && p.saves[0].status == InProgress
      && SaveAll(files, p.saves) == Saved(files, p.saves[0])
  {
    assert [Migration(run, files, calls, source).saves[0]][..0] == [];
  }

  /** A batch that transforms into no rows changes nothing: no insert, no
      checkpoint update, no save and no progress report. */
  lemma EmptyBatchChangesNothing(run: Run, p: Progress, batch: seq<Document>)
    requires RowsOf(run, batch) == Ok([])
    ensures BatchStep(run, p, batch, RowsOf(run, batch)) == p
  {
  }

  /** A batch with rows is inserted (unless this is a dry run); when the
      insert succeeds the checkpoint advances by the number of rows, with the
      last raw document's key, and is saved, and the callback is told. */
  lemma BatchAdvances(run: Run, p: Progress, batch: seq<Document>)
    requires p.raised.None?
    requires RowsOf(run, batch).Ok? && RowsOf(run, batch).value != []
    requires run.dryRun || Fault(run.faults, |p.calls|).None?
    ensures var q := BatchStep(run, p, batch, RowsOf(run, batch)); var rows := RowsOf(run, batch).value;
      && q.raised.None?
      && q.calls == (if run.dryRun then p.calls else p.calls + [Insert(run.collection, rows)])
      && q.record == Advanced(p.record, |rows|, LastKey(run.py, run.keyField, batch), run.now)
      && q.saves == p.saves + [q.record]
      && q.reports == (if run.callback then p.reports + [(q.record.migratedDocuments, q.record.totalDocuments)] else p.reports)
  {
  }

  /** The rows the first `n` batches contribute, when none of them fails. */
  function RowTotal(run: Run, batches: seq<seq<Document>>, n: nat): nat
    requires n <= |batches|
  {
    if n == 0 then 0
    else RowTotal(run, batches, n - 1) + (if RowsOf(run, batches[n - 1]).Ok? then |RowsOf(run, batches[n - 1]).value| else 0)
  }

  /** The number of the first `n` batches that contribute rows. */
  function NonEmpty(run: Run, batches: seq<seq<Document>>, n: nat): nat
    requires n <= |batches|
  {
    if n == 0 then 0
    else NonEmpty(run, batches, n - 1) + (if RowsOf(run, batches[n - 1]).Ok? && RowsOf(run, batches[n - 1]).value != [] then 1 else 0)
  }

  /** Across the loop the log and the saves only grow, and the checkpoint
      keeps its identity, total and status. */
  lemma {:induction false} BatchesGrow(run: Run, p: Progress, batches: seq<seq<Document>>, n: nat)
    requires n <= |batches|
    ensures var q := Batches(run, p, batches, n);
      && |q.saves| >= |p.saves| && q.saves[..|p.saves|] == p.saves
      && |q.calls| >= |p.calls| && q.calls[..|p.calls|] == p.calls
      && q.record.indexName == p.record.indexName && q.record.totalDocuments == p.record.totalDocuments
      && q.record.status == p.record.status
  {
    if n > 0 {
      BatchesGrow(run, p, batches, n - 1);
      var q0 := Batches(run, p, batches, n - 1);
      var q := Batches(run, p, batches, n);
      StepKeeps(run, q0, batches[n - 1], RowsOf(run, batches[n - 1]));
      assert q.saves[..|p.saves|] == q0.saves[..|q0.saves|][..|p.saves|];
      assert q.calls[..|p.calls|] == q0.calls[..|q0.calls|][..|p.calls|];
    }
  }

  /** One iteration either leaves the record and the saves alone or saves
      the advanced record, which keeps the index, the total and the status;
      the sink's log only grows. */
  lemma StepKeeps(run: Run, p: Progress, batch: seq<Document>, t: Result<seq<Row>, string>)
    ensures var q := BatchStep(run, p, batch, t);
      && (|| (q.record == p.record && q.saves == p.saves)
          || (q.saves == p.saves + [q.record]
              && q.record.indexName == p.record.indexName && q.record.totalDocuments == p.record.totalDocuments
              && q.record.status == p.record.status))
      && |q.calls| >= |p.calls| && q.calls[..|p.calls|] == p.calls
  {
  }

  /** Every record the loop saves is the checkpoint it started from, advanced:
      same index, same status; and the last one saved is the current one. */
  lemma {:induction false} LoopSaves(run: Run, p: Progress, batches: seq<seq<Document>>, n: nat)
    requires n <= |batches|
    requires p.saves != [] && p.saves[|p.saves| - 1] == p.record
    ensures var q := Batches(run, p, batches, n);
      && |q.saves| >= |p.saves|
      && q.saves[|q.saves| - 1] == q.record
      && q.record.status == p.record.status && q.record.indexName == p.record.indexName
      && (forall j :: |p.saves| <= j < |q.saves| ==>
            q.saves[j].status == p.record.status && q.saves[j].indexName == p.record.indexName)
  {
    if n > 0 {
      LoopSaves(run, p, batches, n - 1);
      var q0 := Batches(run, p, batches, n - 1);
      StepKeeps(run, q0, batches[n - 1], RowsOf(run, batches[n - 1]));
    }
  }

  /** A loop that ends without an exception has advanced the checkpoint by
      every row of every batch and once per batch that had rows, saving and
      reporting once per such batch. */
  lemma {:induction false} BatchesTotals(run: Run, p: Progress, batches: seq<seq<Document>>, n: nat)
    requires n <= |batches|
    requires Batches(run, p, batches, n).raised.None?
    ensures var q := Batches(run, p, batches, n);
      && q.record.migratedDocuments == p.record.migratedDocuments + RowTotal(run, batches, n)
      && q.record.batchNumber == p.record.batchNumber + NonEmpty(run, batches, n)
      && |q.saves| == |p.saves| + NonEmpty(run, batches, n)
      && |q.reports| == |p.reports| + (if run.callback then NonEmpty(run, batches, n) else 0)
  {
    if n > 0 {
      BatchesTotals(run, p, batches, n - 1);
    }
  }

  /** A dry run never inserts: the loop leaves the sink's log untouched. */
  lemma {:induction false} DryRunInsertsNothing(run: Run, p: Progress, batches: seq<seq<Document>>, n: nat)
    requires n <= |batches|
    requires run.dryRun
    ensures Batches(run, p, batches, n).calls == p.calls
  {
    if n > 0 {
      DryRunInsertsNothing(run, p, batches, n - 1);
    }
  }

  /** Every call the loop makes is an insert of a non-empty list of rows
      into the target collection. */
  lemma {:induction false} InsertsAreNonEmpty(run: Run, p: Progress, batches: seq<seq<Document>>, n: nat)
    requires n <= |batches|
    ensures var q := Batches(run, p, batches, n);
      && |q.calls| >= |p.calls|
      && forall j :: |p.calls| <= j < |q.calls| ==>
           q.calls[j].Insert? && q.calls[j].collection == run.collection && q.calls[j].rows != []
  {
    if n > 0 {
      InsertsAreNonEmpty(run, p, batches, n - 1);
    }
  }

  /** Once an exception is in flight the remaining batches are not read. */
  lemma {:induction false} BatchesStop(run: Run, p: Progress, batches: seq<seq<Document>>, k: nat, n: nat)
    requires k <= n <= |batches|
    requires Batches(run, p, batches, k).raised.Some?
    ensures Batches(run, p, batches, n) == Batches(run, p, batches, k)
    decreases n
  {
    if n > k {
      BatchesStop(run, p, batches, k, n - 1);
    }
  }

  /** How a run that got past setup ends: an exception in the loop or the
      generator marks the checkpoint failed with its message and saves it
      last; otherwise the checkpoint is saved completed, and the collection is
      loaded unless this is a dry run, which may still raise afterwards. */
  lemma Outcome(run: Run, q: Progress)
    ensures var f := Finished(run, q);
      && |f.saves| == |q.saves| + 1 && f.saves[|q.saves|] == f.record
      && (q.raised.Some? ==>
            f.raised == q.raised && f.record.status == Failed && f.record.errorMessage == q.raised.value
            && f.calls == q.calls)
      && (q.raised.None? ==>
            f.record.status == Completed && f.record.errorMessage == q.record.errorMessage
            && f.record.migratedDocuments == q.record.migratedDocuments
            && f.calls == (if run.dryRun then q.calls else q.calls + [LoadCollection(run.collection)])
            && (run.dryRun ==> f.raised.None?))
  {
  }

  /** A run that ends without an exception has saved its checkpoint
      completed, advanced by every row of every batch from the skip on and
      once per batch with rows; a dry run has made no call beyond the setup,
      and a real run has loaded the collection last. */
  lemma CompletedRun(run: Run, files: Files, calls: seq<SinkCall>, source: DocumentSource)
    requires Start(run, files, source).Ok?
    requires Migration(run, files, calls, source).raised.None?
    ensures var p := Migration(run, files, calls, source);
      var x := source.extract(run.indexName, run.batchSize, Skip(run, files));
      var r0 := Start(run, files, source).value;
      && p.record.status == Completed
      && p.record.migratedDocuments == r0.migratedDocuments + RowTotal(run, x.batches, |x.batches|)
      && p.record.batchNumber == r0.batchNumber + NonEmpty(run, x.batches, |x.batches|)
      && p.record.totalDocuments == r0.totalDocuments
      && p.saves[|p.saves| - 1] == p.record
      && (run.dryRun ==> p.calls == calls + run.setup)
      && (!run.dryRun ==> p.calls[|p.calls| - 1] == LoadCollection(run.collection))
  {
    var r0 := Start(run, files, source).value;
    var s := SetUp(run, r0, calls);
    var x := source.extract(run.indexName, run.batchSize, Skip(run, files));
    assert s.raised.None?;
    BatchesTotals(run, s, x.batches, |x.batches|);
    BatchesGrow(run, s, x.batches, |x.batches|);
    CallsPrefix(calls, run.faults, run.setup, |run.setup|);
    if run.dryRun {
      DryRunInsertsNothing(run, s, x.batches, |x.batches|);
    }
  }

  /** An exception in the loop or the generator leaves the checkpoint saved
      as failed with the exception's message, and the run raises it. */
  lemma FailedRun(run: Run, files: Files, calls: seq<SinkCall>, source: DocumentSource)
    requires Start(run, files, source).Ok?
    requires SetUp(run, Start(run, files, source).value, calls).raised.None?
    requires Drained(run, SetUp(run, Start(run, files, source).value, calls),
                     source.extract(run.indexName, run.batchSize, Skip(run, files))).raised.Some?
    ensures var p := Migration(run, files, calls, source);
      && p.raised.Some? && p.record.status == Failed && p.record.errorMessage == p.raised.value
      && p.saves[|p.saves| - 1] == p.record
  {
  }

  /** After a setup that saved only its own checkpoint, every record the
      rest of the run saves belongs to the same index, and the last one
      saved is the final checkpoint. */
  lemma FinishedSaves(run: Run, s: Progress, x: Extraction)
    requires s.saves == [s.record]
    ensures var p := Finished(run, Drained(run, s, x));
      && p.saves != [] && p.saves[|p.saves| - 1] == p.record
      && forall j :: 0 <= j < |p.saves| ==> p.saves[j].indexName == s.record.indexName
  {
    LoopSaves(run, s, x.batches, |x.batches|);
    BatchesGrow(run, s, x.batches, |x.batches|);
    var q := Drained(run, s, x);
    var p := Finished(run, q);
    forall j | 0 <= j < |p.saves|
      ensures p.saves[j].indexName == s.record.indexName
    {
      if j < |q.saves| {
        assert p.saves[j] == q.saves[j];
        if j == 0 {
          assert q.saves[..1][0] == q.saves[0];
        }
      }
    }
  }

  /** Whatever happens after the checkpoint was first saved, the store ends
      up holding the run's final checkpoint, under the file of its index. */
  lemma FinalStore(run: Run, files: Files, calls: seq<SinkCall>, source: DocumentSource)
    requires Start(run, files, source).Ok?
    ensures var p := Migration(run, files, calls, source);
      SaveAll(files, p.saves) == Saved(files, p.record)
  {
    var s := SetUp(run, Start(run, files, source).value, calls);
    if s.raised.None? {
      FinishedSaves(run, s, source.extract(run.indexName, run.batchSize, Skip(run, files)));
    }
    SaveAllLast(files, Migration(run, files, calls, source).saves);
  }

  /** All the records a run saves share one index name, so the store ends
      up holding the last of them in a single file. */
  lemma {:induction false} SaveAllLast(files: Files, rs: seq<CheckpointRecord>)
    requires rs != []
    requires forall j :: 0 <= j < |rs| ==> FileName(rs[j].indexName) == FileName(rs[0].indexName)
    ensures SaveAll(files, rs) == Saved(files, rs[|rs| - 1])
  {
    if |rs| > 1 {
      SaveAllLast(files, rs[..|rs| - 1]);
      SaveOverwrites(files, rs[|rs| - 2], rs[|rs| - 1]);
    }
  }

  /** The migrator's view of its configuration. */
  datatype Settings = Settings(indexName: string, options: Config.MigrationOptions)

  /** `DataMigrator`: the transformer, the checkpoint store and the Milvus
      client are fixed; `reports` logs the calls of the progress callback. */
  class DataMigrator {
    const settings: Settings
    const conversion: SchemaConversionResult
    const transformer: DataTransformer
    const store: CheckpointManager
    const sink: MilvusSink
    const py: Builtins
    var callback: bool
    var reports: seq<(int, int)>

    predicate Valid() {
      WellFormedMap(transformer.fieldMap)
    }

    /** `DataMigrator(config, conversion_result, azure_client, milvus_client)`
        over a checkpoint directory whose files are `existing`. */
    constructor (config: Config.MigrationConfig, conversion: SchemaConversionResult, sink: MilvusSink,
                 existing: Files, py: Builtins)
      ensures settings == Settings(config.azureSearch.indexName, config.options)
      ensures this.conversion == conversion && this.sink == sink && this.py == py
      ensures fresh(transformer) && fresh(store)
      ensures transformer.fieldMap == FieldMapOf(conversion.fieldConversions)
      ensures transformer.keyField == KeyFieldOf(conversion.fieldConversions)
      ensures transformer.coerce == Coercion(py)
      ensures store.dir == config.options.checkpointDir && store.files == existing && store.saves == []
      ensures !callback && reports == []
      ensures Valid()
    {
      settings := Settings(config.azureSearch.indexName, config.options);
      this.conversion := conversion;
      this.sink := sink;
      this.py := py;
      transformer := new DataTransformer(conversion.fieldConversions, py);
      store := new CheckpointManager(config.options.checkpointDir, existing);
      callback := false;
      reports := [];
    }

    method SetProgressCallback()
      modifies this
      ensures callback && reports == old(reports)
    {
      callback := true;
    }

    /** The constants of a run at clock reading `now`. */
    function RunAt(now: real): Run
      reads this
    {
      var collection := conversion.milvusCollectionName;
      Run(settings.indexName, collection, settings.options.batchSize, settings.options.dryRun,
        SetupCalls(collection, conversion, settings.options.dropExistingCollection),
        batch => BatchRows(transformer.coerce, transformer.fieldMap, batch),
        transformer.keyField, py, sink.faults, callback, now)
    }

    /** `run` holds this migrator's constants for a run at clock reading `now`. */
    ghost predicate Drives(run: Run, now: real)
      reads this
    {
      && run.collection == conversion.milvusCollectionName && run.dryRun == settings.options.dryRun
      && run.keyField == transformer.keyField && run.py == py && run.faults == sink.faults
      && run.callback == callback && run.now == now
    }

    /** `run` transforms batches as this migrator's transformer does. */
    ghost predicate Transforms(run: Run) {
      forall batch {:trigger BatchRows(transformer.coerce, transformer.fieldMap, batch)} ::
        run.transform(batch) == BatchRows(transformer.coerce, transformer.fieldMap, batch)
    }

    /** `transform_batch` of the transformer, as the run sees it. */
    method Transform(batch: seq<Document>, ghost run: Run) returns (t: Result<seq<Row>, string>)
      requires Valid() && Transforms(run)
      ensures t == RowsOf(run, batch)
    {
      t := transformer.TransformBatch(batch);
      assert t == BatchRows(transformer.coerce, transformer.fieldMap, batch);
    }

    /** `_setup_collection`. */
    method SetupCollection(collection: string) returns (raised: Option<string>)
      modifies sink
      ensures (sink.calls, raised)
        == CallsUpTo(old(sink.calls), sink.faults, SetupCalls(collection, conversion, settings.options.dropExistingCollection),
                     1 + |conversion.indexConversions|)
    {
      ghost var cs := SetupCalls(collection, conversion, settings.options.dropExistingCollection);
      ghost var calls0 := sink.calls;
      raised := sink.Call(CreateCollection(collection, conversion.collectionSchema, settings.options.dropExistingCollection));
      var i := 0;
      while i < |conversion.indexConversions| && raised.None?
        invariant 0 <= i <= |conversion.indexConversions|
        invariant (sink.calls, raised) == CallsUpTo(calls0, sink.faults, cs, i + 1)
      {
        var ic := conversion.indexConversions[i];
        raised := sink.Call(CreateIndex(collection, ic.targetField, ic.milvusConfig));
        i := i + 1;
      }
      if raised.Some? {
        StopsAfter(calls0, sink.faults, cs, i + 1, |cs|);
      }
    }

    /** Loads or creates the checkpoint, marks it in progress and saves it. */
    method Begin(source: DocumentSource, now: real) returns (cp: MigrationCheckpoint?, skip: int, raised: Option<string>)
      modifies store
      ensures var start := Start(RunAt(now), old(store.files), source);
        && (raised.Some? <==> start.Err?)
        && (start.Err? ==> raised == Some(start.error) && store.files == old(store.files) && store.saves == old(store.saves))
        && (start.Ok? ==>
              cp != null && fresh(cp) && cp.Snapshot() == Marked(start.value, InProgress, now)
              && skip == Skip(RunAt(now), old(store.files))
              && store.saves == old(store.saves) + [cp.Snapshot()]
              && store.files == Saved(old(store.files), cp.Snapshot()))
    {
      var collection := conversion.milvusCollectionName;
      cp := store.Load(settings.indexName, now);
      skip := 0;
      if cp != null && cp.status == InProgress {
        skip := cp.migratedDocuments;
      } else {
        var total := source.count(settings.indexName);
        if total.Err? {
          return null, 0, Some(total.error);
        }
        cp := new MigrationCheckpoint(NewRecord(settings.indexName, collection, total.value), now);
      }
      raised := None;
      cp.MarkInProgress(now);
      var _ := store.Save(cp);
    }

    /** The checkpoint, the sink's log, the store and the progress reports
        are those of `q`, over the store's saves and files and the reports
        from before the run. */
    ghost predicate Tracks(cp: MigrationCheckpoint, q: Progress, saves0: seq<CheckpointRecord>, files0: Files,
                           reports0: seq<(int, int)>)
      reads this, cp, store, sink
    {
      && cp.Snapshot() == q.record && sink.calls == q.calls
      && store.saves == saves0 + q.saves && store.files == SaveAll(files0, q.saves)
      && reports == reports0 + q.reports
    }

    /** The batch loop: transform, insert unless a dry run, advance, save,
        report; the first exception ends it. The ghost parameters give the
        run's constants, the progress so far and the store and reports from
        before the run. */
    method RunBatches(cp: MigrationCheckpoint, batches: seq<seq<Document>>, now: real, ghost run: Run,
                      ghost p: Progress, ghost saves0: seq<CheckpointRecord>, ghost files0: Files,
                      ghost reports0: seq<(int, int)>)
        returns (raised: Option<string>)
      requires Valid() && Drives(run, now) && Transforms(run)
      requires p.raised.None? && Tracks(cp, p, saves0, files0, reports0)
      modifies cp, store, sink, this
      ensures var q := Batches(run, p, batches, |batches|);
        raised == q.raised && Tracks(cp, q, saves0, files0, reports0) && callback == old(callback)
    {
      raised := None;
      for i := 0 to |batches|
        invariant Drives(run, now) && raised.None?
        invariant Batches(run, p, batches, i).raised.None?
        invariant Tracks(cp, Batches(run, p, batches, i), saves0, files0, reports0)
      {
        var t := Transform(batches[i], run);
        raised := ProcessBatch(cp, batches[i], t, now, run, Batches(run, p, batches, i), saves0, files0, reports0);
        if raised.Some? {
          BatchesStop(run, p, batches, i + 1, |batches|);
          return;
        }
      }
    }

    /** One iteration of the batch loop, given the batch's transformed rows. */
    method ProcessBatch(cp: MigrationCheckpoint, batch: seq<Document>, t: Result<seq<Row>, string>, now: real,
                        ghost run: Run, ghost q0: Progress, ghost saves0: seq<CheckpointRecord>, ghost files0: Files,
                        ghost reports0: seq<(int, int)>)
        returns (raised: Option<string>)
      requires Drives(run, now)
      requires q0.raised.None? && Tracks(cp, q0, saves0, files0, reports0)
      modifies cp, store, sink, this
      ensures var q := BatchStep(run, q0, batch, t);
        raised == q.raised && Tracks(cp, q, saves0, files0, reports0) && callback == old(callback)
    {
      if t.Err? {
        return Some(t.error);
      }
      var rows := t.value;
      if rows == [] {
        return None;
      }
      if !settings.options.dryRun {
        raised := sink.Call(Insert(conversion.milvusCollectionName, rows));
        if raised.Some? {
          return;
        }
      }
      ghost var q1 := q0.(calls := sink.calls);
      var lastKey := LastKey(py, transformer.keyField, batch);
      Record(cp, |rows|, lastKey, now, run, q1, saves0, files0, reports0);
      raised := None;
    }

    /** The bookkeeping of a batch whose rows were handed over: advance the
        checkpoint, save it, and report progress. */
    method Record(cp: MigrationCheckpoint, count: int, lastKey: string, now: real,
                  ghost run: Run, ghost q0: Progress, ghost saves0: seq<CheckpointRecord>, ghost files0: Files,
                  ghost reports0: seq<(int, int)>)
      requires run.callback == callback
      requires Tracks(cp, q0, saves0, files0, reports0)
      modifies cp, store, this
      ensures var r := Advanced(q0.record, count, lastKey, now);
        var reports := if run.callback then q0.reports + [(r.migratedDocuments, r.totalDocuments)] else q0.reports;
        && Tracks(cp, Progress(r, q0.calls, q0.saves + [r], reports, None), saves0, files0, reports0)
        && callback == old(callback)
    {
      ghost var r := Advanced(q0.record, count, lastKey, now);
      cp.Advance(count, lastKey, now);
      var _ := store.Save(cp);
      assert store.files == SaveAll(files0, q0.saves + [r]) by {
        assert (q0.saves + [r])[..|q0.saves|] == q0.saves;
      }
      var report := (cp.migratedDocuments, cp.totalDocuments);
      assert report == (r.migratedDocuments, r.totalDocuments);
      if callback {
        ghost var before := reports;
        reports := reports + [report];
        assert reports == reports0 + (q0.reports + [report]) by {
          assert before == reports0 + q0.reports;
        }
      }
    }

    /** Marks the checkpoint failed or completed and saves it. */
    method Conclude(cp: MigrationCheckpoint, raised: Option<string>, now: real, ghost run: Run, ghost q: Progress,
                    ghost saves0: seq<CheckpointRecord>, ghost files0: Files)
      requires run.now == now
      requires q.raised == raised && q.record == cp.Snapshot()
      requires store.saves == saves0 + q.saves && store.files == SaveAll(files0, q.saves)
      modifies cp, store
      ensures var r := Concluded(run, q);
        && cp.Snapshot() == r && store.saves == saves0 + (q.saves + [r]) && store.files == SaveAll(files0, q.saves + [r])
    {
      if raised.Some? {
        cp.MarkFailed(raised.value, now);
      } else {
        cp.MarkCompleted(now);
      }
      var _ := store.Save(cp);
      assert (q.saves + [cp.Snapshot()])[..|q.saves|] == q.saves;
    }

    /** After the loop: mark failed and save, re-raising; or mark completed,
        save, and load the collection unless this is a dry run. */
    method Finish(cp: MigrationCheckpoint, raised: Option<string>, now: real, ghost run: Run, ghost q: Progress,
                  ghost saves0: seq<CheckpointRecord>, ghost files0: Files)
        returns (r: Result<MigrationCheckpoint, string>)
      requires Drives(run, now)
      requires q.raised == raised && q.record == cp.Snapshot() && q.calls == sink.calls
      requires store.saves == saves0 + q.saves && store.files == SaveAll(files0, q.saves)
      modifies cp, store, sink
      ensures var f := Finished(run, q);
        && sink.calls == f.calls && f.reports == q.reports
        && store.saves == saves0 + f.saves && store.files == SaveAll(files0, f.saves)
        && (r.Err? <==> f.raised.Some?)
        && (r.Err? ==> r.error == f.raised.value)
        && (r.Ok? ==> r.value == cp && cp.Snapshot() == f.record)
    {
      Conclude(cp, raised, now, run, q, saves0, files0);
      if raised.Some? {
        return Err(raised.value);
      }
      if !settings.options.dryRun {
        var e := sink.Call(LoadCollection(conversion.milvusCollectionName));
        if e.Some? {
          return Err(e.value);
        }
      }
      return Ok(cp);
    }

    /** `migrate`: the sink's log, the store, the progress reports and the
        returned checkpoint are those of `Migration`; an exception is returned
        as `Err`. */
    method Migrate(source: DocumentSource, now: real) returns (r: Result<MigrationCheckpoint, string>)
      requires Valid()
      modifies this, store, sink
      ensures var p := Migration(old(RunAt(now)), old(store.files), old(sink.calls), source);
        && sink.calls == p.calls
        && store.saves == old(store.saves) + p.saves
        && store.files == SaveAll(old(store.files), p.saves)
        && reports == old(reports) + p.reports
        && (r.Err? <==> p.raised.Some?)
        && (r.Err? ==> r.error == p.raised.value)
        && (r.Ok? ==> r.value.Snapshot() == p.record)
    {
      ghost var run := RunAt(now);
      assert Drives(run, now) && Transforms(run);
      ghost var files0 := store.files;
      ghost var calls0 := sink.calls;
      ghost var saves0 := store.saves;
      ghost var reports0 := reports;
      var cp, skip, raised := Begin(source, now);
      if raised.Some? {
        return Err(raised.value);
      }
      ghost var p := SetUp(run, Start(run, files0, source).value, calls0);
      assert store.files == SaveAll(files0, p.saves) by {
        assert p.saves[..0] == [];
      }
      raised := SetupCollection(conversion.milvusCollectionName);
      if raised.Some? {
        return Err(raised.value);
      }
      var x := source.extract(settings.indexName, settings.options.batchSize, skip);
      raised := RunBatches(cp, x.batches, now, run, p, saves0, files0, reports0);
      if raised.None? && x.raised.Some? {
        raised := x.raised;
      }
      ghost var q := Drained(run, p, x);
      assert Migration(run, files0, calls0, source) == Finished(run, q);
      r := Finish(cp, raised, now, run, q, saves0, files0);
    }
  }

  /** After a raise, the rest of the plan is not attempted. */
  lemma {:induction false} StopsAfter(calls: seq<SinkCall>, faults: map<nat, string>, cs: seq<SinkCall>, k: nat, n: nat)
    requires k <= n <= |cs|
    requires CallsUpTo(calls, faults, cs, k).1.Some?
    ensures CallsUpTo(calls, faults, cs, n) == CallsUpTo(calls, faults, cs, k)
    decreases n
  {
    if n > k {
      StopsAfter(calls, faults, cs, k, n - 1);
    }
  }
}
