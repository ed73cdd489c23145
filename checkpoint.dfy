/** Resumable-migration checkpoints: a mutable progress record with its
    status transitions, and a store that keeps one record per index under a
    sanitised file name. */
module Checkpoints {
  import opened Wrappers

  datatype Status = Pending | InProgress | Completed | Failed

  /** The text a checkpoint file holds for each status. */
  function StatusText(s: Status): (t: string)
    ensures t in {"pending", "in_progress", "completed", "failed"}
  {
    match s
    case Pending => "pending"
    case InProgress => "in_progress"
    case Completed => "completed"
    case Failed => "failed"
  }

  lemma StatusTextInjective(a: Status, b: Status)
    ensures StatusText(a) == StatusText(b) ==> a == b
  {
  }

  /** The persisted content of a checkpoint (`asdict` of the dataclass);
      clock readings are reals. */
  datatype CheckpointRecord = CheckpointRecord(
    indexName: string,
    collectionName: string,
    totalDocuments: int,
    migratedDocuments: int,
    lastDocumentKey: string,
    failedDocumentKeys: seq<string>,
    status: Status,
    createdAt: real,
    updatedAt: real,
    batchNumber: int,
    errorMessage: string)

  /** The record `MigrationCheckpoint(index_name, collection_name, total_documents=total)`
      starts from, before its creation time is stamped. */
  function NewRecord(indexName: string, collectionName: string, total: int): (r: CheckpointRecord)
    ensures r.indexName == indexName && r.collectionName == collectionName && r.totalDocuments == total
    ensures r.status == Pending && r.migratedDocuments == 0 && r.batchNumber == 0
    ensures r.failedDocumentKeys == [] && r.errorMessage == "" && r.lastDocumentKey == ""
    ensures r.createdAt == 0.0 && r.updatedAt == 0.0
  {
    CheckpointRecord(indexName, collectionName, total, 0, "", [], Pending, 0.0, 0.0, 0, "")
  }

  /** `__post_init__`: an unset (zero) creation time is replaced by the clock. */
  function Stamped(r: CheckpointRecord, now: real): (s: CheckpointRecord)
    ensures s.createdAt == if r.createdAt == 0.0 then now else r.createdAt
    ensures s.(createdAt := r.createdAt) == r
  {
    if r.createdAt == 0.0 then r.(createdAt := now) else r
  }

  /** The record after `advance(count, lastKey)` at time `now`. */
  function Advanced(r: CheckpointRecord, count: int, lastKey: string, now: real): (s: CheckpointRecord)
    ensures s.migratedDocuments == r.migratedDocuments + count
    ensures s.batchNumber == r.batchNumber + 1
    ensures s.lastDocumentKey == lastKey && s.updatedAt == now
    ensures s.(migratedDocuments := r.migratedDocuments, batchNumber := r.batchNumber,
               lastDocumentKey := r.lastDocumentKey, updatedAt := r.updatedAt) == r
  {
    r.(migratedDocuments := r.migratedDocuments + count, lastDocumentKey := lastKey,
       batchNumber := r.batchNumber + 1, updatedAt := now)
  }

  /** The record after `mark_in_progress` or `mark_completed`: only the status
      and the update time change, whatever the previous status was. */
  function Marked(r: CheckpointRecord, status: Status, now: real): (s: CheckpointRecord)
    ensures s.status == status && s.updatedAt == now
    ensures s.(status := r.status, updatedAt := r.updatedAt) == r
  {
    r.(status := status, updatedAt := now)
  }

  /** The record after `mark_failed(error)`. */
  function MarkedFailed(r: CheckpointRecord, error: string, now: real): (s: CheckpointRecord)
    ensures s.status == Failed && s.errorMessage == error && s.updatedAt == now
    ensures s.(status := r.status, errorMessage := r.errorMessage, updatedAt := r.updatedAt) == r
  {
    r.(status := Failed, errorMessage := error, updatedAt := now)
  }

  /** Advancing adds the counts and the batch numbers, and never touches the status. */
  lemma {:induction false} AdvanceTwice(r: CheckpointRecord, a: int, k1: string, t1: real, b: int, k2: string, t2: real)
    ensures var s := Advanced(Advanced(r, a, k1, t1), b, k2, t2);
      && s.migratedDocuments == r.migratedDocuments + a + b
      && s.batchNumber == r.batchNumber + 2
      && s.lastDocumentKey == k2
      && s.status == r.status && s.totalDocuments == r.totalDocuments
  {
    var s1 := Advanced(r, a, k1, t1);
    assert s1.status == r.status && s1.totalDocuments == r.totalDocuments;
  }

  /** `migrated_documents / total_documents * 100`, and 0 when there is nothing to migrate. */
  function ProgressOf(r: CheckpointRecord): (p: real)
    ensures r.totalDocuments == 0 ==> p == 0.0
    ensures r.totalDocuments != 0 ==> p * (r.totalDocuments as real) == (r.migratedDocuments as real) * 100.0
  {
    if r.totalDocuments == 0 then 0.0
    else (r.migratedDocuments as real / r.totalDocuments as real) * 100.0
  }

  /** Progress stays within 0..100 while no more than the total has been migrated. */
  lemma ProgressBounds(r: CheckpointRecord)
    requires 0 <= r.migratedDocuments <= r.totalDocuments
    ensures 0.0 <= ProgressOf(r) <= 100.0
  {
    if r.totalDocuments != 0 {
      var t := r.totalDocuments as real;
      var m := r.migratedDocuments as real;
      assert m / t <= 1.0 by {
        assert m <= t;
      }
    }
  }

  /** A migration checkpoint whose fields are updated in place. */
  class MigrationCheckpoint {
    var indexName: string
    var collectionName: string
    var totalDocuments: int
    var migratedDocuments: int
    var lastDocumentKey: string
    var failedDocumentKeys: seq<string>
    var status: Status
    var createdAt: real
    var updatedAt: real
    var batchNumber: int
    var errorMessage: string

    /** The field values, as `asdict` reports them. */
    function Snapshot(): CheckpointRecord
      reads this
    {
      CheckpointRecord(indexName, collectionName, totalDocuments, migratedDocuments, lastDocumentKey,
        failedDocumentKeys, status, createdAt, updatedAt, batchNumber, errorMessage)
    }

    /** `MigrationCheckpoint(**fields)` with the clock reading `now`. */
    constructor (r: CheckpointRecord, now: real)
      ensures Snapshot() == Stamped(r, now)
    {
      indexName, collectionName, totalDocuments := r.indexName, r.collectionName, r.totalDocuments;
      migratedDocuments, lastDocumentKey := r.migratedDocuments, r.lastDocumentKey;
      failedDocumentKeys, status := r.failedDocumentKeys, r.status;
      createdAt := if r.createdAt == 0.0 then now else r.createdAt;
      updatedAt, batchNumber, errorMessage := r.updatedAt, r.batchNumber, r.errorMessage;
    }

    method MarkInProgress(now: real)
      modifies this
      ensures Snapshot() == Marked(old(Snapshot()), InProgress, now)
    {
      status, updatedAt := InProgress, now;
    }

    method Advance(count: int, lastKey: string, now: real)
      modifies this
      ensures Snapshot() == Advanced(old(Snapshot()), count, lastKey, now)
    {
      migratedDocuments := migratedDocuments + count;
      lastDocumentKey := lastKey;
      batchNumber := batchNumber + 1;
      updatedAt := now;
    }

    method MarkCompleted(now: real)
      modifies this
      ensures Snapshot() == Marked(old(Snapshot()), Completed, now)
    {
      status, updatedAt := Completed, now;
    }

    method MarkFailed(error: string, now: real)
      modifies this
      ensures Snapshot() == MarkedFailed(old(Snapshot()), error, now)
    {
      status, errorMessage, updatedAt := Failed, error, now;
    }

    function ProgressPct(): (p: real)
      reads this
      ensures p == ProgressOf(Snapshot())
    {
      if totalDocuments == 0 then 0.0
      else (migratedDocuments as real / totalDocuments as real) * 100.0
    }
  }

  /** The index name with every "/" and "\" replaced by "_". */
  function Sanitize(name: string): (safe: string)
    ensures |safe| == |name|
    ensures forall i :: 0 <= i < |name| ==>
      safe[i] == (if name[i] == '/' || name[i] == '\\' then '_' else name[i])
  {
    seq(|name|, i requires 0 <= i < |name| => if name[i] == '/' || name[i] == '\\' then '_' else name[i])
  }

  /** The file name, inside the checkpoint directory, of an index's checkpoint. */
  function FileName(indexName: string): string {
    Sanitize(indexName) + ".checkpoint.json"
  }

  /** Two index names share a checkpoint file exactly when they agree after
      sanitising; for example "a/b", "a\b" and "a_b" all do. */
  lemma {:induction false} FileNameCollision(a: string, b: string)
    ensures FileName(a) == FileName(b) <==> Sanitize(a) == Sanitize(b)
    ensures FileName("a/b") == FileName("a_b") && FileName("a\\b") == FileName("a_b")
  {
    if FileName(a) == FileName(b) {
      assert Sanitize(a) == FileName(a)[..|FileName(a)| - 16];
      assert Sanitize(b) == FileName(b)[..|FileName(b)| - 16];
    }
    assert Sanitize("a/b") == "a_b";
    assert Sanitize("a\\b") == "a_b";
    assert Sanitize("a_b") == "a_b";
  }

  lemma SanitizeIdempotent(name: string)
    ensures Sanitize(Sanitize(name)) == Sanitize(name)
  {
  }

  type Files = map<string, CheckpointRecord>

  /** The store after `save(cp)`: the file of the checkpoint's index is overwritten. */
  function Saved(files: Files, r: CheckpointRecord): Files {
    files[FileName(r.indexName) := r]
  }

  /** `load(name)`: the stored record, re-stamped on construction, or None. */
  function Loaded(files: Files, name: string, now: real): (r: Option<CheckpointRecord>)
    ensures r.Some? <==> FileName(name) in files
  {
    if FileName(name) in files then Some(Stamped(files[FileName(name)], now)) else None
  }

  /** The store after `delete(name)`; deleting an absent file changes nothing. */
  function Deleted(files: Files, name: string): (f: Files)
    ensures FileName(name) !in files ==> f == files
  {
    files - {FileName(name)}
  }

  /** Loading right after a save returns the saved record; its creation time
      is never zero once stamped, so a further stamp is a no-op. */
  lemma LoadAfterSave(files: Files, r: CheckpointRecord, now: real)
    requires r.createdAt != 0.0
    ensures Loaded(Saved(files, r), r.indexName, now) == Some(r)
  {
  }

  /** The last save wins. */
  lemma SaveOverwrites(files: Files, r1: CheckpointRecord, r2: CheckpointRecord)
    requires FileName(r1.indexName) == FileName(r2.indexName)
    ensures Saved(Saved(files, r1), r2) == Saved(files, r2)
  {
  }

  /** Saving one index leaves the other files alone. */
  lemma SaveIsolated(files: Files, r: CheckpointRecord, name: string, now: real)
    requires Sanitize(name) != Sanitize(r.indexName)
    ensures Loaded(Saved(files, r), name, now) == Loaded(files, name, now)
  {
    FileNameCollision(name, r.indexName);
  }

  lemma LoadAfterDelete(files: Files, name: string, now: real)
    ensures Loaded(Deleted(files, name), name, now) == None
  {
  }

  /** The checkpoint store of one directory; each file holds one record.
      `saves` is the history of every record written, for stating what a
      caller persisted and when. */
  /** The directory a `CheckpointManager` uses when none is given. */
  const DefaultCheckpointDir := ".checkpoints"

  class CheckpointManager {
    const dir: string
    var files: Files
    ghost var saves: seq<CheckpointRecord>

    /** `CheckpointManager(dir)`: the directory is created when missing and
        keeps the files it already holds. */
    constructor (dir: string, existing: Files)
      ensures this.dir == dir && files == existing && saves == []
    {
      this.dir := dir;
      files := existing;
      saves := [];
    }

    /** Writes the checkpoint's current fields and returns the path of the
        file it used, inside the checkpoint directory. */
    method Save(cp: MigrationCheckpoint) returns (path: string)
      modifies this
      ensures files == Saved(old(files), cp.Snapshot())
      ensures saves == old(saves) + [cp.Snapshot()]
      ensures path == dir + "/" + FileName(cp.indexName)
    {
      path := dir + "/" + FileName(cp.indexName);
      files := files[FileName(cp.indexName) := cp.Snapshot()];
      saves := saves + [cp.Snapshot()];
    }

    /** A new checkpoint object built from the stored record, or null when
        nothing was saved under that name. */
    method Load(name: string, now: real) returns (cp: MigrationCheckpoint?)
      ensures cp == null <==> Loaded(files, name, now).None?
      ensures cp != null ==> fresh(cp) && cp.Snapshot() == Loaded(files, name, now).value
    {
      var path := FileName(name);
      if path in files {
        cp := new MigrationCheckpoint(files[path], now);
      } else {
        cp := null;
      }
    }

    method Delete(name: string)
      modifies this
      ensures files == Deleted(old(files), name) && saves == old(saves)
    {
      var path := FileName(name);
      if path in files {
        files := files - {path};
      }
    }
  }
}
