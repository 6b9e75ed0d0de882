/**
 Saving captured ranges: prepare outside SQL, then compare and set the range
 (workspace_zulip_bridge/storage.py, save_history_batch and defer_history_capture_write).
 */
module HistoryCapture {
  import opened Catalogs
  import opened HistoryBatches
  import opened HistoryTables
  import opened FailureReports
  import opened HistoryConfiguration

  /** What a capture read before merging outside SQL. */
  datatype Capture = Capture(key: ScopeKey, row: Scope, prior: Option<Batch>, incoming: Batch)

  function ReadCapture(db: Db, k: ScopeKey, incoming: Batch): Capture
    requires k in db.scopes
  {
    var bk := BatchKey(k, incoming.fromId);
    Capture(k, db.scopes[k], if bk in db.batches then Some(db.batches[bk].body) else None, incoming)
  }

  /** The body to store: the merge, on the assembled directory once there is one. */
  function Prepared(c: Capture): Result<Batch> {
    var merged := Merge(c.prior, c.incoming);
    if merged.Err? then merged
    else if c.row.accountCursor > 0 && c.row.accountCursor >= |Accounts(c.row.sources)| then
      Ok(WithDirectory(merged.value, c.row.users))
    else merged
  }

  /** `held`: the source claim is unchanged, the job lease is live and the provider is enabled. */
  predicate CaptureCurrent(db: Db, c: Capture, held: bool) {
    && held && c.key in db.scopes
    && db.scopes[c.key].generation == c.row.generation
    && db.scopes[c.key].accountCursor == c.row.accountCursor
  }

  predicate Unchanged(db: Db, c: Capture) {
    var bk := BatchKey(c.key, c.incoming.fromId);
    match c.prior
    case None => bk !in db.batches
    case Some(prior) => bk in db.batches && db.batches[bk].body.hash == prior.hash
  }

  function SaveCapture(db: Db, c: Capture, job: JobKey, held: bool): Db {
    if !CaptureCurrent(db, c, held) || Prepared(c).Err? || !Unchanged(db, c) then db else
    var bk := BatchKey(c.key, c.incoming.fromId);
    var row :=
      if c.prior.None? then BatchRow(Prepared(c).value, NEW_IMPORT, [c.incoming])
      else db.batches[bk].(body := Prepared(c).value, captures := db.batches[bk].captures + [c.incoming]);
    db.(batches := db.batches[bk := row], timeouts := db.timeouts - {job})
  }

  /** A capture whose body write timed out under `generation`. */
  function TimeoutCapture(db: Db, k: ScopeKey, generation: nat, job: JobKey, held: bool): Db {
    if !held || k !in db.scopes || db.scopes[k].generation != generation then db
    else Record(db.(timeouts := db.timeouts + {job}), k, generation, CaptureTimeout, true)
  }
}
