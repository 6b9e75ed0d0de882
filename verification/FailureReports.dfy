/**
 Durable failure reports, one resumable row per scope
 (workspace_zulip_bridge/history_failure_reports.py).
 */
module FailureReports {
  import opened Catalogs
  import opened HistoryTables

  function NewReport(generation: nat, code: Code): Report {
    Report(generation, code, None, false, [])
  }

  /** The row after a failure was recorded over `prior`. */
  function Recorded(prior: Option<Report>, generation: nat, code: Code, restartCompleted: bool): Report {
    match prior
    case None => NewReport(generation, code)
    case Some(r) =>
      if && (r.generation != generation || r.code != code || (restartCompleted && r.complete))
         && (code != CaptureTimeout || r.generation != generation || r.code == code)
      then NewReport(generation, code)
      else r
  }

  function ReportOf(db: Db, k: ScopeKey): Option<Report> {
    if k in db.reports then Some(db.reports[k]) else None
  }

  function Record(db: Db, k: ScopeKey, generation: nat, code: Code, restartCompleted: bool): Db {
    db.(reports := db.reports[k := Recorded(ReportOf(db, k), generation, code, restartCompleted)])
  }

  /** The row after a capture failure was carried to `generation` over `prior`. */
  function Carried(prior: Option<Report>, generation: nat): Report {
    match prior
    case None => NewReport(generation, CaptureTimeout)
    case Some(r) =>
      if r.generation == generation then r
      else if r.code == CaptureTimeout then r.(generation := generation)
      else NewReport(generation, CaptureTimeout)
  }

  function CaptureScopes(db: Db, generation: nat): set<ScopeKey> {
    set k | k in db.scopes && db.scopes[k].generation == generation && HasTimeout(db, db.scopes[k].sources)
  }

  /** Keep capture failures when only the publication generation changes. */
  function CarryCapture(db: Db, generation: nat): Db {
    db.(reports := map k | k in db.reports.Keys + CaptureScopes(db, generation) ::
      if k in CaptureScopes(db, generation) then Carried(ReportOf(db, k), generation) else db.reports[k])
  }

  predicate StoppedPass(scope: Scope) {
    scope.pending && scope.attempts >= DIRECTORY_WRITE_MAX_ATTEMPTS
  }

  predicate StoppedReport(db: Db, generation: nat, k: ScopeKey)
    requires k in db.reports
  {
    && k in db.scopes && db.scopes[k].generation == generation
    && StoppedPass(db.scopes[k]) && db.reports[k].code == DirectoryTimeout
  }

  /** Metadata-only revisions preserve a stopped directory pass and its report. */
  function CarryDirectory(db: Db, generation: nat): Db {
    db.(reports := map k | k in db.reports ::
      if StoppedReport(db, generation, k) then db.reports[k].(generation := generation) else db.reports[k])
  }

  predicate ScopeCurrent(db: Db, k: ScopeKey, generation: nat, code: Code) {
    && k in db.scopes
    && (!db.scopes[k].pending || code == CaptureTimeout || code == DirectoryTimeout)
    && (code == DirectoryTimeout ==> db.scopes[k].attempts >= DIRECTORY_WRITE_MAX_ATTEMPTS)
    && db.scopes[k].generation == generation
    && db.scopes[k].fingerprint == Fingerprint(Rows(db, k))
  }

  /** What the account report callback did: acknowledged, declined, or raised and rolled back. */
  datatype Callback = Acknowledged | Declined | Raised

  function Delete(db: Db, k: ScopeKey): Db {
    db.(reports := db.reports - {k})
  }

  /** The distinct accounts of a scope that come after the cursor. */
  function AccountsAfter(accounts: seq<Uuid>, after: Option<Uuid>): set<Uuid> {
    set a | a in accounts && (after.Some? ==> a > after.value)
  }

  /** A row that lost its scope's authority or, for captures, whose last marker was cleared. */
  predicate Retired(db: Db, k: ScopeKey, work: Report) {
    || !ScopeCurrent(db, k, work.generation, work.code)
    || (work.code == CaptureTimeout && !HasTimeout(db, db.scopes[k].sources))
  }

  /**
   A row to look at again later: its capture marker was not locked first because the unlocked
   candidate query saw another code, the scope is refreshing, or the provider is paused.
   */
  predicate Postponed(db: Db, k: ScopeKey, work: Report, candidate: Code, enabled: bool)
    requires k in db.scopes
  {
    || (work.code == CaptureTimeout && candidate != CaptureTimeout)
    || (db.scopes[k].pending && work.code != DirectoryTimeout)
    || !enabled
  }

  /** The row after its next account was reported, or found to be the last. */
  function Reported(work: Report, accounts: seq<Uuid>, callback: Callback): Report {
    var rest := AccountsAfter(accounts, work.after);
    if rest == {} then work.(complete := true)
    else if callback == Acknowledged then
      var account := Least(rest);
      work.(after := Some(account), acked := work.acked + [account])
    else work
  }

  /** One reporting quantum for the row of scope `k`; `candidate` is the code seen before locking. */
  function Flush(db: Db, k: ScopeKey, candidate: Code, enabled: bool, callback: Callback): Db {
    if k !in db.reports || db.reports[k].complete then db else
    var work := db.reports[k];
    if Retired(db, k, work) then Delete(db, k)
    else if Postponed(db, k, work, candidate, enabled) then db
    else db.(reports := db.reports[k := Reported(work, Accounts(db.scopes[k].sources), callback)])
  }

  /** Reporting touches nothing but reports. */
  lemma FlushTables(db: Db, k: ScopeKey, candidate: Code, enabled: bool, callback: Callback)
    ensures var d := Flush(db, k, candidate, enabled, callback); d == db.(reports := d.reports)
  {
  }
}
