/**
 Runs of the history subsystem. Each event is one transaction, or one read made before work
 outside SQL; what was read stays usable forever, so a worker may apply it arbitrarily late, more
 than once, and in any interleaving with every other worker.
 */
module HistoryRuns {
  import opened Catalogs
  import opened HistoryBatches
  import opened HistoryTables
  import opened FailureReports
  import opened HistoryConfiguration
  import opened HistoryCapture
  import opened HistoryDelivery

  /** The tables, everything workers have read so far, and the supply of fresh leases. */
  datatype State = State(db: Db, quanta: set<Quantum>, captures: set<Capture>, claims: set<Claim>, leases: nat)

  datatype Event =
    | Desire(desired: map<ScopeKey, seq<Source>>, legacy: nat)
    | Reconciled(keys: seq<ScopeKey>)
    | DirectoryChanged(realm: Option<Uuid>)
    | ReadRefresh(scope: ScopeKey)
    | Apply(quantum: Quantum, fetched: seq<User>)
    | Defer(quantum: Quantum, code: Code)
    | StartCapture(scope: ScopeKey, incoming: Batch)
    | Save(capture: Capture, job: JobKey, held: bool)
    | CaptureTimedOut(scope: ScopeKey, generation: nat, job: JobKey, held: bool)
    | DropTimeouts(jobs: set<JobKey>)
    | ClaimBatch(batch: BatchKey, allowAdmission: bool, jobsComplete: bool)
    | ReleaseClaim(claim: Claim, receipt: Option<Uuid>, reset: bool)
    | FailClaim(claim: Claim, receipt: Option<Uuid>, code: Code, live: bool)
    | InstallPage(claim: Claim, page: Uuid, next: Option<string>, live: bool)
    | FlushReport(scope: ScopeKey, candidate: Code, enabled: bool, callback: Callback)

  predicate Enabled(s: State, e: Event) {
    match e
    case Reconciled(keys) => Lists(keys, KnownScopes(s.db))
    case ReadRefresh(k) => Refreshable(s.db, k)
    case Apply(q, fetched) => q in s.quanta && Canonical(fetched, UserId)
    case Defer(q, code) => q in s.quanta
    case StartCapture(k, incoming) => k in s.db.scopes && WellFormed(incoming)
    case Save(c, job, held) => c in s.captures
    case ClaimBatch(bk, allow, complete) => Claimable(s.db, bk, allow, complete)
    case ReleaseClaim(c, receipt, reset) => c in s.claims
    case FailClaim(c, receipt, code, live) => c in s.claims
    case InstallPage(c, receipt, next, live) => c in s.claims
    case _ => true
  }

  /** The tables after an event. */
  function NextDb(s: State, e: Event): Db
    requires Enabled(s, e)
  {
    var db := s.db;
    match e
    case Desire(desired, legacy) => db.(desired := desired, desiredLegacy := legacy)
    case Reconciled(keys) => Reconcile(db, keys)
    case DirectoryChanged(realm) => Invalidate(db, realm)
    case ReadRefresh(k) => db
    case Apply(q, fetched) => ApplyRefresh(db, q, fetched)
    case Defer(q, code) => DeferDirectory(db, q, code)
    case StartCapture(k, incoming) => db
    case Save(c, job, held) => SaveCapture(db, c, job, held)
    case CaptureTimedOut(k, generation, job, held) => TimeoutCapture(db, k, generation, job, held)
    case DropTimeouts(jobs) => db.(timeouts := db.timeouts - jobs)
    case ClaimBatch(bk, allow, complete) => TakeClaim(db, bk, s.leases, allow)
    case ReleaseClaim(c, receipt, reset) => Release(db, c, Pending, receipt, reset)
    case FailClaim(c, receipt, code, live) => Fail(db, c, receipt, code, live)
    case InstallPage(c, receipt, next, live) => SavePage(db, c, receipt, next, live)
    case FlushReport(k, candidate, enabled, callback) => Flush(db, k, candidate, enabled, callback)
  }

  /** An event that is not enabled leaves everything as it is. */
  function Next(s: State, e: Event): State {
    if !Enabled(s, e) then s else
    var db := NextDb(s, e);
    match e
    case ReadRefresh(k) => s.(quanta := s.quanta + {ReadQuantum(s.db, k)})
    case StartCapture(k, incoming) => s.(captures := s.captures + {ReadCapture(s.db, k, incoming)})
    case ClaimBatch(bk, allow, complete) =>
      var item := ClaimItem(s.db, bk, s.leases, allow);
      s.(db := db, leases := s.leases + 1,
         claims := if item.Some? then s.claims + {item.value} else s.claims)
    case _ => s.(db := db)
  }

  function Run(s: State, events: seq<Event>): State
    decreases |events|
  {
    if events == [] then s else Run(Next(s, events[0]), events[1..])
  }

  lemma {:induction false} RunAppend(s: State, events: seq<Event>, e: Event)
    ensures Run(s, events + [e]) == Next(Run(s, events), e)
    decreases |events|
  {
    if events == [] {
      assert Run(s, [e]) == Run(Next(s, e), []);
    } else {
      RunAppend(Next(s, events[0]), events[1..], e);
      assert (events + [e])[1..] == events[1..] + [e];
    }
  }

  /** Before any scope exists: possibly captured batches, never published. */
  ghost predicate Initial(s: State) {
    && s.db.scopes == map[] && s.db.revisions == map[] && s.db.reports == map[]
    && s.quanta == {} && s.captures == {} && s.claims == {}
    && (forall bk :: bk in s.db.batches ==>
          && s.db.batches[bk].imp == NEW_IMPORT
          && WellFormed(s.db.batches[bk].body) && s.db.batches[bk].body.fromId == bk.fromId
          && s.db.batches[bk].captures == [s.db.batches[bk].body])
  }
}
