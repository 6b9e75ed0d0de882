/**
 The invariant of all runs of the history subsystem.
 */
module HistoryInvariant {
  import opened Catalogs
  import opened HistoryBatches
  import opened HistoryTables
  import opened FailureReports
  import opened HistoryConfiguration
  import opened HistoryCapture
  import opened HistoryDelivery
  import opened HistoryRuns
  import opened RevisionProofs
  import opened DirectoryProofs
  import opened DirectorySteps
  import opened DeliveryProofs
  import opened DeliverySteps
  import opened ReportProofs

  ghost predicate Inv(s: State) {
    && Stamped(s.db) && Tracked(s.db)
    && Sound(s.db)
    && Quanta(s.db.scopes, s.db.batches, s.quanta)
    && Captures(s.db.scopes, s.captures)
    && Imports(s.db.batches) && Claims(s.db.batches, s.claims, s.leases)
    && Reports(s.db.scopes, s.db.reports)
  }

  lemma InitialInv(s: State)
    requires Initial(s)
    ensures Inv(s)
  {
    var db := s.db;
    forall bk | bk in db.batches
      ensures BodyRow(bk, db.batches[bk]) && SettledAt(db.scopes, bk, db.batches[bk]) && ImportRow(bk.fromId, db.batches[bk].imp)
    {
      NewImportOk(bk.fromId);
    }
    forall k ensures ReportAt(db.scopes, db.reports, k) {
    }
  }

  /** What earlier reads need from a transaction that keeps the tables sound. */
  lemma ReadsKept(s: State, d: Db)
    requires Inv(s) && Fair(s.db, d)
    ensures Quanta(d.scopes, d.batches, s.quanta) && Captures(d.scopes, s.captures)
  {
    QuantaHeld(s.db.scopes, s.db.batches, d.scopes, d.batches, s.quanta);
    CapturesMoved(s.db.scopes, d.scopes, s.captures);
  }

  lemma PublicationKept(s: State, d: Db)
    requires Inv(s) && Restarted(s.db.batches, d.batches)
    ensures Imports(d.batches) && Claims(d.batches, s.claims, s.leases)
  {
    RestartedImports(s.db.batches, d.batches);
    RestartedLeases(s.db.batches, d.batches);
    ClaimsKept(s.db.batches, d.batches, s.claims, s.leases);
  }

  // ------------------------------------------------------------------ configuration events

  lemma ReconcileScopeInv(s: State, k: ScopeKey, legacyMatches: bool, legacyGeneration: nat)
    requires Inv(s) && legacyGeneration <= s.db.counter
    ensures Inv(s.(db := ReconcileScope(s.db, k, legacyMatches, legacyGeneration)))
    ensures legacyGeneration <= ReconcileScope(s.db, k, legacyMatches, legacyGeneration).counter
  {
    var d := ReconcileScope(s.db, k, legacyMatches, legacyGeneration);
    assert k in s.db.scopes ==> PassRow(s.db.scopes[k]);
    ReconcileScopeTracks(s.db, k, legacyMatches, legacyGeneration);
    ReconcileScopeSound(s.db, k, legacyMatches, legacyGeneration);
    ReadsKept(s, d);
    ReconcileScopeRestarts(s.db, k, legacyMatches, legacyGeneration);
    PublicationKept(s, d);
    ReconcileScopeReports(s.db, k, legacyMatches, legacyGeneration);
  }

  lemma {:induction false} ReconcileScopesInv(s: State, keys: seq<ScopeKey>, legacyMatches: bool, legacyGeneration: nat)
    requires Inv(s) && legacyGeneration <= s.db.counter
    ensures Inv(s.(db := ReconcileScopes(s.db, keys, legacyMatches, legacyGeneration)))
    ensures legacyGeneration <= ReconcileScopes(s.db, keys, legacyMatches, legacyGeneration).counter
  {
    if keys != [] {
      var init := keys[..|keys| - 1];
      ReconcileScopesInv(s, init, legacyMatches, legacyGeneration);
      ReconcileScopeInv(s.(db := ReconcileScopes(s.db, init, legacyMatches, legacyGeneration)),
                        keys[|keys| - 1], legacyMatches, legacyGeneration);
    }
  }

  /** The invariant does not look at desired sources, the legacy fingerprint or capture markers. */
  lemma OtherTables(s: State, d: Db)
    requires Inv(s)
    requires d.counter == s.db.counter && d.revisions == s.db.revisions && d.scopes == s.db.scopes
    requires d.batches == s.db.batches && Reports(d.scopes, d.reports)
    ensures Inv(s.(db := d))
  {
    forall k | k in d.scopes ensures RevisionRow(d, k) {
      assert RevisionRow(s.db, k);
    }
  }

  lemma ReconcileInv(s: State, keys: seq<ScopeKey>)
    requires Inv(s) && Lists(keys, KnownScopes(s.db))
    ensures Inv(s.(db := Reconcile(s.db, keys)))
  {
    var matches := s.db.legacy == Some(s.db.desiredLegacy);
    ReconcileScopesInv(s, keys, matches, s.db.counter);
    OtherTables(s.(db := ReconcileScopes(s.db, keys, matches, s.db.counter)), Reconcile(s.db, keys));
  }

  lemma InvalidateInv(s: State, realm: Option<Uuid>)
    requires Inv(s)
    ensures Inv(s.(db := Invalidate(s.db, realm)))
  {
    var d := Invalidate(s.db, realm);
    InvalidateTracks(s.db, realm);
    InvalidateSound(s.db, realm);
    ReadsKept(s, d);
    assert d.batches == s.db.batches;
    PublicationKept(s, d);
    InvalidateReports(s.db, realm);
  }

  lemma ApplyInv(s: State, q: Quantum, fetched: seq<User>)
    requires Inv(s) && q in s.quanta
    ensures Inv(s.(db := ApplyRefresh(s.db, q, fetched)))
  {
    var d := ApplyRefresh(s.db, q, fetched);
    assert QuantumRow(s.db.scopes, s.db.batches, q);
    ApplyTracks(s.db, q, fetched);
    ApplySound(s.db, q, fetched);
    ReadsKept(s, d);
    ApplyRestarts(s.db, q, fetched);
    PublicationKept(s, d);
    ApplyReports(s.db, q, fetched);
  }

  lemma DeferInv(s: State, q: Quantum, code: Code)
    requires Inv(s)
    ensures Inv(s.(db := DeferDirectory(s.db, q, code)))
  {
    var d := DeferDirectory(s.db, q, code);
    DeferTracks(s.db, q, code);
    DeferSound(s.db, q, code);
    ReadsKept(s, d);
    assert d.batches == s.db.batches;
    PublicationKept(s, d);
    DeferReports(s.db, q, code);
  }

  /** A quantum starts with nothing between the cursor and the batch it read. */
  lemma ReadRefreshInv(s: State, k: ScopeKey)
    requires Inv(s) && Refreshable(s.db, k)
    ensures Inv(Next(s, ReadRefresh(k)))
  {
    var db := s.db;
    var q := ReadQuantum(db, k);
    assert PassRow(db.scopes[k]);
    if q.batch.Some? {
      var bk := BatchKey(k, q.batch.value.fromId);
      assert q.batch.value.fromId in RangesAfter(db, k, db.scopes[k].cursor);
      assert BodyRow(bk, db.batches[bk]);
      forall o | o in db.batches && o.scope == k && q.row.cursor < o.fromId
        ensures q.batch.value.fromId <= o.fromId
      {
        assert o.fromId in RangesAfter(db, k, db.scopes[k].cursor);
      }
    }
    assert QuantumRow(db.scopes, db.batches, q);
  }

  // ------------------------------------------------------------------ capture events

  lemma StartCaptureInv(s: State, k: ScopeKey, incoming: Batch)
    requires Inv(s) && k in s.db.scopes && WellFormed(incoming)
    ensures Inv(Next(s, StartCapture(k, incoming)))
  {
    var c := ReadCapture(s.db, k, incoming);
    assert PassRow(s.db.scopes[k]);
    AssembledCanonical(s.db.scopes[k].catalogs);
    if c.prior.Some? {
      assert BodyRow(BatchKey(k, incoming.fromId), s.db.batches[BatchKey(k, incoming.fromId)]);
    }
    assert CaptureRow(s.db.scopes, c);
  }

  lemma SaveInv(s: State, c: Capture, job: JobKey, held: bool)
    requires Inv(s) && c in s.captures
    ensures Inv(s.(db := SaveCapture(s.db, c, job, held)))
  {
    var d := SaveCapture(s.db, c, job, held);
    assert CaptureRow(s.db.scopes, c);
    SaveSound(s.db, c, job, held);
    ReadsKept(s, d);
    SaveRestarts(s.db, c, job, held);
    PublicationKept(s, d);
    assert d.scopes == s.db.scopes && d.revisions == s.db.revisions && d.counter == s.db.counter;
    SameTracked(s.db, d);
  }

  lemma SameTracked(db: Db, d: Db)
    requires Stamped(db) && Tracked(db)
    requires d.counter == db.counter && d.revisions == db.revisions && d.scopes == db.scopes
    ensures Stamped(d) && Tracked(d)
  {
    forall k | k in d.scopes ensures RevisionRow(d, k) {
      assert RevisionRow(db, k);
    }
  }

  lemma TimeoutInv(s: State, k: ScopeKey, generation: nat, job: JobKey, held: bool)
    requires Inv(s)
    ensures Inv(s.(db := TimeoutCapture(s.db, k, generation, job, held)))
  {
    var d := TimeoutCapture(s.db, k, generation, job, held);
    if d != s.db {
      RecordReports(s.db.(timeouts := s.db.timeouts + {job}), k, generation, CaptureTimeout, true);
      OtherTables(s, d);
    }
  }

  // ------------------------------------------------------------------ publication events

  lemma PublishedInv(s: State, d: Db)
    requires Inv(s) && Sound(d) && Fair(s.db, d) && Imports(d.batches) && LeaseKept(s.db.batches, d.batches)
    requires d.counter == s.db.counter && d.revisions == s.db.revisions && d.scopes == s.db.scopes
    requires Reports(d.scopes, d.reports)
    ensures Inv(s.(db := d))
  {
    SameTracked(s.db, d);
    ReadsKept(s, d);
    ClaimsKept(s.db.batches, d.batches, s.claims, s.leases);
  }

  lemma ReleaseInv(s: State, c: Claim, status: Status, receipt: Option<Uuid>, reset: bool)
    requires Inv(s) && c in s.claims && status != Complete
    ensures Inv(s.(db := Release(s.db, c, status, receipt, reset)))
  {
    assert ClaimRow(s.db.batches, c, s.leases);
    ReleaseImports(s.db, c, s.leases, status, receipt, reset);
    ReleaseSound(s.db, c, status, receipt, reset);
    PublishedInv(s, Release(s.db, c, status, receipt, reset));
  }

  lemma FailInv(s: State, c: Claim, receipt: Option<Uuid>, code: Code, live: bool)
    requires Inv(s) && c in s.claims
    ensures Inv(s.(db := Fail(s.db, c, receipt, code, live)))
  {
    var d := Fail(s.db, c, receipt, code, live);
    if !Current(s.db, c, live) {
      ReleaseInv(s, c, Pending, None, false);
    } else {
      var released := Release(s.db, c, Failed, receipt, false);
      ReleaseInv(s, c, Failed, receipt, false);
      assert released.scopes == s.db.scopes;
      RecordReports(released, c.key.scope, c.generation, code, false);
      OtherTables(s.(db := released), d);
    }
  }

  lemma SavePageInv(s: State, c: Claim, receipt: Uuid, next: Option<string>, live: bool)
    requires Inv(s) && c in s.claims
    ensures Inv(s.(db := SavePage(s.db, c, receipt, next, live)))
  {
    assert ClaimRow(s.db.batches, c, s.leases);
    SavePageImports(s.db, c, s.leases, receipt, next, live);
    SavePageSound(s.db, c, receipt, next, live);
    PublishedInv(s, SavePage(s.db, c, receipt, next, live));
  }

  lemma ClaimInv(s: State, bk: BatchKey, allow: bool, complete: bool)
    requires Inv(s) && Claimable(s.db, bk, allow, complete)
    ensures Inv(Next(s, ClaimBatch(bk, allow, complete)))
  {
    var d := TakeClaim(s.db, bk, s.leases, allow);
    ClaimImports(s.db, bk, s.leases, allow);
    TakeClaimSound(s.db, bk, s.leases, allow);
    ReadsKept(s, d);
    ClaimClaims(s.db, bk, s.leases, allow, complete, s.claims);
    SameTracked(s.db, d);
  }

  lemma FlushInv(s: State, k: ScopeKey, candidate: Code, enabled: bool, callback: Callback)
    requires Inv(s)
    ensures Inv(s.(db := Flush(s.db, k, candidate, enabled, callback)))
  {
    FlushReports(s.db, k, candidate, enabled, callback);
    OtherTables(s, Flush(s.db, k, candidate, enabled, callback));
  }

  // ------------------------------------------------------------------ all events, all runs

  predicate TouchesScopes(e: Event) {
    e.Reconciled? || e.DirectoryChanged? || e.Apply? || e.Defer?
  }

  lemma ScopesUntouched(s: State, e: Event)
    requires !TouchesScopes(e)
    ensures var d := Next(s, e).db;
      d.scopes == s.db.scopes && d.revisions == s.db.revisions && d.counter == s.db.counter
  {
    if Enabled(s, e) {
      if e.Save? || e.CaptureTimedOut? || e.FlushReport? {
        ReportingUntouched(s, e);
      } else {
        PublicationUntouched(s, e);
      }
    }
  }

  lemma ReportingUntouched(s: State, e: Event)
    requires Enabled(s, e) && (e.Save? || e.CaptureTimedOut? || e.FlushReport?)
    ensures var d := Next(s, e).db;
      d.scopes == s.db.scopes && d.revisions == s.db.revisions && d.counter == s.db.counter
  {
    match e
    case Save(c, job, held) => assert NextDb(s, e) == SaveCapture(s.db, c, job, held);
    case CaptureTimedOut(k, generation, job, held) => assert NextDb(s, e) == TimeoutCapture(s.db, k, generation, job, held);
    case FlushReport(k, candidate, enabled, callback) => FlushTables(s.db, k, candidate, enabled, callback);
  }

  lemma PublicationUntouched(s: State, e: Event)
    requires Enabled(s, e) && !TouchesScopes(e) && !(e.Save? || e.CaptureTimedOut? || e.FlushReport?)
    ensures var d := Next(s, e).db;
      d.scopes == s.db.scopes && d.revisions == s.db.revisions && d.counter == s.db.counter
  {
    if e.FailClaim? {
      FailUntouched(s.db, e.claim, e.receipt, e.code, e.live);
    }
  }

  lemma FailUntouched(db: Db, c: Claim, receipt: Option<Uuid>, code: Code, live: bool)
    ensures var d := Fail(db, c, receipt, code, live);
      d.scopes == db.scopes && d.revisions == db.revisions && d.counter == db.counter
  {
  }

  lemma NextInv(s: State, e: Event)
    requires Inv(s)
    ensures Inv(Next(s, e))
  {
    if Enabled(s, e) {
      match e
      case Desire(desired, legacy) => OtherTables(s, NextDb(s, e));
      case Reconciled(keys) => ReconcileInv(s, keys);
      case DirectoryChanged(realm) => InvalidateInv(s, realm);
      case ReadRefresh(k) => ReadRefreshInv(s, k);
      case Apply(q, fetched) => ApplyInv(s, q, fetched);
      case Defer(q, code) => DeferInv(s, q, code);
      case StartCapture(k, incoming) => StartCaptureInv(s, k, incoming);
      case Save(c, job, held) => SaveInv(s, c, job, held);
      case CaptureTimedOut(k, generation, job, held) => TimeoutInv(s, k, generation, job, held);
      case DropTimeouts(jobs) => OtherTables(s, NextDb(s, e));
      case ClaimBatch(bk, allow, complete) => ClaimInv(s, bk, allow, complete);
      case ReleaseClaim(c, receipt, reset) => ReleaseInv(s, c, Pending, receipt, reset);
      case FailClaim(c, receipt, code, live) => FailInv(s, c, receipt, code, live);
      case InstallPage(c, receipt, next, live) => SavePageInv(s, c, receipt, next, live);
      case FlushReport(k, candidate, enabled, callback) => FlushInv(s, k, candidate, enabled, callback);
    }
  }

  lemma {:induction false} RunInv(s: State, events: seq<Event>)
    requires Inv(s)
    ensures Inv(Run(s, events))
    decreases |events|
  {
    if events != [] {
      NextInv(s, events[0]);
      RunInv(Next(s, events[0]), events[1..]);
    }
  }

  /** Every state reachable by any interleaving of all workers satisfies the invariant. */
  lemma AlwaysInv(s: State, events: seq<Event>)
    requires Initial(s)
    ensures Inv(Run(s, events))
  {
    InitialInv(s);
    RunInv(s, events);
  }
}
