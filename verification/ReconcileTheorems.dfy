/**
 Reconciliation converges in one pass and preserves every capture whose sources kept their identity.
 */
module ReconcileTheorems {
  import opened Catalogs
  import opened HistoryBatches
  import opened HistoryTables
  import opened FailureReports
  import opened HistoryConfiguration
  import opened HistoryRuns
  import opened RevisionProofs
  import opened DirectoryProofs
  import opened HistoryInvariant
  import opened ReportTheorems

  /** The scope row describes the desired sources. */
  ghost predicate UpToDate(db: Db, k: ScopeKey) {
    k in db.scopes && db.scopes[k].sources == Rows(db, k) && db.scopes[k].fingerprint == Fingerprint(Rows(db, k))
  }

  ghost predicate AllUpToDate(db: Db, keys: seq<ScopeKey>) {
    forall k :: k in keys ==> UpToDate(db, k)
  }

  /** Visiting `k` brings it up to date and leaves the other scope rows alone. */
  ghost predicate Updates(db: Db, d: Db, k: ScopeKey) {
    && UpToDate(d, k) && d.desired == db.desired && d.desiredLegacy == db.desiredLegacy
    && d.scopes.Keys == db.scopes.Keys + {k} && d.batches.Keys <= db.batches.Keys
    && forall o :: o != k && o in db.scopes ==> d.scopes[o] == db.scopes[o]
  }

  lemma ReconcileScopeUpdates(db: Db, k: ScopeKey, legacyMatches: bool, legacyGeneration: nat)
    ensures Updates(db, ReconcileScope(db, k, legacyMatches, legacyGeneration), k)
  {
    if k in db.scopes && db.scopes[k].fingerprint == Fingerprint(Rows(db, k)) {
      RestampUpdates(db, k);
    } else {
      RebuildUpdates(db, k);
    }
  }

  lemma RestampUpdates(db: Db, k: ScopeKey)
    requires k in db.scopes && db.scopes[k].fingerprint == Fingerprint(Rows(db, k))
    ensures Updates(db, Restamp(db, k, Rows(db, k)), k)
  {
    RestampTables(db, k, Rows(db, k));
  }

  lemma RebuildUpdates(db: Db, k: ScopeKey)
    ensures Updates(db, Rebuild(db, k, Rows(db, k)), k)
  {
  }

  /** The same for all scopes visited so far. */
  ghost predicate Updated(db: Db, d: Db, keys: seq<ScopeKey>) {
    && AllUpToDate(d, keys) && d.desired == db.desired && d.desiredLegacy == db.desiredLegacy
    && (forall k :: k in d.scopes ==> k in db.scopes || k in keys) && d.batches.Keys <= db.batches.Keys
  }

  lemma UpdatedNext(db: Db, m: Db, d: Db, init: seq<ScopeKey>, last: ScopeKey)
    requires Updated(db, m, init) && Updates(m, d, last)
    ensures Updated(db, d, init + [last])
  {
    forall k | k in init + [last] ensures UpToDate(d, k) {
      if k != last { assert UpToDate(m, k); }
    }
  }

  lemma {:induction false} ReconcileScopesUpdate(db: Db, keys: seq<ScopeKey>, legacyMatches: bool, legacyGeneration: nat)
    ensures Updated(db, ReconcileScopes(db, keys, legacyMatches, legacyGeneration), keys)
  {
    if keys != [] {
      var init, last := keys[..|keys| - 1], keys[|keys| - 1];
      var m := ReconcileScopes(db, init, legacyMatches, legacyGeneration);
      ReconcileScopesUpdate(db, init, legacyMatches, legacyGeneration);
      ReconcileScopeUpdates(m, last, legacyMatches, legacyGeneration);
      UpdatedNext(db, m, ReconcileScope(m, last, legacyMatches, legacyGeneration), init, last);
      assert keys == init + [last];
    }
  }

  lemma {:induction false} UpToDateIsKept(db: Db, keys: seq<ScopeKey>, legacyMatches: bool, legacyGeneration: nat)
    requires AllUpToDate(db, keys)
    ensures ReconcileScopes(db, keys, legacyMatches, legacyGeneration) == db
  {
    if keys != [] {
      assert UpToDate(db, keys[|keys| - 1]);
      UpToDateIsKept(db, keys[..|keys| - 1], legacyMatches, legacyGeneration);
    }
  }

  /** One reconciliation brings every known scope up to date; a second one changes nothing. */
  lemma ReconcileConverges(db: Db, keys: seq<ScopeKey>, again: seq<ScopeKey>)
    requires Lists(keys, KnownScopes(db)) && Lists(again, KnownScopes(Reconcile(db, keys)))
    ensures var d := Reconcile(db, keys);
      && (forall k :: k in KnownScopes(d) ==> UpToDate(d, k))
      && d.legacy == Some(db.desiredLegacy) && d.desired == db.desired
      && Reconcile(d, again) == d
  {
    var d := Reconcile(db, keys);
    var done := ReconcileScopes(db, keys, db.legacy == Some(db.desiredLegacy), db.counter);
    ReconcileScopesUpdate(db, keys, db.legacy == Some(db.desiredLegacy), db.counter);
    forall k | k in KnownScopes(d) ensures UpToDate(d, k) {
      assert k in KnownScopes(db);
      assert UpToDate(done, k);
    }
    UpToDateIsKept(d, again, d.legacy == Some(d.desiredLegacy), d.counter);
  }

  // ------------------------------------------------------------------ captures are preserved

  /**
   A reconciliation keeps what a scope captured: its sources kept their identity, or it has no row
   yet and the whole configuration still has the legacy fingerprint.
   */
  predicate Preserved(db: Db, k: ScopeKey, legacyMatches: bool) {
    if k in db.scopes then db.scopes[k].fingerprint == Fingerprint(Rows(db, k)) else legacyMatches
  }

  /** Receipts restart where only the assignment metadata of an existing scope changed. */
  predicate Revised(db: Db, k: ScopeKey) {
    k in db.scopes && db.scopes[k].sources != Rows(db, k)
  }

  /** The batch row after its scope was reconciled. */
  function Reconciled(db: Db, bk: BatchKey, legacyMatches: bool): Option<BatchRow>
    requires bk in db.batches
  {
    if !Preserved(db, bk.scope, legacyMatches) then None
    else Some(if Revised(db, bk.scope) then db.batches[bk].(imp := NEW_IMPORT) else db.batches[bk])
  }

  function BatchOf(db: Db, bk: BatchKey): Option<BatchRow> {
    if bk in db.batches then Some(db.batches[bk]) else None
  }

  /** A visit to another scope leaves the batch, its scope and the desired sources alone. */
  ghost predicate Untouched(db: Db, d: Db, bk: BatchKey) {
    && BatchOf(d, bk) == BatchOf(db, bk) && d.desired == db.desired
    && (bk.scope in d.scopes <==> bk.scope in db.scopes)
    && (bk.scope in db.scopes ==> d.scopes[bk.scope] == db.scopes[bk.scope])
  }

  lemma ReconcileScopeOtherBatch(db: Db, k: ScopeKey, legacyMatches: bool, legacyGeneration: nat, bk: BatchKey)
    requires bk.scope != k
    ensures Untouched(db, ReconcileScope(db, k, legacyMatches, legacyGeneration), bk)
  {
    if k in db.scopes && db.scopes[k].fingerprint == Fingerprint(Rows(db, k)) {
      RestampTables(db, k, Rows(db, k));
    }
  }

  lemma ReconcileScopeOwnBatch(db: Db, legacyMatches: bool, legacyGeneration: nat, bk: BatchKey)
    requires bk in db.batches
    ensures BatchOf(ReconcileScope(db, bk.scope, legacyMatches, legacyGeneration), bk) == Reconciled(db, bk, legacyMatches)
  {
    if bk.scope in db.scopes && db.scopes[bk.scope].fingerprint == Fingerprint(Rows(db, bk.scope)) {
      RestampTables(db, bk.scope, Rows(db, bk.scope));
    }
  }

  lemma {:induction false} ReconcileScopesBatch(db: Db, keys: seq<ScopeKey>, legacyMatches: bool, legacyGeneration: nat, bk: BatchKey)
    requires bk in db.batches && forall i, j :: 0 <= i < j < |keys| ==> keys[i] != keys[j]
    ensures var d := ReconcileScopes(db, keys, legacyMatches, legacyGeneration);
      if bk.scope in keys then BatchOf(d, bk) == Reconciled(db, bk, legacyMatches) else Untouched(db, d, bk)
  {
    if keys != [] {
      var init, last := keys[..|keys| - 1], keys[|keys| - 1];
      assert keys == init + [last];
      ReconcileScopesBatch(db, init, legacyMatches, legacyGeneration, bk);
      var m := ReconcileScopes(db, init, legacyMatches, legacyGeneration);
      if bk.scope == last {
        assert last !in init;
        ReconcileScopeOwnBatch(m, legacyMatches, legacyGeneration, bk);
        assert Reconciled(m, bk, legacyMatches) == Reconciled(db, bk, legacyMatches);
      } else {
        ReconcileScopeOtherBatch(m, last, legacyMatches, legacyGeneration, bk);
      }
    }
  }

  /**
   A reconciliation discards a stored batch exactly when its scope is not preserved. A kept batch
   keeps its body and captures, and its publication columns too unless assignment metadata changed.
   */
  lemma ReconcileKeepsCaptures(db: Db, keys: seq<ScopeKey>, bk: BatchKey)
    requires Lists(keys, KnownScopes(db)) && bk in db.batches
    ensures var d := Reconcile(db, keys); var matches := db.legacy == Some(db.desiredLegacy);
      && (bk in d.batches <==> Preserved(db, bk.scope, matches))
      && (bk in d.batches ==> d.batches[bk].body == db.batches[bk].body && d.batches[bk].captures == db.batches[bk].captures)
      && (bk in d.batches ==> d.batches[bk].imp == if Revised(db, bk.scope) then NEW_IMPORT else db.batches[bk].imp)
  {
    assert bk.scope in KnownScopes(db);
    ReconcileScopesBatch(db, keys, db.legacy == Some(db.desiredLegacy), db.counter, bk);
    var done := ReconcileScopes(db, keys, db.legacy == Some(db.desiredLegacy), db.counter);
    assert BatchOf(done, bk) == BatchOf(Reconcile(db, keys), bk);
  }

  // ------------------------------------------------------------------ capture markers

  /** The jobs of a scope's former and desired sources. */
  function ScopeJobs(db: Db, k: ScopeKey): set<JobKey> {
    JobsOf((if k in db.scopes then db.scopes[k].sources else []) + Rows(db, k))
  }

  /** Some visited scope that starts over concerns the job. */
  ghost predicate Cancelled(db: Db, keys: seq<ScopeKey>, legacyMatches: bool, j: JobKey) {
    exists k :: k in keys && !Preserved(db, k, legacyMatches) && j in ScopeJobs(db, k)
  }

  lemma ReconcileScopeMarkers(db: Db, k: ScopeKey, legacyMatches: bool, legacyGeneration: nat, j: JobKey)
    ensures j in ReconcileScope(db, k, legacyMatches, legacyGeneration).timeouts <==>
      j in db.timeouts && (Preserved(db, k, legacyMatches) || j !in ScopeJobs(db, k))
  {
  }

  lemma SameScope(db: Db, m: Db, k: ScopeKey, legacyMatches: bool)
    requires m.desired == db.desired && (k in m.scopes <==> k in db.scopes) && (k in db.scopes ==> m.scopes[k] == db.scopes[k])
    ensures Preserved(m, k, legacyMatches) == Preserved(db, k, legacyMatches) && ScopeJobs(m, k) == ScopeJobs(db, k)
  {
  }

  lemma {:induction false} UnvisitedScope(db: Db, keys: seq<ScopeKey>, legacyMatches: bool, legacyGeneration: nat, k: ScopeKey)
    requires k !in keys
    ensures var m := ReconcileScopes(db, keys, legacyMatches, legacyGeneration);
      m.desired == db.desired && (k in m.scopes <==> k in db.scopes) && (k in db.scopes ==> m.scopes[k] == db.scopes[k])
  {
    if keys != [] {
      var init, last := keys[..|keys| - 1], keys[|keys| - 1];
      UnvisitedScope(db, init, legacyMatches, legacyGeneration, k);
      ReconcileScopeUpdates(ReconcileScopes(db, init, legacyMatches, legacyGeneration), last, legacyMatches, legacyGeneration);
    }
  }

  /**
   A reconciliation clears exactly the timeout markers of the former and desired sources of the
   scopes it starts over.
   */
  lemma {:induction false} RebuildClearsMarkers(db: Db, keys: seq<ScopeKey>, legacyMatches: bool, legacyGeneration: nat, j: JobKey)
    requires forall a, b :: 0 <= a < b < |keys| ==> keys[a] != keys[b]
    ensures j in ReconcileScopes(db, keys, legacyMatches, legacyGeneration).timeouts <==>
      j in db.timeouts && !Cancelled(db, keys, legacyMatches, j)
  {
    if keys != [] {
      var init, last := keys[..|keys| - 1], keys[|keys| - 1];
      assert keys == init + [last] && last !in init;
      RebuildClearsMarkers(db, init, legacyMatches, legacyGeneration, j);
      var m := ReconcileScopes(db, init, legacyMatches, legacyGeneration);
      ReconcileScopeMarkers(m, last, legacyMatches, legacyGeneration, j);
      UnvisitedScope(db, init, legacyMatches, legacyGeneration, last);
      SameScope(db, m, last, legacyMatches);
      CancelledNext(db, init, last, legacyMatches, j);
    }
  }

  lemma CancelledNext(db: Db, init: seq<ScopeKey>, last: ScopeKey, legacyMatches: bool, j: JobKey)
    ensures Cancelled(db, init + [last], legacyMatches, j) <==>
      Cancelled(db, init, legacyMatches, j) || (!Preserved(db, last, legacyMatches) && j in ScopeJobs(db, last))
  {
    if Cancelled(db, init, legacyMatches, j) {
      var k :| k in init && !Preserved(db, k, legacyMatches) && j in ScopeJobs(db, k);
      assert k in init + [last];
    }
    assert last in init + [last];
  }
}
