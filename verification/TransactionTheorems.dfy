/**
 What each transaction leaves in the columns, stated without reference to how it is computed, and
 what the workers can rely on because of it.
 */
module TransactionTheorems {
  import opened Catalogs
  import opened HistoryBatches
  import opened HistoryTables
  import opened FailureReports
  import opened HistoryConfiguration
  import opened HistoryCapture
  import opened HistoryDelivery
  import opened HistoryRuns
  import opened RevisionProofs
  import opened DirectoryProofs
  import opened DirectorySteps
  import opened DeliveryProofs
  import opened ReportProofs
  import opened HistoryInvariant
  import opened HistoryTheorems
  import opened ReportTheorems
  import opened TerminationTheorems

  // ------------------------------------------------------------------ an invalidation restarts

  /** A pass at its very beginning, for a revision not yet acknowledged. */
  predicate Restarted(scope: Scope) {
    && scope.pending && scope.accountCursor == 0 && scope.cursor == 0
    && scope.users == [] && scope.attempts == 0
  }

  /**
   A directory event of a realm restarts the pass of each of its scopes under a fresh generation and
   revision, with no attempts spent, and leaves every other scope and every batch alone.
   */
  lemma InvalidationRestartsPasses(s: State, realm: Uuid, k: ScopeKey)
    requires Inv(s) && k in s.db.scopes
    ensures var d := Next(s, DirectoryChanged(Some(realm))).db; var was := s.db.scopes[k];
      && k in d.scopes && d.batches == s.db.batches && d.timeouts == s.db.timeouts && d.desired == s.db.desired
      && if k.realm == realm then
           && Restarted(d.scopes[k])
           && d.scopes[k].generation == d.scopes[k].revision == d.counter == s.db.counter + 1
           && d.scopes[k].sources == was.sources && d.scopes[k].fingerprint == was.fingerprint && d.scopes[k].ack == was.ack
         else d.scopes[k] == was
  {
    InvalidateTables(s.db, realm);
  }

  /** An event of an account without a verified realm only uses up a generation. */
  lemma UnverifiedEventChangesNothing(s: State)
    ensures Next(s, DirectoryChanged(None)).db == s.db.(counter := s.db.counter + 1)
  {
  }

  /**
   Even a pass that had stopped for good runs again after an invalidation: some run acknowledges
   the new revision.
   */
  lemma InvalidatedPassCanComplete(s: State, realm: Uuid, k: ScopeKey) returns (events: seq<Event>)
    requires Inv(s) && k in s.db.scopes && k.realm == realm
    requires s.db.scopes[k].fingerprint == Fingerprint(Rows(s.db, k))
    ensures var t := Run(Next(s, DirectoryChanged(Some(realm))), events);
      k in t.db.scopes && !t.db.scopes[k].pending && t.db.scopes[k].ack >= s.db.counter + 1
  {
    var m := Next(s, DirectoryChanged(Some(realm)));
    InvalidationRestartsPasses(s, realm, k);
    NextInv(s, DirectoryChanged(Some(realm)));
    events := PassCanComplete(m, k);
    InvalidationReachesEveryScope(s, realm, events, k);
  }

  // ------------------------------------------------------------------ a rebuild restarts

  /** The row of a scope that a reconciliation starts over or sees for the first time. */
  ghost predicate StartedOver(db: Db, d: Db, k: ScopeKey) {
    && k in d.scopes
    && var now := d.scopes[k];
       var target := if k.realm in db.revisions then db.revisions[k.realm] else if k in db.scopes then db.scopes[k].revision else 0;
       && now.sources == Rows(db, k) && now.fingerprint == Fingerprint(Rows(db, k))
       && now.accountCursor == 0 && now.cursor == 0 && now.users == [] && now.attempts == 0
       && now.revision == target && now.ack == (if k in db.scopes then db.scopes[k].ack else 0)
       && (now.pending <==> target != now.ack || (k in db.scopes && db.scopes[k].pending))
       && (k in db.scopes ==> now.generation > db.counter)
  }

  lemma RebuildStartsOver(db: Db, k: ScopeKey, legacyMatches: bool, legacyGeneration: nat)
    requires k !in db.scopes || db.scopes[k].fingerprint != Fingerprint(Rows(db, k))
    ensures StartedOver(db, ReconcileScope(db, k, legacyMatches, legacyGeneration), k)
  {
  }

  lemma StartedOverFrom(db: Db, m: Db, d: Db, k: ScopeKey)
    requires SameAt(db, m, k) && m.desired == db.desired && m.revisions == db.revisions && db.counter <= m.counter
    requires StartedOver(m, d, k)
    ensures StartedOver(db, d, k)
  {
  }

  lemma ReconcileKeepsRevisions(db: Db, k: ScopeKey, legacyMatches: bool, legacyGeneration: nat)
    ensures ReconcileScope(db, k, legacyMatches, legacyGeneration).revisions == db.revisions
  {
  }

  lemma {:induction false} ReconcileScopesRestart(s: State, keys: seq<ScopeKey>, legacyMatches: bool, legacyGeneration: nat, k: ScopeKey)
    requires Inv(s) && legacyGeneration <= s.db.counter
    requires forall i, j :: 0 <= i < j < |keys| ==> keys[i] != keys[j]
    requires k !in s.db.scopes || s.db.scopes[k].fingerprint != Fingerprint(Rows(s.db, k))
    ensures var d := ReconcileScopes(s.db, keys, legacyMatches, legacyGeneration);
      && d.revisions == s.db.revisions && d.desired == s.db.desired && s.db.counter <= d.counter
      && if k in keys then StartedOver(s.db, d, k) else SameAt(s.db, d, k)
  {
    if keys != [] {
      var init, last := keys[..|keys| - 1], keys[|keys| - 1];
      var m := s.(db := ReconcileScopes(s.db, init, legacyMatches, legacyGeneration));
      assert keys == init + [last];
      ReconcileScopesRestart(s, init, legacyMatches, legacyGeneration, k);
      ReconcileScopesInv(s, init, legacyMatches, legacyGeneration);
      ReconcileKeeps(m.db, last, legacyMatches, legacyGeneration);
      ReconcileKeepsRevisions(m.db, last, legacyMatches, legacyGeneration);
      if k == last {
        assert last !in init;
        RebuildStartsOver(m.db, k, legacyMatches, legacyGeneration);
        StartedOverFrom(s.db, m.db, ReconcileScope(m.db, k, legacyMatches, legacyGeneration), k);
      } else {
        ReconcileScopeAt(m.db, last, legacyMatches, legacyGeneration, k);
        var d := ReconcileScope(m.db, last, legacyMatches, legacyGeneration);
        assert k in init ==> d.scopes[k] == m.db.scopes[k];
      }
    }
  }

  /** A reconciliation that changes the identity of a scope's sources gives it a clean new pass. */
  lemma ReconcileStartsOver(s: State, keys: seq<ScopeKey>, k: ScopeKey)
    requires Inv(s) && Lists(keys, KnownScopes(s.db)) && k in KnownScopes(s.db)
    requires k !in s.db.scopes || s.db.scopes[k].fingerprint != Fingerprint(Rows(s.db, k))
    ensures StartedOver(s.db, Next(s, Reconciled(keys)).db, k)
  {
    ReconcileScopesRestart(s, keys, s.db.legacy == Some(s.db.desiredLegacy), s.db.counter, k);
  }

  // ------------------------------------------------------------------ progress forgives

  /** Any applied progress clears the attempts spent so far. */
  lemma ProgressClearsAttempts(s: State, q: Quantum, fetched: seq<User>)
    requires Inv(s) && Next(s, Apply(q, fetched)) != s
    ensures q.key in s.db.scopes && Next(s, Apply(q, fetched)).db.scopes[q.key].attempts == 0
  {
    if QuantumCurrent(s.db, q) && BatchPhase(q.row) && q.batch.Some? {
      RewriteClears(s.db, q);
    }
  }

  lemma RewriteClears(db: Db, q: Quantum)
    requires q.key in db.scopes && q.batch.Some?
    ensures RewriteBatch(db, q) == db || RewriteBatch(db, q).scopes[q.key].attempts == 0
  {
  }

  /** A rewritten batch is published anew: pending, without receipt, cursor or lease. */
  lemma RewriteRestartsPublication(s: State, q: Quantum, fetched: seq<User>, bk: BatchKey)
    requires Inv(s) && q in s.quanta && bk in s.db.batches
    requires Next(s, Apply(q, fetched)).db.batches[bk] != s.db.batches[bk]
    ensures var imp := Next(s, Apply(q, fetched)).db.batches[bk].imp;
      && imp.status == Pending && imp.receipt.None? && imp.cursor.None? && imp.lease.None? && imp.pages == []
      && imp.sources == s.db.batches[bk].imp.sources
  {
    ApplyBatches(s.db, q, fetched);
    if q.batch.Some? && q.key in s.db.scopes { RewrittenColumns(s.db, q, bk); }
  }

  lemma RewrittenColumns(db: Db, q: Quantum, bk: BatchKey)
    requires q.key in db.scopes && q.batch.Some? && bk in db.batches
    ensures bk in RewriteBatch(db, q).batches
    ensures RewriteBatch(db, q).batches[bk] != db.batches[bk] ==>
      RewriteBatch(db, q).batches[bk].imp == Import(Pending, None, None, db.batches[bk].imp.sources, None, [])
  {
  }

  // ------------------------------------------------------------------ captures

  /** A save adds its capture, keeps the row's publication columns, and clears its job's marker. */
  lemma SaveLeaves(s: State, c: Capture, job: JobKey)
    requires Inv(s) && c in s.captures && CaptureCurrent(s.db, c, true) && Unchanged(s.db, c)
    ensures var bk := BatchKey(c.key, c.incoming.fromId); var d := Next(s, Save(c, job, true)).db;
      && bk in d.batches
      && d.batches[bk].imp == (if bk in s.db.batches then s.db.batches[bk].imp else NEW_IMPORT)
      && d.timeouts == s.db.timeouts - {job}
      && d.scopes == s.db.scopes && d.reports == s.db.reports
      && forall o :: o != bk && o in s.db.batches ==> o in d.batches && d.batches[o] == s.db.batches[o]
  {
    PreparedSaves(s, c);
    SaveEffect(s.db, c, job);
  }

  /** The body stored for a range, by its hash. */
  function StoredHash(db: Db, bk: BatchKey): Option<Digest> {
    if bk in db.batches then Some(db.batches[bk].body.hash) else None
  }

  /**
   A save changes nothing if the job's lease is lost, the scope has another generation or directory
   position than the capture read, or the stored body is not the one it merged with.
   */
  lemma StaleSaveIsNoOp(s: State, c: Capture, job: JobKey, held: bool)
    requires
      || !held || c.key !in s.db.scopes
      || s.db.scopes[c.key].generation != c.row.generation || s.db.scopes[c.key].accountCursor != c.row.accountCursor
      || StoredHash(s.db, BatchKey(c.key, c.incoming.fromId)) != (if c.prior.Some? then Some(c.prior.value.hash) else None)
    ensures Next(s, Save(c, job, held)) == s
  {
  }

  /**
   Until a directory is assembled a capture is stored as merged, with every user it knows; from then
   on it is stored with the directory.
   */
  lemma PreparedCatalog(c: Capture)
    requires Merge(c.prior, c.incoming).Ok?
    ensures c.row.accountCursor == 0 || c.row.accountCursor < |Accounts(c.row.sources)| ==>
      Prepared(c) == Merge(c.prior, c.incoming)
    ensures 0 < |Accounts(c.row.sources)| <= c.row.accountCursor && Canonical(c.row.users, UserId) ==>
      Prepared(c).Ok? && Knows(Prepared(c).value, c.row.users)
  {
    WithDirectoryKnowsIf(Merge(c.prior, c.incoming).value, c.row.users);
  }

  lemma WithDirectoryKnowsIf(b: Batch, users: seq<User>)
    ensures Canonical(users, UserId) ==> Knows(WithDirectory(b, users), users)
  {
    if Canonical(users, UserId) { WithDirectoryKnows(b, users); }
  }
}
