/**
 What the history subsystem guarantees over whole runs.
 */
module HistoryTheorems {
  import opened Catalogs
  import opened HistoryBatches
  import opened HistoryTables
  import opened FailureReports
  import opened HistoryConfiguration
  import opened HistoryCapture
  import opened HistoryDelivery
  import opened HistoryRuns
  import opened RevisionProofs
  import opened DirectoryProofs
  import opened DirectorySteps
  import opened DeliveryProofs
  import opened DeliverySteps
  import opened ReportProofs
  import opened HistoryInvariant

  // ------------------------------------------------------------------ no invalidation is lost

  ghost predicate GrowsAt(scopes: map<ScopeKey, Scope>, now: map<ScopeKey, Scope>, k: ScopeKey) {
    k in scopes ==> k in now && scopes[k].revision <= now[k].revision
  }

  ghost predicate RevisionsGrow(db: Db, d: Db) {
    forall k {:trigger GrowsAt(db.scopes, d.scopes, k)} :: GrowsAt(db.scopes, d.scopes, k)
  }

  lemma GrowTransitive(a: Db, b: Db, c: Db)
    requires RevisionsGrow(a, b) && RevisionsGrow(b, c)
    ensures RevisionsGrow(a, c)
  {
    forall k ensures GrowsAt(a.scopes, c.scopes, k) {
      assert GrowsAt(a.scopes, b.scopes, k) && GrowsAt(b.scopes, c.scopes, k);
    }
  }

  lemma ReconcileScopeGrows(db: Db, k: ScopeKey, legacyMatches: bool, legacyGeneration: nat)
    requires Tracked(db)
    ensures RevisionsGrow(db, ReconcileScope(db, k, legacyMatches, legacyGeneration))
  {
    if k in db.scopes {
      assert RevisionRow(db, k);
      if db.scopes[k].fingerprint == Fingerprint(Rows(db, k)) {
        RestampTables(db, k, Rows(db, k));
      }
    }
  }

  lemma {:induction false} ReconcileScopesGrow(db: Db, keys: seq<ScopeKey>, legacyMatches: bool, legacyGeneration: nat)
    requires Stamped(db) && Tracked(db) && legacyGeneration <= db.counter
    ensures RevisionsGrow(db, ReconcileScopes(db, keys, legacyMatches, legacyGeneration))
  {
    if keys != [] {
      var init := keys[..|keys| - 1];
      ReconcileScopesGrow(db, init, legacyMatches, legacyGeneration);
      ReconcileScopesTracks(db, init, legacyMatches, legacyGeneration);
      ReconcileScopeGrows(ReconcileScopes(db, init, legacyMatches, legacyGeneration), keys[|keys| - 1],
                          legacyMatches, legacyGeneration);
      GrowTransitive(db, ReconcileScopes(db, init, legacyMatches, legacyGeneration),
                     ReconcileScopes(db, keys, legacyMatches, legacyGeneration));
    }
  }

  lemma InvalidateGrows(db: Db, realm: Option<Uuid>)
    requires Stamped(db)
    ensures RevisionsGrow(db, Invalidate(db, realm))
  {
    if realm.Some? {
      InvalidateTables(db, realm.value);
    }
  }

  lemma ApplyGrows(db: Db, q: Quantum, fetched: seq<User>)
    ensures RevisionsGrow(db, ApplyRefresh(db, q, fetched))
  {
    if QuantumCurrent(db, q) && BatchPhase(q.row) && q.batch.Some? {
      assert RevisionsGrow(db, RewriteBatch(db, q));
    }
  }

  lemma NextGrows(s: State, e: Event)
    requires Inv(s)
    ensures RevisionsGrow(s.db, Next(s, e).db)
  {
    if !TouchesScopes(e) {
      ScopesUntouched(s, e);
    } else if Enabled(s, e) {
      match e
      case Reconciled(keys) =>
        ReconcileScopesGrow(s.db, keys, s.db.legacy == Some(s.db.desiredLegacy), s.db.counter);
      case DirectoryChanged(realm) => InvalidateGrows(s.db, realm);
      case Apply(q, fetched) => ApplyGrows(s.db, q, fetched);
      case Defer(q, code) => if DeferCurrent(s.db, q) { DeferTables(s.db, q, code); }
    }
  }

  lemma {:induction false} RunGrows(s: State, events: seq<Event>)
    requires Inv(s)
    ensures RevisionsGrow(s.db, Run(s, events).db)
    decreases |events|
  {
    if events != [] {
      var t := Next(s, events[0]);
      NextGrows(s, events[0]);
      NextInv(s, events[0]);
      RunGrows(t, events[1..]);
      GrowTransitive(s.db, t.db, Run(s, events).db);
    }
  }

  /**
   No invalidation is lost. Once a directory change of `realm` was recorded as revision `g`, in
   every later state every scope of the realm that existed then is either still refreshing or has
   acknowledged `g` or a newer revision.
   */
  lemma InvalidationReachesEveryScope(s: State, realm: Uuid, later: seq<Event>, k: ScopeKey)
    requires Inv(s) && k in s.db.scopes && k.realm == realm
    ensures var g := s.db.counter + 1;
      var t := Run(Next(s, DirectoryChanged(Some(realm))), later);
      && k in t.db.scopes && g <= t.db.scopes[k].revision
      && (t.db.scopes[k].pending || g <= t.db.scopes[k].ack)
  {
    var m := Next(s, DirectoryChanged(Some(realm)));
    InvalidateTables(s.db, realm);
    NextInv(s, DirectoryChanged(Some(realm)));
    RunGrows(m, later);
    RunInv(m, later);
    var t := Run(m, later);
    assert GrowsAt(m.db.scopes, t.db.scopes, k);
    assert RevisionRow(t.db, k);
  }

  /** A realm's revision is outstanding exactly while some scope of the realm is refreshing. */
  lemma RevisionOutstanding(s: State, events: seq<Event>, k: ScopeKey)
    requires Initial(s) && k in Run(s, events).db.scopes
    ensures var t := Run(s, events).db;
      k.realm in t.revisions <==> exists o :: o in t.scopes && o.realm == k.realm && t.scopes[o].pending
  {
    AlwaysInv(s, events);
    assert RevisionRow(Run(s, events).db, k);
  }

  lemma ApplyDeletes(db: Db, q: Quantum, fetched: seq<User>, realm: Uuid)
    requires realm in db.revisions && realm !in ApplyRefresh(db, q, fetched).revisions
    ensures RealmAcknowledged(ApplyRefresh(db, q, fetched).scopes, realm, db.revisions[realm])
  {
  }

  lemma OnlyApplyDeletes(s: State, e: Event, realm: Uuid)
    requires Inv(s) && realm in s.db.revisions && !e.Apply?
    ensures realm in Next(s, e).db.revisions
  {
    if !TouchesScopes(e) {
      ScopesUntouched(s, e);
    } else if e.Reconciled? {
      ReconcileScopesTracks(s.db, e.keys, s.db.legacy == Some(s.db.desiredLegacy), s.db.counter);
    } else if e.DirectoryChanged? && e.realm.Some? {
      InvalidateTables(s.db, e.realm.value);
    }
  }

  /** The revision row goes only once every scope of the realm has acknowledged it. */
  lemma RevisionDeletedWhenAcknowledged(s: State, e: Event, realm: Uuid)
    requires Inv(s) && realm in s.db.revisions && realm !in Next(s, e).db.revisions
    ensures RealmAcknowledged(Next(s, e).db.scopes, realm, s.db.revisions[realm])
  {
    if e.Apply? {
      ApplyDeletes(s.db, e.quantum, e.fetched, realm);
    } else {
      OnlyApplyDeletes(s, e, realm);
    }
  }

  // ------------------------------------------------------------------ stale quanta have no effect

  /**
   A prepared quantum changes anything only while its scope is exactly where it was read: same
   generation, sources, target revision, cursors and assembled directory, and the desired sources
   still match. Any reconciliation, invalidation or progress in between makes it a no-op.
   */
  lemma StaleQuantumIsNoOp(s: State, q: Quantum, fetched: seq<User>)
    requires Inv(s) && q in s.quanta && Next(s, Apply(q, fetched)) != s
    ensures q.key in s.db.scopes
    ensures var now := s.db.scopes[q.key];
      && SamePosition(q.row, now) && now.pending && now.attempts < DIRECTORY_WRITE_MAX_ATTEMPTS
      && now.sources == q.row.sources && now.revision == q.row.revision && now.users == q.row.users
      && now.fingerprint == Fingerprint(Rows(s.db, q.key))
  {
    assert QuantumRow(s.db.scopes, s.db.batches, q);
    assert Advances(q.row, s.db.scopes[q.key]);
  }

  lemma RewrittenMessages(db: Db, q: Quantum, bk: BatchKey)
    requires Bodies(db.batches) && QuantumRow(db.scopes, db.batches, q) && q.batch.Some? && bk in db.batches
    ensures var d := RewriteBatch(db, q);
      && bk in d.batches && d.batches[bk].captures == db.batches[bk].captures
      && d.batches[bk].body.messages == db.batches[bk].body.messages
  {
    var read := BatchKey(q.key, q.batch.value.fromId);
    if read in db.batches && db.batches[read].body.hash == q.batch.value.body.hash {
      assert BodyRow(read, db.batches[read]);
      SameHashSameBody(db.batches[read].body, q.batch.value.body);
      WithDirectoryFacts(q.batch.value.body, q.row.users);
    }
  }

  lemma ApplyBatches(db: Db, q: Quantum, fetched: seq<User>)
    ensures var d := ApplyRefresh(db, q, fetched);
      d.batches == db.batches || (q.key in db.scopes && q.batch.Some? && d == RewriteBatch(db, q))
  {
  }

  /** A rewrite keeps every message, flag and reaction that is stored at that moment. */
  lemma RewriteKeepsCaptures(s: State, q: Quantum, fetched: seq<User>, bk: BatchKey)
    requires Inv(s) && q in s.quanta && bk in s.db.batches
    ensures bk in Next(s, Apply(q, fetched)).db.batches
    ensures Next(s, Apply(q, fetched)).db.batches[bk].body.messages == s.db.batches[bk].body.messages
    ensures Next(s, Apply(q, fetched)).db.batches[bk].captures == s.db.batches[bk].captures
  {
    assert QuantumRow(s.db.scopes, s.db.batches, q);
    ApplyBatches(s.db, q, fetched);
    if q.batch.Some? {
      RewrittenMessages(s.db, q, bk);
    }
  }

  /**
   Whatever was captured is stored: in every reachable state the flags a user has on a message
   are that user's own last observation among the captures saved since the last rebuild, and the
   common state of the message is the last one captured.
   */
  lemma StoredIsWhatWasCaptured(s: State, events: seq<Event>, bk: BatchKey, id: nat, user: nat)
    requires Initial(s) && bk in Run(s, events).db.batches
    ensures var row := Run(s, events).db.batches[bk];
      && WellFormed(row.body)
      && CoreAt(row.body, id) == LastCore(row.captures, id)
      && FlagAt(row.body, id, user) == LastFlag(row.captures, id, user)
  {
    AlwaysInv(s, events);
    var row := Run(s, events).db.batches[bk];
    assert BodyRow(bk, row);
    FoldRefinesLog(row.captures, id, user);
    assert Messages(row.body) == Messages(MergeAll(row.captures));
  }

  /** Everything a save under authority does. */
  lemma SaveEffect(db: Db, c: Capture, job: JobKey)
    requires CaptureCurrent(db, c, true) && Unchanged(db, c) && Prepared(c).Ok?
    ensures var bk := BatchKey(c.key, c.incoming.fromId);
      var row := if bk in db.batches then db.batches[bk] else BatchRow(c.incoming, NEW_IMPORT, []);
      SaveCapture(db, c, job, true) == db.(timeouts := db.timeouts - {job},
        batches := db.batches[bk := BatchRow(Prepared(c).value, row.imp, row.captures + [c.incoming])])
  {
    assert [] + [c.incoming] == [c.incoming];
  }

  lemma PreparedSaves(s: State, c: Capture)
    requires Inv(s) && c in s.captures
    ensures Prepared(c).Ok?
  {
    assert CaptureRow(s.db.scopes, c);
    PreparedFacts(c);
  }

  /** A successful save is recorded at once, and only adds to what the row already holds. */
  lemma SavedCaptureIsRecorded(s: State, c: Capture, job: JobKey)
    requires Inv(s) && c in s.captures && CaptureCurrent(s.db, c, true) && Unchanged(s.db, c)
    ensures var bk := BatchKey(c.key, c.incoming.fromId); var d := Next(s, Save(c, job, true)).db;
      && bk in d.batches
      && d.batches[bk].captures == (if bk in s.db.batches then s.db.batches[bk].captures else []) + [c.incoming]
  {
    PreparedSaves(s, c);
    SaveEffect(s.db, c, job);
  }

  // ------------------------------------------------------------------ acknowledged means covered

  /**
   A pass that acknowledges has covered its scope: its directory is the fold of one catalogue of
   each source account, in order, and every stored batch of the scope contains every user of it.
   */
  lemma AcknowledgedMeansCovered(s: State, q: Quantum, fetched: seq<User>)
    requires Inv(s) && q in s.quanta && Canonical(fetched, UserId)
    requires q.key in s.db.scopes && s.db.scopes[q.key].pending
    requires !Next(s, Apply(q, fetched)).db.scopes[q.key].pending
    ensures var d := Next(s, Apply(q, fetched)).db; var scope := d.scopes[q.key];
      && scope.ack == scope.revision
      && Answered(scope.catalogs) == Accounts(scope.sources) && scope.users == Assembled(scope.catalogs)
      && forall bk :: bk in d.batches && bk.scope == q.key ==> Knows(d.batches[bk].body, scope.users)
  {
    var t := Next(s, Apply(q, fetched));
    NextInv(s, Apply(q, fetched));
    assert QuantumRow(s.db.scopes, s.db.batches, q);
    assert Advances(q.row, s.db.scopes[q.key]);
    AcknowledgedInBatchPhase(s.db, q, fetched);
    FinishedPass(t, q.key);
  }

  lemma AcknowledgedInBatchPhase(db: Db, q: Quantum, fetched: seq<User>)
    requires QuantumCurrent(db, q) ==> q.row.sources == db.scopes[q.key].sources
    requires q.key in db.scopes && db.scopes[q.key].pending
    ensures !ApplyRefresh(db, q, fetched).scopes[q.key].pending ==> BatchPhase(ApplyRefresh(db, q, fetched).scopes[q.key])
  {
    if QuantumCurrent(db, q) && BatchPhase(q.row) && q.batch.Some? {
      RewriteKeepsPending(db, q);
    }
  }

  lemma RewriteKeepsPending(db: Db, q: Quantum)
    requires q.key in db.scopes && q.batch.Some?
    ensures RewriteBatch(db, q).scopes[q.key].pending == db.scopes[q.key].pending
  {
  }

  /** A scope that is not refreshing and has an assembled directory is covered by it. */
  lemma FinishedPass(s: State, k: ScopeKey)
    requires Inv(s) && k in s.db.scopes && !s.db.scopes[k].pending && BatchPhase(s.db.scopes[k])
    ensures var scope := s.db.scopes[k];
      && scope.ack == scope.revision
      && Answered(scope.catalogs) == Accounts(scope.sources) && scope.users == Assembled(scope.catalogs)
      && forall bk :: bk in s.db.batches && bk.scope == k ==> Knows(s.db.batches[bk].body, scope.users)
  {
    var scope := s.db.scopes[k];
    assert PassRow(scope) && RevisionRow(s.db, k);
    assert Accounts(scope.sources)[..|Accounts(scope.sources)|] == Accounts(scope.sources);
    forall bk | bk in s.db.batches && bk.scope == k ensures Knows(s.db.batches[bk].body, scope.users) {
      assert SettledAt(s.db.scopes, bk, s.db.batches[bk]);
    }
  }

  /** And it stays covered: captures saved later use the directory of the last finished pass. */
  lemma CoveredUntilInvalidated(s: State, events: seq<Event>, bk: BatchKey)
    requires Initial(s) && bk in Run(s, events).db.batches && bk.scope in Run(s, events).db.scopes
    requires !Run(s, events).db.scopes[bk.scope].pending
    ensures Knows(Run(s, events).db.batches[bk].body, Run(s, events).db.scopes[bk.scope].users)
  {
    AlwaysInv(s, events);
    var d := Run(s, events).db;
    assert SettledAt(d.scopes, bk, d.batches[bk]);
  }
}
