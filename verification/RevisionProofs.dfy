/**
 No realm invalidation is lost: what the generation counter and the realm revisions keep in
 every reachable state.
 */
module RevisionProofs {
  import opened Catalogs
  import opened HistoryBatches
  import opened HistoryTables
  import opened FailureReports
  import opened HistoryConfiguration

  /** The counter bounds every stamp handed out so far. */
  ghost predicate Stamped(db: Db) {
    && (forall k :: k in db.scopes ==> db.scopes[k].generation <= db.counter && db.scopes[k].revision <= db.counter)
    && (forall r :: r in db.revisions ==> 0 < db.revisions[r] <= db.counter)
  }

  ghost predicate RealmPending(scopes: map<ScopeKey, Scope>, realm: Uuid) {
    exists k :: k in scopes && k.realm == realm && scopes[k].pending
  }

  ghost predicate RevisionRow(db: Db, k: ScopeKey)
    requires k in db.scopes
  {
    var scope := db.scopes[k];
    // An outstanding revision is the target of every scope of its realm.
    && (k.realm in db.revisions ==> scope.revision == db.revisions[k.realm])
    // A scope that is not refreshing has acknowledged its target.
    && (!scope.pending ==> scope.ack == scope.revision)
    && scope.ack <= scope.revision
    // The realm's revision is outstanding exactly while some scope still refreshes.
    && (k.realm in db.revisions <==> RealmPending(db.scopes, k.realm))
  }

  ghost predicate Tracked(db: Db) {
    forall k :: k in db.scopes ==> RevisionRow(db, k)
  }

  lemma InvalidateTracks(db: Db, realm: Option<Uuid>)
    requires Stamped(db) && Tracked(db)
    ensures Stamped(Invalidate(db, realm)) && Tracked(Invalidate(db, realm))
  {
    var d := Invalidate(db, realm);
    if realm.Some? {
      forall k | k in d.scopes ensures RevisionRow(d, k) {
        assert RevisionRow(db, k);
        if k.realm == realm.value {
          assert d.scopes[k].pending;
        } else if RealmPending(db.scopes, k.realm) {
          var p :| p in db.scopes && p.realm == k.realm && db.scopes[p].pending;
          assert d.scopes[p].pending;
        }
      }
    } else {
      forall k | k in d.scopes ensures RevisionRow(d, k) {
        assert RevisionRow(db, k);
      }
    }
  }

  lemma AcknowledgeTracks(db: Db, k: ScopeKey)
    requires Stamped(db) && Tracked(db) && k in db.scopes && db.scopes[k].pending
    ensures Stamped(Acknowledge(db, k)) && Tracked(Acknowledge(db, k))
  {
    var d := Acknowledge(db, k);
    assert RevisionRow(db, k);
    assert k.realm in db.revisions;
    forall o | o in d.scopes ensures RevisionRow(d, o) {
      assert RevisionRow(db, o);
      if o.realm == k.realm {
        AcknowledgeRealm(db, k);
      } else if RealmPending(db.scopes, o.realm) {
        var p :| p in db.scopes && p.realm == o.realm && db.scopes[p].pending;
        assert d.scopes[p].pending;
      }
    }
  }

  /** The revision row goes exactly when the last refreshing scope of its realm acknowledges. */
  lemma AcknowledgeRealm(db: Db, k: ScopeKey)
    requires Tracked(db) && k in db.scopes && db.scopes[k].pending
    ensures var d := Acknowledge(db, k); k.realm in d.revisions <==> RealmPending(d.scopes, k.realm)
  {
    var d := Acknowledge(db, k);
    var g := db.scopes[k].revision;
    assert RevisionRow(db, k);
    assert db.revisions[k.realm] == g;
    if RealmAcknowledged(d.scopes, k.realm, g) {
      assert k.realm !in d.revisions;
    } else {
      var o :| o in d.scopes && o.realm == k.realm && (d.scopes[o].pending || d.scopes[o].ack != g);
      assert RevisionRow(db, o);
      assert d.scopes[o].pending;
    }
  }

  /** A change of one scope's row that keeps its place in the revision protocol. */
  lemma SameTargetTracks(db: Db, d: Db, k: ScopeKey)
    requires Stamped(db) && Tracked(db) && k in db.scopes
    requires d.revisions == db.revisions && d.counter >= db.counter
    requires k in d.scopes && d.scopes == db.scopes[k := d.scopes[k]]
    requires d.scopes[k].pending == db.scopes[k].pending && d.scopes[k].ack == db.scopes[k].ack
    requires d.scopes[k].revision == db.scopes[k].revision && d.scopes[k].generation <= d.counter
    ensures Stamped(d) && Tracked(d)
  {
    forall o | o in d.scopes ensures RevisionRow(d, o) {
      assert RevisionRow(db, o);
      if RealmPending(db.scopes, o.realm) {
        var p :| p in db.scopes && p.realm == o.realm && db.scopes[p].pending;
        assert d.scopes[p].pending;
      }
      if RealmPending(d.scopes, o.realm) {
        var p :| p in d.scopes && p.realm == o.realm && d.scopes[p].pending;
        assert db.scopes[p].pending;
      }
    }
  }

  /** A scope created while its realm's revision is outstanding starts refreshing for it. */
  lemma NewScopeStartsPending(db: Db, k: ScopeKey, rows: seq<Source>, generation: nat)
    requires Stamped(db) && k !in db.scopes
    ensures var scope := RebuiltScope(db, k, rows, generation);
      && (scope.pending <==> k.realm in db.revisions)
      && (k.realm in db.revisions ==> scope.revision == db.revisions[k.realm])
  {
  }

  lemma NewScopeTracks(db: Db, d: Db, k: ScopeKey, rows: seq<Source>, generation: nat)
    requires Stamped(db) && Tracked(db) && k !in db.scopes
    requires d.revisions == db.revisions && d.counter >= db.counter && generation <= d.counter
    requires d.scopes == db.scopes[k := RebuiltScope(db, k, rows, generation)]
    ensures Stamped(d) && Tracked(d)
  {
    NewScopeStartsPending(db, k, rows, generation);
    forall o | o in d.scopes ensures RevisionRow(d, o) {
      if k.realm == o.realm && k.realm in db.revisions {
        assert d.scopes[k].pending;
      }
      if o != k { assert RevisionRow(db, o); }
      if RealmPending(db.scopes, o.realm) {
        var p :| p in db.scopes && p.realm == o.realm && db.scopes[p].pending;
        assert d.scopes[p].pending && RevisionRow(db, p);
      }
      if RealmPending(d.scopes, o.realm) {
        var p :| p in d.scopes && p.realm == o.realm && d.scopes[p].pending;
        if p != k { assert db.scopes[p].pending && RevisionRow(db, p); }
      }
    }
  }

  /** Reconciling one scope never moves its revision target or its acknowledgement. */
  lemma ReconcileScopeTracks(db: Db, k: ScopeKey, legacyMatches: bool, legacyGeneration: nat)
    requires Stamped(db) && Tracked(db) && legacyGeneration <= db.counter
    ensures var d := ReconcileScope(db, k, legacyMatches, legacyGeneration);
      Stamped(d) && Tracked(d) && db.counter <= d.counter && d.revisions == db.revisions
  {
    var d := ReconcileScope(db, k, legacyMatches, legacyGeneration);
    var rows := Rows(db, k);
    if k in db.scopes {
      assert RevisionRow(db, k);
      if db.scopes[k].fingerprint == Fingerprint(rows) {
        if d != db {
          RestampTables(db, k, rows);
          SameTargetTracks(db, d, k);
        }
      } else {
        SameTargetTracks(db, d, k);
      }
    } else {
      NewScopeTracks(db, d, k, rows, if legacyMatches then legacyGeneration else db.counter + 1);
    }
  }

  lemma {:induction false} ReconcileScopesTracks(db: Db, keys: seq<ScopeKey>, legacyMatches: bool, legacyGeneration: nat)
    requires Stamped(db) && Tracked(db) && legacyGeneration <= db.counter
    ensures var d := ReconcileScopes(db, keys, legacyMatches, legacyGeneration);
      Stamped(d) && Tracked(d) && db.counter <= d.counter && d.revisions == db.revisions
  {
    if keys != [] {
      var init := keys[..|keys| - 1];
      ReconcileScopesTracks(db, init, legacyMatches, legacyGeneration);
      ReconcileScopeTracks(ReconcileScopes(db, init, legacyMatches, legacyGeneration),
                           keys[|keys| - 1], legacyMatches, legacyGeneration);
    }
  }

  lemma ApplyTracks(db: Db, q: Quantum, fetched: seq<User>)
    requires Stamped(db) && Tracked(db)
    ensures Stamped(ApplyRefresh(db, q, fetched)) && Tracked(ApplyRefresh(db, q, fetched))
  {
    var d := ApplyRefresh(db, q, fetched);
    if QuantumCurrent(db, q) {
      if q.row.accountCursor < |Accounts(q.row.sources)| || q.batch.Some? {
        if d != db { SameTargetTracks(db, d, q.key); }
      } else if d != db {
        AcknowledgeTracks(db, q.key);
      }
    }
  }

  lemma DeferTracks(db: Db, q: Quantum, code: Code)
    requires Stamped(db) && Tracked(db)
    ensures Stamped(DeferDirectory(db, q, code)) && Tracked(DeferDirectory(db, q, code))
  {
    if DeferCurrent(db, q) {
      SameTargetTracks(db, DeferDirectory(db, q, code), q.key);
    }
  }
}
