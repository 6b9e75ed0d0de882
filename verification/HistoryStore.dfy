/**
 The durable history tables as the workers update them: one object, one method per transaction,
 each proved to do exactly what its specification function says to the tables as a whole.
 */
module HistoryStore {
  import opened Catalogs
  import opened Decimal
  import opened HistoryBatches
  import opened HistoryTables
  import opened FailureReports
  import opened HistoryConfiguration
  import opened HistoryCapture
  import opened HistoryDelivery

  function Known(scopes: map<ScopeKey, Scope>, k: ScopeKey): Option<Scope> {
    if k in scopes then Some(scopes[k]) else None
  }

  ghost predicate Unrepeated(keys: seq<ScopeKey>) {
    forall i, j :: 0 <= i < j < |keys| ==> keys[i] != keys[j]
  }

  ghost predicate SameRows(keys: seq<ScopeKey>, scopes: map<ScopeKey, Scope>, existing: map<ScopeKey, Scope>) {
    forall k :: k in keys ==> Known(scopes, k) == Known(existing, k)
  }

  lemma LaterUnvisited(keys: seq<ScopeKey>, i: nat, before: map<ScopeKey, Scope>, after: map<ScopeKey, Scope>, existing: map<ScopeKey, Scope>)
    requires i < |keys| && SameRows(keys[i..], before, existing)
    requires Unrepeated(keys)
    requires forall o :: o != keys[i] ==> Known(after, o) == Known(before, o)
    ensures SameRows(keys[i + 1..], after, existing)
  {
    forall k | k in keys[i + 1..] ensures Known(after, k) == Known(existing, k) {
      var j :| 0 <= j < |keys[i + 1..]| && keys[i + 1..][j] == k;
      assert keys[i + 1 + j] == k && keys[i..][j + 1] == k;
      assert k != keys[i];
      assert Known(after, k) == Known(before, k);
    }
  }

  lemma ReconcileNext(db: Db, keys: seq<ScopeKey>, i: nat, matches: bool, legacyGeneration: nat)
    requires i < |keys|
    ensures ReconcileScopes(db, keys[..i + 1], matches, legacyGeneration) ==
      ReconcileScope(ReconcileScopes(db, keys[..i], matches, legacyGeneration), keys[i], matches, legacyGeneration)
  {
    assert keys[..i + 1][..i] == keys[..i] && keys[..i + 1][i] == keys[i];
  }

  class Store {
    var counter: nat
    var legacy: Option<nat>
    var revisions: map<Uuid, nat>
    var scopes: map<ScopeKey, Scope>
    var batches: map<BatchKey, BatchRow>
    var timeouts: set<JobKey>
    var reports: map<ScopeKey, Report>
    var desired: map<ScopeKey, seq<Source>>
    var desiredLegacy: nat

    /** The tables as one value. */
    function Tables(): Db
      reads this
    {
      Db(counter, legacy, revisions, scopes, batches, timeouts, reports, desired, desiredLegacy)
    }

    method NextGeneration() returns (generation: nat)
      modifies this`counter
      ensures generation == counter == old(counter) + 1
    {
      counter := counter + 1;
      generation := counter;
    }

    // ---------------------------------------------------------------- failure reports

    method Record(k: ScopeKey, generation: nat, code: Code, restartCompleted: bool)
      modifies this`reports
      ensures Tables() == FailureReports.Record(old(Tables()), k, generation, code, restartCompleted)
    {
      if k !in reports {
        reports := reports[k := NewReport(generation, code)];
      } else {
        var row := reports[k];
        var differs := row.generation != generation || row.code != code || (restartCompleted && row.complete);
        var weaker := code == CaptureTimeout && row.generation == generation && row.code != code;
        if differs && !weaker {
          reports := reports[k := NewReport(generation, code)];
        }
      }
      assert reports == FailureReports.Record(old(Tables()), k, generation, code, restartCompleted).reports;
    }

    method CarryCapture(generation: nat)
      modifies this`reports
      ensures Tables() == FailureReports.CarryCapture(old(Tables()), generation)
    {
      var failing := CaptureScopes(Tables(), generation);
      reports := map k | k in reports.Keys + failing ::
        if k in failing then
          if k !in reports then NewReport(generation, CaptureTimeout)
          else if reports[k].generation == generation then reports[k]
          else if reports[k].code == CaptureTimeout then reports[k].(generation := generation)
          else NewReport(generation, CaptureTimeout)
        else reports[k];
    }

    method CarryDirectory(generation: nat)
      modifies this`reports
      ensures Tables() == FailureReports.CarryDirectory(old(Tables()), generation)
    {
      reports := map k | k in reports ::
        if && k in scopes && scopes[k].generation == generation && scopes[k].pending
           && scopes[k].attempts >= DIRECTORY_WRITE_MAX_ATTEMPTS && reports[k].code == DirectoryTimeout
        then reports[k].(generation := generation) else reports[k];
    }

    /** The sources desired for a scope, as a query returns them now. */
    method DesiredRows(k: ScopeKey) returns (rows: seq<Source>)
      ensures rows == Rows(Tables(), k)
    {
      rows := if k in desired then desired[k] else [];
    }

    /** The columns of the scope row, then the fingerprint of the desired sources. */
    method IsCurrent(k: ScopeKey, generation: nat, code: Code) returns (current: bool)
      ensures current <==> ScopeCurrent(Tables(), k, generation, code)
    {
      if k !in scopes { return false; }
      var row := scopes[k];
      if row.pending && code != CaptureTimeout && code != DirectoryTimeout { return false; }
      if code == DirectoryTimeout && row.attempts < DIRECTORY_WRITE_MAX_ATTEMPTS { return false; }
      if row.generation != generation { return false; }
      var rows := DesiredRows(k);
      return row.fingerprint == Fingerprint(rows);
    }

    /** One reporting quantum; `account` is the account whose report was durably enqueued. */
    method FlushOnce(k: ScopeKey, candidate: Code, enabled: bool, callback: Callback) returns (account: Option<Uuid>)
      modifies this`reports
      ensures Tables() == Flush(old(Tables()), k, candidate, enabled, callback)
      ensures account.Some? ==> k in reports && reports[k].after == account
    {
      account := None;
      if k !in reports || reports[k].complete { return; }
      var work := reports[k];
      var current := IsCurrent(k, work.generation, work.code);
      if !current {
        reports := reports - {k};
        return;
      }
      var scope := scopes[k];
      var marked := HasTimeout(Tables(), scope.sources);
      var lockedTimeout := candidate == CaptureTimeout && marked;
      if work.code == CaptureTimeout && !lockedTimeout {
        // Acquire a marker that appeared meanwhile in the next quantum, never after the row lock.
        if !marked { reports := reports - {k}; }
        return;
      }
      if (scope.pending && work.code != DirectoryTimeout) || !enabled { return; }
      var rest := AccountsAfter(Accounts(scope.sources), work.after);
      if rest == {} {
        reports := reports[k := work.(complete := true)];
      } else if callback == Acknowledged {
        var next := Least(rest);
        account := Some(next);
        reports := reports[k := work.(after := account, acked := work.acked + [next])];
      } else {
        assert reports[k := work] == reports;
      }
    }

    // ---------------------------------------------------------------- configuration

    method RestampScope(k: ScopeKey, rows: seq<Source>)
      requires k in scopes
      modifies this`counter, this`scopes, this`reports, this`batches
      ensures Tables() == Restamp(old(Tables()), k, rows)
    {
      var generation := NextGeneration();
      scopes := scopes[k := scopes[k].(sources := rows, generation := generation)];
      CarryDirectory(generation);
      CarryCapture(generation);
      batches := ResetReceipts(batches, k);
    }

    /** Start the capture of a scope over; `known` and `dirty` were read before the loop. */
    method RebuildScope(k: ScopeKey, rows: seq<Source>, known: Option<Scope>, dirty: map<Uuid, nat>)
      requires known == Known(scopes, k) && dirty == revisions
      modifies this`counter, this`scopes, this`timeouts, this`reports, this`batches
      ensures Tables() == Rebuild(old(Tables()), k, rows)
    {
      var generation := NextGeneration();
      InsertScope(k, rows, known, dirty, generation);
      var affected := (if known.Some? then known.value.sources else []) + rows;
      timeouts := timeouts - JobsOf(affected);
      reports := reports - {k};
      batches := WithoutScope(batches, k);
    }

    method InsertScope(k: ScopeKey, rows: seq<Source>, known: Option<Scope>, dirty: map<Uuid, nat>, generation: nat)
      requires known == Known(scopes, k) && dirty == revisions
      modifies this`scopes
      ensures scopes == old(scopes)[k := RebuiltScope(old(Tables()), k, rows, generation)]
    {
      var revision := 0;
      var acknowledged := 0;
      if known.Some? {
        revision := known.value.revision;
        acknowledged := known.value.ack;
      }
      if k.realm in dirty {
        revision := dirty[k.realm];
      }
      var pending := revision != acknowledged || (known.Some? && known.value.pending);
      scopes := scopes[k := Scope(generation, Fingerprint(rows), rows, pending, revision, acknowledged, 0, 0, [], 0, [])];
    }

    /**
     Visit every known scope once. What exists and which realms are dirty is read before the loop,
     as the source does; no visit changes what another one still has to read.
     */
    method Reconcile(keys: seq<ScopeKey>)
      requires Lists(keys, KnownScopes(Tables()))
      modifies this
      ensures Tables() == HistoryConfiguration.Reconcile(old(Tables()), keys)
    {
      var matches, generation := legacy == Some(desiredLegacy), counter;
      VisitScopes(keys, matches, generation);
      legacy := Some(desiredLegacy);
    }

    /** The scopes not visited yet are as they were before the loop. */
    ghost predicate Unvisited(keys: seq<ScopeKey>, existing: map<ScopeKey, Scope>, dirty: map<Uuid, nat>, sources: map<ScopeKey, seq<Source>>)
      reads this
    {
      && revisions == dirty && desired == sources
      && SameRows(keys, scopes, existing)
    }

    method VisitScopes(keys: seq<ScopeKey>, matches: bool, legacyGeneration: nat)
      requires Unrepeated(keys)
      modifies this`counter, this`scopes, this`timeouts, this`reports, this`batches
      ensures Tables() == ReconcileScopes(old(Tables()), keys, matches, legacyGeneration)
    {
      var existing, dirty, sources := scopes, revisions, desired;
      ghost var start := Tables();
      var i := 0;
      while i < |keys|
        invariant 0 <= i <= |keys|
        invariant Tables() == ReconcileScopes(start, keys[..i], matches, legacyGeneration)
        invariant Unvisited(keys[i..], existing, dirty, sources)
      {
        VisitNext(keys, i, existing, dirty, sources, matches, legacyGeneration, start);
        i := i + 1;
      }
      assert keys[..i] == keys;
    }

    method VisitNext(keys: seq<ScopeKey>, i: nat, existing: map<ScopeKey, Scope>, dirty: map<Uuid, nat>,
                     sources: map<ScopeKey, seq<Source>>, matches: bool, legacyGeneration: nat, ghost start: Db)
      requires i < |keys| && Unrepeated(keys) && Unvisited(keys[i..], existing, dirty, sources)
      requires Tables() == ReconcileScopes(start, keys[..i], matches, legacyGeneration)
      modifies this`counter, this`scopes, this`timeouts, this`reports, this`batches
      ensures Tables() == ReconcileScopes(start, keys[..i + 1], matches, legacyGeneration)
      ensures Unvisited(keys[i + 1..], existing, dirty, sources)
    {
      var k := keys[i];
      assert keys[i..][0] == k;
      ghost var before := scopes;
      ReconcileNext(start, keys, i, matches, legacyGeneration);
      VisitScope(k, if k in sources then sources[k] else [], Known(existing, k), dirty, matches, legacyGeneration);
      LaterUnvisited(keys, i, before, scopes, existing);
    }

    method VisitScope(k: ScopeKey, rows: seq<Source>, known: Option<Scope>, dirty: map<Uuid, nat>,
                      matches: bool, legacyGeneration: nat)
      requires known == Known(scopes, k) && dirty == revisions && rows == Rows(Tables(), k)
      modifies this`counter, this`scopes, this`timeouts, this`reports, this`batches
      ensures Tables() == ReconcileScope(old(Tables()), k, matches, legacyGeneration)
      ensures forall o :: o != k ==> Known(scopes, o) == Known(old(scopes), o)
    {
      if known.Some? && known.value.fingerprint == Fingerprint(rows) {
        if known.value.sources != rows {
          RestampScope(k, rows);
          RestampTables(old(Tables()), k, rows);
        }
      } else if known.None? && matches {
        InsertScope(k, rows, known, dirty, legacyGeneration);
      } else {
        RebuildScope(k, rows, known, dirty);
      }
    }

    method MarkRealm(realm: Uuid) returns (generation: nat)
      modifies this`counter, this`revisions, this`scopes
      ensures generation == old(counter) + 1 && Tables() == Mark(old(Tables()), realm)
    {
      generation := NextGeneration();
      revisions := revisions[realm := generation];
      scopes := map k | k in scopes ::
        if k.realm == realm then Invalidated(scopes[k], generation) else scopes[k];
    }

    method RetireReports(generation: nat)
      modifies this`reports
      ensures Tables() == RetireDirectory(old(Tables()), generation)
    {
      reports := map k | k in reports &&
        !(k in scopes && scopes[k].generation == generation && reports[k].code == DirectoryTimeout) :: reports[k];
    }

    method InvalidateDirectory(realm: Option<Uuid>)
      modifies this`counter, this`revisions, this`scopes, this`reports
      ensures Tables() == Invalidate(old(Tables()), realm)
    {
      if realm.None? {
        var _ := NextGeneration();
      } else {
        var generation := MarkRealm(realm.value);
        RetireReports(generation);
        CarryCapture(generation);
      }
    }

    // ---------------------------------------------------------------- directory refresh

    /** The row locked for update against what the quantum read. */
    method AuthorityStands(q: Quantum) returns (current: bool)
      ensures current <==> QuantumCurrent(Tables(), q)
    {
      if q.key !in scopes { return false; }
      var row := scopes[q.key];
      if row.generation != q.row.generation || !row.pending || row.attempts >= DIRECTORY_WRITE_MAX_ATTEMPTS {
        return false;
      }
      if row.cursor != q.row.cursor || row.accountCursor != q.row.accountCursor { return false; }
      var rows := DesiredRows(q.key);
      return row.fingerprint == Fingerprint(rows);
    }

    /** Apply a prepared quantum under the authority locks; false means it had become stale. */
    method ApplyQuantum(q: Quantum, fetched: seq<User>) returns (applied: bool)
      modifies this`scopes, this`batches, this`revisions
      ensures Tables() == ApplyRefresh(old(Tables()), q, fetched)
      ensures !applied ==> Tables() == old(Tables())
      ensures applied ==> QuantumCurrent(old(Tables()), q)
    {
      var current := AuthorityStands(q);
      if !current { return false; }
      var accounts := Accounts(q.row.sources);
      if q.row.accountCursor < |accounts| {
        InstallUsers(q, accounts[q.row.accountCursor], fetched);
      } else if q.batch.Some? {
        applied := RewriteRange(q, q.batch.value);
        return;
      } else if RangesAfter(Tables(), q.key, q.row.cursor) != {} {
        return true;
      } else {
        AcknowledgeRevision(q.key);
      }
      return true;
    }

    method InstallUsers(q: Quantum, account: Uuid, fetched: seq<User>)
      requires q.key in scopes && q.row.accountCursor < |Accounts(q.row.sources)|
      requires account == Accounts(q.row.sources)[q.row.accountCursor]
      modifies this`scopes
      ensures Tables() == InstallCatalog(old(Tables()), q, fetched)
    {
      var scope := scopes[q.key];
      scopes := scopes[q.key := scope.(
        users := MergeCatalog(q.row.users, fetched), accountCursor := scope.accountCursor + 1,
        attempts := 0, catalogs := scope.catalogs + [Fetched(account, fetched)])];
    }

    /** Compare and set: a range whose body changed since it was read is left alone. */
    method RewriteRange(q: Quantum, read: ReadBatch) returns (updated: bool)
      requires q.key in scopes && q.batch == Some(read)
      modifies this`scopes, this`batches
      ensures Tables() == RewriteBatch(old(Tables()), q)
      ensures !updated ==> Tables() == old(Tables())
    {
      var bk := BatchKey(q.key, read.fromId);
      updated := bk in batches && batches[bk].body.hash == read.body.hash;
      if updated {
        batches := batches[bk := batches[bk].(
          body := WithDirectory(read.body, q.row.users), imp := RewrittenImport(batches[bk].imp))];
        scopes := scopes[q.key := scopes[q.key].(cursor := read.fromId, attempts := 0)];
      }
    }

    method AcknowledgeRevision(k: ScopeKey)
      requires k in scopes
      modifies this`scopes, this`revisions
      ensures Tables() == Acknowledge(old(Tables()), k)
    {
      var revision := scopes[k].revision;
      scopes := scopes[k := scopes[k].(pending := false, ack := revision, attempts := 0)];
      if k.realm in revisions && revisions[k.realm] == revision && RealmAcknowledged(scopes, k.realm, revision) {
        revisions := revisions - {k.realm};
      }
    }

    /** Record a failed quantum only while its revision and cursors still match. */
    method DeferQuantum(q: Quantum, code: Code) returns (changed: bool)
      modifies this`scopes, this`reports
      ensures Tables() == DeferDirectory(old(Tables()), q, code)
      ensures changed <==> DeferCurrent(old(Tables()), q)
    {
      changed := AuthorityStands(q);
      changed := changed && scopes[q.key].revision == q.row.revision && scopes[q.key].fingerprint == q.row.fingerprint;
      if changed {
        var scope := scopes[q.key];
        var attempts := scope.attempts + if code == DirectoryTimeout then 1 else 0;
        scopes := scopes[q.key := scope.(attempts := attempts)];
        if attempts >= DIRECTORY_WRITE_MAX_ATTEMPTS {
          Record(q.key, scope.generation, code, false);
        }
      }
    }

    // ---------------------------------------------------------------- captures

    /** Store a prepared capture; None asks the caller to prepare it again. */
    method SaveBatch(c: Capture, prepared: Result<Batch>, job: JobKey, held: bool) returns (saved: bool)
      requires prepared == Prepared(c)
      modifies this`batches, this`timeouts
      ensures Tables() == SaveCapture(old(Tables()), c, job, held)
      ensures !saved ==> Tables() == old(Tables())
    {
      var bk := BatchKey(c.key, c.incoming.fromId);
      saved := held && c.key in scopes && scopes[c.key].generation == c.row.generation
        && scopes[c.key].accountCursor == c.row.accountCursor && prepared.Ok?;
      if c.prior.None? {
        saved := saved && bk !in batches;
      } else {
        saved := saved && bk in batches && batches[bk].body.hash == c.prior.value.hash;
      }
      if saved {
        if c.prior.None? {
          batches := batches[bk := BatchRow(prepared.value, NEW_IMPORT, [c.incoming])];
        } else {
          batches := batches[bk := batches[bk].(body := prepared.value, captures := batches[bk].captures + [c.incoming])];
        }
        timeouts := timeouts - {job};
      }
    }

    method DeferCapture(k: ScopeKey, generation: nat, job: JobKey, held: bool)
      modifies this`timeouts, this`reports
      ensures Tables() == TimeoutCapture(old(Tables()), k, generation, job, held)
    {
      if held && k in scopes && scopes[k].generation == generation {
        timeouts := timeouts + {job};
        Record(k, generation, CaptureTimeout, true);
      }
    }

    // ---------------------------------------------------------------- publication

    /** Take a lease on a batch, restarting its receipt if the source set changed. */
    method ClaimBatch(bk: BatchKey, lease: Uuid, allowAdmission: bool) returns (item: Option<Claim>)
      requires bk in batches && bk.scope in scopes
      modifies this`batches
      ensures Tables() == TakeClaim(old(Tables()), bk, lease, allowAdmission)
      ensures item == ClaimItem(old(Tables()), bk, lease, allowAdmission)
    {
      var row, sources := batches[bk], SourcesFor(Tables(), bk.scope);
      var same := row.imp.sources == Some(sources);
      var receipt := if same then row.imp.receipt else None;
      var cursor := if same then row.imp.cursor else None;
      var imp := row.imp.(lease := Some(lease), cursor := cursor, sources := Some(sources), receipt := receipt,
                          pages := if same then row.imp.pages else []);
      batches := batches[bk := row.(imp := imp)];
      if !allowAdmission && receipt.None? {
        // A changed source set must not turn an active-only claim into an admission.
        batches := batches[bk := row.(imp := imp.(lease := None))];
        return None;
      }
      return Some(Claim(bk, lease, scopes[bk.scope].generation, sources, receipt, cursor, |sources| > MAX_SOURCES));
    }

    method ReleaseLease(c: Claim, status: Status, receipt: Option<Uuid>, reset: bool) returns (released: bool)
      modifies this`batches
      ensures Tables() == Release(old(Tables()), c, status, receipt, reset)
      ensures released <==> Leased(old(Tables()), c)
    {
      released := c.key in batches && batches[c.key].imp.lease == Some(c.lease);
      if released {
        var imp := batches[c.key].imp.(status := status, lease := None);
        if reset {
          imp := imp.(receipt := None, cursor := None, pages := []);
        } else if receipt.Some? {
          imp := imp.(receipt := receipt);
        }
        batches := batches[c.key := batches[c.key].(imp := imp)];
      }
    }

    /** The lease, the scope and the source set a claim was made under, as they are now. */
    method IsLive(c: Claim, live: bool) returns (current: bool)
      ensures current <==> Current(Tables(), c, live)
    {
      if !live || c.key !in batches || batches[c.key].imp.lease != Some(c.lease) { return false; }
      if c.key.scope !in scopes { return false; }
      var row := scopes[c.key.scope];
      if row.pending || row.generation != c.generation { return false; }
      var rows := DesiredRows(c.key.scope);
      if row.fingerprint != Fingerprint(rows) { return false; }
      var sources := Publish(rows);
      if |sources| > MAX_SOURCES + 1 { sources := sources[..MAX_SOURCES + 1]; }
      return c.sources == sources;
    }

    /** Mark the batch failed and record the report in one transaction, unless the claim is stale. */
    method FailBatch(c: Claim, receipt: Option<Uuid>, code: Code, live: bool) returns (failed: bool)
      modifies this`batches, this`reports
      ensures Tables() == Fail(old(Tables()), c, receipt, code, live)
      ensures failed <==> Current(old(Tables()), c, live)
    {
      failed := IsLive(c, live);
      if !failed {
        var _ := ReleaseLease(c, Pending, None, false);
        return;
      }
      var released := ReleaseLease(c, Failed, receipt, false);
      Record(c.key.scope, c.generation, code, false);
    }

    /** Install a page and its checkpoint atomically, unless the lease or the authority is gone. */
    method SaveReferences(c: Claim, receipt: Uuid, next: Option<string>, live: bool)
      modifies this`batches
      ensures Tables() == SavePage(old(Tables()), c, receipt, next, live)
    {
      var current := IsLive(c, live);
      var accounts, at := PublishAccounts(c.sources), if c.cursor.Some? then c.cursor.value else START;
      if !current || c.oversized || c.key.fromId == 0 || at.account >= |accounts| { return; }
      var account := accounts[at.account];
      var cursor, complete := at, false;
      if next.Some? {
        cursor := at.(after := next.value);
      } else if at.kind == UserPages {
        cursor := MappingCursor(at.account, MessagePages, Digits(c.key.fromId - 1));
      } else {
        cursor := MappingCursor(at.account + 1, UserPages, "0");
        complete := cursor.account == |accounts|;
      }
      var row := batches[c.key];
      batches := batches[c.key := row.(imp := row.imp.(
        cursor := Some(cursor), status := if complete then Complete else Pending, receipt := Some(receipt), lease := None,
        pages := row.imp.pages + [Page(receipt, c.generation, c.sources, account, at.kind, at.after, next)]))];
    }
  }
}
