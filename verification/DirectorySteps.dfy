/**
 Every transaction of the history subsystem keeps the facts of DirectoryProofs.
 */
module DirectorySteps {
  import opened Catalogs
  import opened HistoryBatches
  import opened HistoryTables
  import opened FailureReports
  import opened HistoryConfiguration
  import opened HistoryCapture
  import opened HistoryDelivery
  import opened RevisionProofs
  import opened DirectoryProofs

  /** The facts about scopes and bodies that every transaction keeps. */
  ghost predicate Sound(db: Db) {
    Passes(db.scopes) && Bodies(db.batches) && Settled(db.scopes, db.batches)
  }

  /** What one transaction promises to everything that was read before it. */
  ghost predicate Fair(db: Db, d: Db) {
    Moved(db.scopes, d.scopes) && Held(db.scopes, db.batches, d.scopes, d.batches)
  }

  // ------------------------------------------------------------------ changing one scope row

  lemma ScopeMoved(scopes: map<ScopeKey, Scope>, k: ScopeKey, now: Scope)
    requires k in scopes ==> Advances(scopes[k], now)
    ensures Moved(scopes, scopes[k := now])
  {
  }

  /** A row change that keeps the directory known to every batch. */
  lemma SameUsersHeld(scopes: map<ScopeKey, Scope>, batches: map<BatchKey, BatchRow>, k: ScopeKey, now: Scope)
    requires k in scopes ==> (SamePosition(scopes[k], now) ==> scopes[k].users == now.users)
    ensures Held(scopes, batches, scopes[k := now], batches)
  {
    forall bk | bk in batches && bk.scope in scopes && bk.scope in scopes[k := now]
      ensures HeldRow(scopes[bk.scope], scopes[k := now][bk.scope], RowAt(batches, bk), batches[bk])
    {
    }
  }

  // ------------------------------------------------------------------ changing one batch row

  lemma RowFair(scopes: map<ScopeKey, Scope>, batches: map<BatchKey, BatchRow>, bk: BatchKey, row: BatchRow)
    requires bk.scope in scopes && HeldRow(scopes[bk.scope], scopes[bk.scope], RowAt(batches, bk), row)
    ensures Moved(scopes, scopes) && Held(scopes, batches, scopes, batches[bk := row])
  {
    var after := batches[bk := row];
    forall o | o in after && o.scope in scopes
      ensures HeldRow(scopes[o.scope], scopes[o.scope], RowAt(batches, o), after[o])
    {
    }
  }

  lemma RowSound(scopes: map<ScopeKey, Scope>, batches: map<BatchKey, BatchRow>, bk: BatchKey, row: BatchRow)
    requires Passes(scopes) && Bodies(batches) && Settled(scopes, batches)
    requires bk.scope in scopes && BodyRow(bk, row)
    requires HeldRow(scopes[bk.scope], scopes[bk.scope], RowAt(batches, bk), row)
    ensures Bodies(batches[bk := row]) && Settled(scopes, batches[bk := row])
  {
    RowFair(scopes, batches, bk, row);
    SettledHeld(scopes, batches, scopes, batches[bk := row]);
  }

  // ------------------------------------------------------------------ refresh quanta

  lemma InstalledPass(scope: Scope, fetched: seq<User>)
    requires PassRow(scope) && !BatchPhase(scope) && scope.pending
    ensures var account := Accounts(scope.sources)[scope.accountCursor];
      PassRow(scope.(users := MergeCatalog(scope.users, fetched), accountCursor := scope.accountCursor + 1,
                     attempts := 0, catalogs := scope.catalogs + [Fetched(account, fetched)]))
  {
    var accounts, n := Accounts(scope.sources), scope.accountCursor;
    var catalogs := scope.catalogs + [Fetched(accounts[n], fetched)];
    assert catalogs[..|catalogs| - 1] == scope.catalogs;
    assert accounts[..n + 1] == accounts[..n] + [accounts[n]];
  }

  lemma InstallSound(db: Db, q: Quantum, fetched: seq<User>)
    requires Sound(db) && ReadRow(db.scopes, q.key, q.row)
    requires QuantumCurrent(db, q) && !BatchPhase(q.row)
    ensures Sound(InstallCatalog(db, q, fetched)) && Fair(db, InstallCatalog(db, q, fetched))
  {
    var d := InstallCatalog(db, q, fetched);
    var scope := db.scopes[q.key];
    assert PassRow(scope) && SamePass(q.row, scope);
    InstalledPass(scope, fetched);
    ScopeMoved(db.scopes, q.key, d.scopes[q.key]);
    SameUsersHeld(db.scopes, db.batches, q.key, d.scopes[q.key]);
    forall bk | bk in d.batches ensures SettledAt(d.scopes, bk, d.batches[bk]) {
      assert SettledAt(db.scopes, bk, db.batches[bk]) && BodyRow(bk, db.batches[bk]);
    }
  }

  lemma AcknowledgeSound(db: Db, q: Quantum)
    requires Sound(db) && ReadRow(db.scopes, q.key, q.row)
    requires QuantumCurrent(db, q) && BatchPhase(q.row) && RangesAfter(db, q.key, q.row.cursor) == {}
    ensures Sound(Acknowledge(db, q.key)) && Fair(db, Acknowledge(db, q.key))
  {
    var d := Acknowledge(db, q.key);
    var scope := db.scopes[q.key];
    assert PassRow(scope) && SamePass(q.row, scope);
    ScopeMoved(db.scopes, q.key, d.scopes[q.key]);
    SameUsersHeld(db.scopes, db.batches, q.key, d.scopes[q.key]);
    forall bk | bk in d.batches ensures SettledAt(d.scopes, bk, d.batches[bk]) {
      assert SettledAt(db.scopes, bk, db.batches[bk]);
      if bk.scope == q.key {
        assert bk.fromId !in RangesAfter(db, q.key, q.row.cursor);
      }
    }
  }

  /** A rewrite replaces exactly the body it was prepared from, on the current directory. */
  lemma RewriteReplacesItsBody(db: Db, q: Quantum)
    requires Bodies(db.batches) && QuantumRow(db.scopes, db.batches, q)
    requires QuantumCurrent(db, q) && q.batch.Some? && RewriteBatch(db, q) != db
    ensures var bk := BatchKey(q.key, q.batch.value.fromId);
      && bk in db.batches
      && db.batches[bk].body == q.batch.value.body
      && q.row.users == db.scopes[q.key].users
      && RewriteBatch(db, q).batches[bk].body == WithDirectory(db.batches[bk].body, db.scopes[q.key].users)
  {
    var bk := BatchKey(q.key, q.batch.value.fromId);
    assert BodyRow(bk, db.batches[bk]);
    SameHashSameBody(db.batches[bk].body, q.batch.value.body);
    assert Advances(q.row, db.scopes[q.key]);
  }

  lemma RewriteBodies(db: Db, q: Quantum)
    requires Sound(db) && QuantumRow(db.scopes, db.batches, q)
    requires QuantumCurrent(db, q) && q.batch.Some? && RewriteBatch(db, q) != db
    ensures Bodies(RewriteBatch(db, q).batches)
    ensures SettledRow(db.scopes[q.key], RewriteBatch(db, q).batches[BatchKey(q.key, q.batch.value.fromId)])
  {
    var d := RewriteBatch(db, q);
    var bk := BatchKey(q.key, q.batch.value.fromId);
    RewriteReplacesItsBody(db, q);
    assert BodyRow(bk, db.batches[bk]) && PassRow(db.scopes[q.key]);
    WithDirectoryFacts(db.batches[bk].body, q.row.users);
    AssembledCanonical(db.scopes[q.key].catalogs);
    WithDirectoryKnows(db.batches[bk].body, q.row.users);
    assert BodyRow(bk, d.batches[bk]);
  }

  lemma RewriteSettled(scopes: map<ScopeKey, Scope>, batches: map<BatchKey, BatchRow>, k: ScopeKey, now: Scope,
                       rewritten: BatchKey, row: BatchRow)
    requires Settled(scopes, batches) && k in scopes && rewritten.scope == k
    requires scopes[k].pending && now.pending && now.cursor == rewritten.fromId
    requires now.users == scopes[k].users && now.generation == scopes[k].generation
    requires SettledRow(scopes[k], row)
    requires forall bk :: bk in batches && bk.scope == k && scopes[k].cursor < bk.fromId < rewritten.fromId ==>
      SettledRow(scopes[k], batches[bk])
    ensures Settled(scopes[k := now], batches[rewritten := row])
  {
    var after := batches[rewritten := row];
    forall bk | bk in after ensures SettledAt(scopes[k := now], bk, after[bk]) {
      if bk != rewritten { assert SettledAt(scopes, bk, batches[bk]); }
    }
  }

  lemma RewriteFair(scopes: map<ScopeKey, Scope>, batches: map<BatchKey, BatchRow>, k: ScopeKey, now: Scope,
                    rewritten: BatchKey, row: BatchRow)
    requires k in scopes && rewritten.scope == k && Advances(scopes[k], now) && !SamePosition(scopes[k], now)
    ensures Moved(scopes, scopes[k := now]) && Held(scopes, batches, scopes[k := now], batches[rewritten := row])
  {
    var after := batches[rewritten := row];
    forall bk | bk in after && bk.scope in scopes && bk.scope in scopes[k := now]
      ensures HeldRow(scopes[bk.scope], scopes[k := now][bk.scope], RowAt(batches, bk), after[bk])
    {
    }
  }

  lemma RewriteSound(db: Db, q: Quantum)
    requires Sound(db) && QuantumRow(db.scopes, db.batches, q)
    requires QuantumCurrent(db, q) && q.batch.Some?
    ensures Sound(RewriteBatch(db, q)) && Fair(db, RewriteBatch(db, q))
  {
    var d := RewriteBatch(db, q);
    if d == db {
      SameUsersHeld(db.scopes, db.batches, q.key, db.scopes[q.key]);
      assert db.scopes[q.key := db.scopes[q.key]] == db.scopes;
    } else {
      var scope, now := db.scopes[q.key], d.scopes[q.key];
      var bk := BatchKey(q.key, q.batch.value.fromId);
      RewriteBodies(db, q);
      assert PassRow(scope) && Advances(q.row, scope) && SkippedSettled(scope, db.batches, q);
      assert PassRow(now);
      RewriteSettled(db.scopes, db.batches, q.key, now, bk, d.batches[bk]);
      RewriteFair(db.scopes, db.batches, q.key, now, bk, d.batches[bk]);
    }
  }

  lemma FairToItself(db: Db)
    ensures Fair(db, db)
  {
    forall bk | bk in db.batches && bk.scope in db.scopes
      ensures HeldRow(db.scopes[bk.scope], db.scopes[bk.scope], RowAt(db.batches, bk), db.batches[bk])
    {
    }
  }

  lemma ApplySound(db: Db, q: Quantum, fetched: seq<User>)
    requires Sound(db) && QuantumRow(db.scopes, db.batches, q)
    ensures Sound(ApplyRefresh(db, q, fetched)) && Fair(db, ApplyRefresh(db, q, fetched))
  {
    FairToItself(db);
    if QuantumCurrent(db, q) {
      if !BatchPhase(q.row) {
        InstallSound(db, q, fetched);
      } else if q.batch.Some? {
        RewriteSound(db, q);
      } else if RangesAfter(db, q.key, q.row.cursor) == {} {
        AcknowledgeSound(db, q);
      }
    }
  }

  lemma AttemptsOnly(db: Db, k: ScopeKey, attempts: nat)
    requires Sound(db) && k in db.scopes && attempts <= DIRECTORY_WRITE_MAX_ATTEMPTS
    ensures var d := db.(scopes := db.scopes[k := db.scopes[k].(attempts := attempts)]); Sound(d) && Fair(db, d)
  {
    var now := db.scopes[k].(attempts := attempts);
    assert PassRow(db.scopes[k]) && PassRow(now);
    ScopeMoved(db.scopes, k, now);
    SameUsersHeld(db.scopes, db.batches, k, now);
    forall o | o in db.scopes ensures SameStage(db.scopes[o], db.scopes[k := now][o]) {
    }
    SettledHeld(db.scopes, db.batches, db.scopes[k := now], db.batches);
  }

  lemma DeferSound(db: Db, q: Quantum, code: Code)
    requires Sound(db)
    ensures Sound(DeferDirectory(db, q, code)) && Fair(db, DeferDirectory(db, q, code))
  {
    FairToItself(db);
    if DeferCurrent(db, q) {
      DeferTables(db, q, code);
      AttemptsOnly(db, q.key, DeferDirectory(db, q, code).scopes[q.key].attempts);
    }
  }

  // ------------------------------------------------------------------ invalidation

  lemma InvalidatedRow(scopes: map<ScopeKey, Scope>, batches: map<BatchKey, BatchRow>, realm: Uuid, g: nat)
    requires Passes(scopes) && Bodies(batches) && Settled(scopes, batches)
    ensures Passes(InvalidateScopes(scopes, realm, g)) && Settled(InvalidateScopes(scopes, realm, g), batches)
  {
    var now := InvalidateScopes(scopes, realm, g);
    forall k | k in now ensures PassRow(now[k]) {
      assert PassRow(scopes[k]);
    }
    forall bk | bk in batches ensures SettledAt(now, bk, batches[bk]) {
      assert SettledAt(scopes, bk, batches[bk]) && BodyRow(bk, batches[bk]);
    }
  }

  lemma InvalidatedFair(scopes: map<ScopeKey, Scope>, batches: map<BatchKey, BatchRow>, realm: Uuid, g: nat)
    requires forall k :: k in scopes ==> scopes[k].generation < g
    ensures var now := InvalidateScopes(scopes, realm, g); Moved(scopes, now) && Held(scopes, batches, now, batches)
  {
    var now := InvalidateScopes(scopes, realm, g);
    forall bk | bk in batches && bk.scope in scopes && bk.scope in now
      ensures HeldRow(scopes[bk.scope], now[bk.scope], RowAt(batches, bk), batches[bk])
    {
    }
  }

  lemma InvalidateSound(db: Db, realm: Option<Uuid>)
    requires Sound(db) && Stamped(db)
    ensures Sound(Invalidate(db, realm)) && Fair(db, Invalidate(db, realm))
  {
    FairToItself(db);
    if realm.Some? {
      InvalidateTables(db, realm.value);
      InvalidatedRow(db.scopes, db.batches, realm.value, db.counter + 1);
      InvalidatedFair(db.scopes, db.batches, realm.value, db.counter + 1);
    }
  }

  // ------------------------------------------------------------------ reconciliation

  lemma RestampedPass(scope: Scope, rows: seq<Source>, generation: nat)
    requires PassRow(scope) && scope.fingerprint == Fingerprint(rows)
    ensures PassRow(scope.(sources := rows, generation := generation))
  {
    assert Accounts(rows) == Accounts(scope.sources);
  }

  lemma ResetSettled(scopes: map<ScopeKey, Scope>, batches: map<BatchKey, BatchRow>, k: ScopeKey, now: Scope)
    requires Bodies(batches) && Settled(scopes, batches) && k in scopes
    requires now == scopes[k].(sources := now.sources, generation := now.generation)
    ensures Bodies(ResetReceipts(batches, k)) && Settled(scopes[k := now], ResetReceipts(batches, k))
  {
    var after := ResetReceipts(batches, k);
    forall bk | bk in after ensures BodyRow(bk, after[bk]) && SettledAt(scopes[k := now], bk, after[bk]) {
      assert BodyRow(bk, batches[bk]) && SettledAt(scopes, bk, batches[bk]);
    }
  }

  lemma ResetHeld(scopes: map<ScopeKey, Scope>, batches: map<BatchKey, BatchRow>, k: ScopeKey, now: Scope)
    requires k in scopes && scopes[k].generation < now.generation
    ensures Held(scopes, batches, scopes[k := now], ResetReceipts(batches, k))
  {
    var after := ResetReceipts(batches, k);
    forall bk | bk in after && bk.scope in scopes && bk.scope in scopes[k := now]
      ensures HeldRow(scopes[bk.scope], scopes[k := now][bk.scope], RowAt(batches, bk), after[bk])
    {
    }
  }

  /** A scope stamped afresh: nothing read of it before is usable, its receipts start over. */
  lemma RestampSound(db: Db, k: ScopeKey, rows: seq<Source>)
    requires Sound(db) && Stamped(db) && k in db.scopes && db.scopes[k].fingerprint == Fingerprint(rows)
    ensures Sound(Restamp(db, k, rows)) && Fair(db, Restamp(db, k, rows))
  {
    var now := db.scopes[k].(sources := rows, generation := db.counter + 1);
    RestampTables(db, k, rows);
    assert PassRow(db.scopes[k]);
    RestampedPass(db.scopes[k], rows, db.counter + 1);
    ScopeMoved(db.scopes, k, now);
    ResetSettled(db.scopes, db.batches, k, now);
    ResetHeld(db.scopes, db.batches, k, now);
  }

  lemma RebuiltPass(db: Db, k: ScopeKey, rows: seq<Source>, generation: nat)
    ensures PassRow(RebuiltScope(db, k, rows, generation))
  {
  }

  lemma RebuildSound(db: Db, k: ScopeKey, rows: seq<Source>)
    requires Sound(db) && Stamped(db)
    ensures Sound(Rebuild(db, k, rows)) && Fair(db, Rebuild(db, k, rows))
  {
    var d := Rebuild(db, k, rows);
    RebuiltPass(db, k, rows, db.counter + 1);
    ScopeMoved(db.scopes, k, d.scopes[k]);
    forall bk | bk in d.batches
      ensures BodyRow(bk, d.batches[bk]) && SettledAt(d.scopes, bk, d.batches[bk])
    {
      assert BodyRow(bk, db.batches[bk]) && SettledAt(db.scopes, bk, db.batches[bk]);
    }
    forall bk | bk in d.batches && bk.scope in db.scopes && bk.scope in d.scopes
      ensures HeldRow(db.scopes[bk.scope], d.scopes[bk.scope], RowAt(db.batches, bk), d.batches[bk])
    {
    }
  }

  lemma PreserveSound(db: Db, k: ScopeKey, rows: seq<Source>, generation: nat)
    requires Sound(db) && k !in db.scopes
    ensures Sound(Preserve(db, k, rows, generation)) && Fair(db, Preserve(db, k, rows, generation))
  {
    var d := Preserve(db, k, rows, generation);
    RebuiltPass(db, k, rows, generation);
    SameUsersHeld(db.scopes, db.batches, k, d.scopes[k]);
    forall bk | bk in d.batches ensures SettledAt(d.scopes, bk, d.batches[bk]) {
      assert SettledAt(db.scopes, bk, db.batches[bk]);
    }
  }

  lemma ReconcileScopeSound(db: Db, k: ScopeKey, legacyMatches: bool, legacyGeneration: nat)
    requires Sound(db) && Stamped(db)
    ensures var d := ReconcileScope(db, k, legacyMatches, legacyGeneration); Sound(d) && Fair(db, d)
  {
    var rows := Rows(db, k);
    if k in db.scopes && db.scopes[k].fingerprint == Fingerprint(rows) {
      FairToItself(db);
      RestampSound(db, k, rows);
    } else if k !in db.scopes && legacyMatches {
      PreserveSound(db, k, rows, legacyGeneration);
    } else {
      RebuildSound(db, k, rows);
    }
  }

  // ------------------------------------------------------------------ captures

  lemma PreparedFacts(c: Capture)
    requires WellFormed(c.incoming) && Canonical(c.row.users, UserId)
    requires c.prior.Some? ==> WellFormed(c.prior.value) && c.prior.value.fromId == c.incoming.fromId
    ensures Prepared(c).Ok? && WellFormed(Prepared(c).value) && Prepared(c).value.fromId == c.incoming.fromId
    ensures Prepared(c).value.messages ==
      if c.prior.None? then c.incoming.messages else MergeSame(c.prior.value, c.incoming).messages
    ensures c.row.accountCursor > 0 && BatchPhase(c.row) ==> Knows(Prepared(c).value, c.row.users)
  {
    if c.prior.Some? {
      MergeWellFormed(c.prior.value, c.incoming);
    }
    var merged := Merge(c.prior, c.incoming).value;
    WithDirectoryFacts(merged, c.row.users);
    WithDirectoryKnows(merged, c.row.users);
  }

  /** Merging only looks at the stored messages, so a rewritten catalogue does not matter. */
  lemma CapturedBody(bk: BatchKey, row: BatchRow, incoming: Batch, body: Batch)
    requires BodyRow(bk, row) && WellFormed(incoming) && incoming.fromId == bk.fromId
    requires WellFormed(body) && body.fromId == bk.fromId
    requires body.messages == MergeSame(row.body, incoming).messages
    ensures BodyRow(bk, row.(body := body, captures := row.captures + [incoming]))
  {
    var captures := row.captures + [incoming];
    assert captures[..|captures| - 1] == row.captures;
    assert SameRange(captures);
    assert MergeAll(captures) == MergeSame(MergeAll(row.captures), incoming);
  }

  lemma SavedBody(db: Db, c: Capture, job: JobKey, held: bool)
    requires Bodies(db.batches) && CaptureRow(db.scopes, c) && SaveCapture(db, c, job, held) != db
    ensures var d := SaveCapture(db, c, job, held); var bk := BatchKey(c.key, c.incoming.fromId);
      && CaptureCurrent(db, c, held) && Unchanged(db, c)
      && d.scopes == db.scopes && bk in d.batches && d.batches == db.batches[bk := d.batches[bk]]
      && BodyRow(bk, d.batches[bk])
      && d.batches[bk].body == Prepared(c).value
      && d.batches[bk].imp == if bk in db.batches then db.batches[bk].imp else NEW_IMPORT
  {
    PreparedFacts(c);
    var bk := BatchKey(c.key, c.incoming.fromId);
    if c.prior.Some? {
      assert BodyRow(bk, db.batches[bk]);
      SameHashSameBody(db.batches[bk].body, c.prior.value);
      CapturedBody(bk, db.batches[bk], c.incoming, Prepared(c).value);
    }
  }

  /** A save uses the directory of the scope as it stands, so a row it writes is settled. */
  lemma SavedKnows(scopes: map<ScopeKey, Scope>, c: Capture)
    requires CaptureRow(scopes, c) && Passes(scopes)
    requires scopes[c.key].generation == c.row.generation && scopes[c.key].accountCursor == c.row.accountCursor
    requires BatchPhase(scopes[c.key]) || scopes[c.key].users == []
    ensures Prepared(c).Ok? && Knows(Prepared(c).value, scopes[c.key].users)
  {
    PreparedFacts(c);
    var scope := scopes[c.key];
    assert PassRow(scope) && Advances(c.row, scope);
    assert scope.accountCursor == 0 ==> scope.catalogs == [];
  }

  lemma SaveHeld(db: Db, c: Capture, job: JobKey, held: bool)
    requires Sound(db) && CaptureRow(db.scopes, c) && SaveCapture(db, c, job, held) != db
    ensures var d := SaveCapture(db, c, job, held); var bk := BatchKey(c.key, c.incoming.fromId);
      && c.key in db.scopes && bk in d.batches
      && HeldRow(db.scopes[c.key], db.scopes[c.key], RowAt(db.batches, bk), d.batches[bk])
  {
    SavedBody(db, c, job, held);
    var scope := db.scopes[c.key];
    if BatchPhase(scope) || scope.users == [] {
      SavedKnows(db.scopes, c);
    }
  }

  lemma SaveSound(db: Db, c: Capture, job: JobKey, held: bool)
    requires Sound(db) && CaptureRow(db.scopes, c)
    ensures Sound(SaveCapture(db, c, job, held)) && Fair(db, SaveCapture(db, c, job, held))
  {
    var d := SaveCapture(db, c, job, held);
    if d == db {
      FairToItself(db);
    } else {
      var bk := BatchKey(c.key, c.incoming.fromId);
      SavedBody(db, c, job, held);
      SaveHeld(db, c, job, held);
      RowSound(db.scopes, db.batches, bk, d.batches[bk]);
      RowFair(db.scopes, db.batches, bk, d.batches[bk]);
    }
  }

  // ------------------------------------------------------------------ publication columns

  /** Publication never touches a body, and only adds pages of the current generation. */
  lemma ImportSound(db: Db, bk: BatchKey, imp: Import)
    requires Sound(db) && bk in db.batches && bk.scope in db.scopes
    requires forall p :: p in imp.pages ==>
      p in db.batches[bk].imp.pages || p.generation == db.scopes[bk.scope].generation
    ensures Sound(SetImport(db, bk, imp)) && Fair(db, SetImport(db, bk, imp))
  {
    var row := db.batches[bk].(imp := imp);
    assert BodyRow(bk, db.batches[bk]) && BodyRow(bk, row);
    RowSound(db.scopes, db.batches, bk, row);
    RowFair(db.scopes, db.batches, bk, row);
  }

  lemma LeasedScope(db: Db, c: Claim)
    requires Sound(db) && Leased(db, c)
    ensures c.key.scope in db.scopes
  {
    assert SettledAt(db.scopes, c.key, db.batches[c.key]);
  }

  lemma ReleaseSound(db: Db, c: Claim, status: Status, receipt: Option<Uuid>, reset: bool)
    requires Sound(db)
    ensures Sound(Release(db, c, status, receipt, reset)) && Fair(db, Release(db, c, status, receipt, reset))
  {
    FairToItself(db);
    if Leased(db, c) {
      LeasedScope(db, c);
      ImportSound(db, c.key, ReleasedImport(db.batches[c.key].imp, status, receipt, reset));
    }
  }

  lemma SavePageSound(db: Db, c: Claim, receipt: Uuid, next: Option<string>, live: bool)
    requires Sound(db)
    ensures Sound(SavePage(db, c, receipt, next, live)) && Fair(db, SavePage(db, c, receipt, next, live))
  {
    FairToItself(db);
    if Installable(db, c, live) {
      ImportSound(db, c.key, SavePage(db, c, receipt, next, live).batches[c.key].imp);
    }
  }

  lemma TakeClaimSound(db: Db, bk: BatchKey, lease: Uuid, allowAdmission: bool)
    requires Sound(db) && bk in db.batches && bk.scope in db.scopes
    ensures Sound(TakeClaim(db, bk, lease, allowAdmission)) && Fair(db, TakeClaim(db, bk, lease, allowAdmission))
  {
    ImportSound(db, bk, ClaimedImport(db.batches[bk].imp, SourcesFor(db, bk.scope), lease, allowAdmission));
  }
}
