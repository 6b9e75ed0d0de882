/**
 Scoped capture invalidation and bounded directory-only refreshes
 (workspace_zulip_bridge/history_configuration.py).
 */
module HistoryConfiguration {
  import opened Catalogs
  import opened HistoryBatches
  import opened HistoryTables
  import opened FailureReports

  // ------------------------------------------------------------------ with_directory

  function MessageReferences(m: Message): set<nat> {
    {m.core.sender}
    + (if m.core.location.Direct? then set r | r in m.core.location.recipients else {})
    + (set r | r in m.core.reactions :: r.userId)
    + (set i | 0 <= i < |m.access| :: m.access[i].userId)
  }

  function References(messages: seq<Message>): set<nat> {
    if messages == [] then {}
    else References(messages[..|messages| - 1]) + MessageReferences(messages[|messages| - 1])
  }

  function Retained(users: map<nat, User>, referenced: set<nat>): map<nat, User> {
    map id | id in users && id in referenced :: users[id]
  }

  /** A batch whose catalogue is the directory plus the referenced identities it lacks. */
  function WithDirectory(b: Batch, users: seq<User>): Batch {
    SealBatch(b.fromId, b.toId,
              Listing(Retained(Users(b), References(b.messages)) + Index(users, UserId)),
              b.messages)
  }

  method CollectReferences(messages: seq<Message>) returns (referenced: set<nat>)
    ensures referenced == References(messages)
  {
    referenced := {};
    for i := 0 to |messages|
      invariant referenced == References(messages[..i])
    {
      var core := messages[i].core;
      referenced := referenced + {core.sender};
      if core.location.Direct? {
        referenced := referenced + set id | id in core.location.recipients;
      }
      referenced := referenced + (set r | r in core.reactions :: r.userId);
      referenced := referenced + (set j | 0 <= j < |messages[i].access| :: messages[i].access[j].userId);
      assert messages[..i + 1][..i] == messages[..i];
    }
    assert messages[..|messages|] == messages;
  }

  method RetainUsers(users: seq<User>, referenced: set<nat>) returns (catalog: map<nat, User>)
    ensures catalog == Retained(Index(users, UserId), referenced)
  {
    catalog := map[];
    for i := 0 to |users|
      invariant catalog == Retained(Index(users[..i], UserId), referenced)
    {
      if users[i].id in referenced {
        catalog := catalog[users[i].id := users[i]];
      }
      assert users[..i + 1][..i] == users[..i];
    }
    assert users[..|users|] == users;
  }

  method OverlayUsers(kept: map<nat, User>, users: seq<User>) returns (catalog: map<nat, User>)
    ensures catalog == kept + Index(users, UserId)
  {
    catalog := kept;
    for i := 0 to |users|
      invariant catalog == kept + Index(users[..i], UserId)
    {
      catalog := catalog[users[i].id := users[i]];
      assert users[..i + 1][..i] == users[..i];
    }
    assert users[..|users|] == users;
  }

  /** The same step by step: collect references, keep those users, overlay the directory. */
  method BuildWithDirectory(b: Batch, users: seq<User>) returns (r: Batch)
    ensures r == WithDirectory(b, users)
  {
    var referenced := CollectReferences(b.messages);
    var kept := RetainUsers(b.users, referenced);
    var catalog := OverlayUsers(kept, users);
    r := SealBatch(b.fromId, b.toId, Listing(catalog), b.messages);
  }

  // ------------------------------------------------------------------ reconcile

  /** The scopes one reconciliation visits. */
  function KnownScopes(db: Db): set<ScopeKey> {
    db.desired.Keys + db.scopes.Keys + (set bk | bk in db.batches :: bk.scope)
  }

  /** Backend receipts restart: catalogue revisions preserve the captured observations. */
  function ResetReceipts(batches: map<BatchKey, BatchRow>, k: ScopeKey): map<BatchKey, BatchRow> {
    map bk | bk in batches :: if bk.scope == k then batches[bk].(imp := NEW_IMPORT) else batches[bk]
  }

  function WithoutScope(batches: map<BatchKey, BatchRow>, k: ScopeKey): map<BatchKey, BatchRow> {
    map bk | bk in batches && bk.scope != k :: batches[bk]
  }

  function Stamp(db: Db, k: ScopeKey, rows: seq<Source>): Db
    requires k in db.scopes
  {
    var g := db.counter + 1;
    db.(counter := g, scopes := db.scopes[k := db.scopes[k].(sources := rows, generation := g)])
  }

  /** A revision of assignment metadata only: new generation, same capture. */
  function Restamp(db: Db, k: ScopeKey, rows: seq<Source>): Db
    requires k in db.scopes
  {
    var g := db.counter + 1;
    var carried := CarryCapture(CarryDirectory(Stamp(db, k, rows), g), g);
    carried.(batches := ResetReceipts(carried.batches, k))
  }

  function JobsOf(rows: seq<Source>): set<JobKey> {
    set i | 0 <= i < |rows| :: JobOf(rows[i])
  }

  /** The row of a scope whose capture starts over. */
  function RebuiltScope(db: Db, k: ScopeKey, rows: seq<Source>, generation: nat): Scope {
    var known := k in db.scopes;
    var revision :=
      if k.realm in db.revisions then db.revisions[k.realm]
      else if known then db.scopes[k].revision else 0;
    var ack := if known then db.scopes[k].ack else 0;
    var pending := revision != ack || (known && db.scopes[k].pending);
    Scope(generation, Fingerprint(rows), rows, pending, revision, ack, 0, 0, [], 0, [])
  }

  function Rebuild(db: Db, k: ScopeKey, rows: seq<Source>): Db {
    var g := db.counter + 1;
    var former := if k in db.scopes then db.scopes[k].sources else [];
    db.(counter := g,
        scopes := db.scopes[k := RebuiltScope(db, k, rows, g)],
        timeouts := db.timeouts - JobsOf(former + rows),
        reports := db.reports - {k},
        batches := WithoutScope(db.batches, k))
  }

  /** The first row of a scope whose captures predate scoped configuration. */
  function Preserve(db: Db, k: ScopeKey, rows: seq<Source>, generation: nat): Db {
    db.(scopes := db.scopes[k := RebuiltScope(db, k, rows, generation)])
  }

  function ReconcileScope(db: Db, k: ScopeKey, legacyMatches: bool, legacyGeneration: nat): Db {
    var rows := Rows(db, k);
    if k in db.scopes && db.scopes[k].fingerprint == Fingerprint(rows) then
      if db.scopes[k].sources == rows then db else Restamp(db, k, rows)
    else if k !in db.scopes && legacyMatches then Preserve(db, k, rows, legacyGeneration)
    else Rebuild(db, k, rows)
  }

  function ReconcileScopes(db: Db, keys: seq<ScopeKey>, legacyMatches: bool, legacyGeneration: nat): Db {
    if keys == [] then db
    else ReconcileScope(ReconcileScopes(db, keys[..|keys| - 1], legacyMatches, legacyGeneration),
                        keys[|keys| - 1], legacyMatches, legacyGeneration)
  }

  predicate Lists(keys: seq<ScopeKey>, scopes: set<ScopeKey>) {
    && (forall k :: k in keys ==> k in scopes) && (forall k :: k in scopes ==> k in keys)
    && (forall i, j :: 0 <= i < j < |keys| ==> keys[i] != keys[j])
  }

  /** One reconciliation, visiting the known scopes in the order `keys`. */
  function Reconcile(db: Db, keys: seq<ScopeKey>): Db
    requires Lists(keys, KnownScopes(db))
  {
    var done := ReconcileScopes(db, keys, db.legacy == Some(db.desiredLegacy), db.counter);
    done.(legacy := Some(db.desiredLegacy))
  }

  // ------------------------------------------------------------------ invalidate_directory

  function Invalidated(scope: Scope, generation: nat): Scope {
    scope.(generation := generation, revision := generation, pending := true,
           accountCursor := 0, cursor := 0, users := [], attempts := 0, catalogs := [])
  }

  function InvalidateScopes(scopes: map<ScopeKey, Scope>, realm: Uuid, generation: nat): map<ScopeKey, Scope> {
    map k | k in scopes :: if k.realm == realm then Invalidated(scopes[k], generation) else scopes[k]
  }

  function Mark(db: Db, realm: Uuid): Db {
    var g := db.counter + 1;
    db.(counter := g, revisions := db.revisions[realm := g], scopes := InvalidateScopes(db.scopes, realm, g))
  }

  /** Directory reports of the scopes stamped with `generation` are retired. */
  function RetireDirectory(db: Db, generation: nat): Db {
    db.(reports := map k | k in db.reports &&
      !(k in db.scopes && db.scopes[k].generation == generation && db.reports[k].code == DirectoryTimeout)
      :: db.reports[k])
  }

  /** `realm` is the verified realm of the account whose event arrived, if it has one. */
  function Invalidate(db: Db, realm: Option<Uuid>): Db {
    var g := db.counter + 1;
    if realm.None? then db.(counter := g)
    else CarryCapture(RetireDirectory(Mark(db, realm.value), g), g)
  }

  // ------------------------------------------------------------------ refresh_once

  /** A batch as a refresh quantum read it. */
  datatype ReadBatch = ReadBatch(fromId: nat, body: Batch)

  /** What a refresh worker read before preparing outside SQL. */
  datatype Quantum = Quantum(key: ScopeKey, row: Scope, batch: Option<ReadBatch>)

  predicate Refreshable(db: Db, k: ScopeKey) {
    k in db.scopes && db.scopes[k].pending && db.scopes[k].attempts < DIRECTORY_WRITE_MAX_ATTEMPTS
  }

  function ReadQuantum(db: Db, k: ScopeKey): Quantum
    requires Refreshable(db, k)
  {
    var scope := db.scopes[k];
    var ranges := RangesAfter(db, k, scope.cursor);
    if scope.accountCursor < |Accounts(scope.sources)| || ranges == {} then Quantum(k, scope, None)
    else
      var fromId := Least(ranges);
      Quantum(k, scope, Some(ReadBatch(fromId, db.batches[BatchKey(k, fromId)].body)))
  }

  /** The authority a prepared quantum still needs when it is applied. */
  predicate QuantumCurrent(db: Db, q: Quantum) {
    && Refreshable(db, q.key)
    && db.scopes[q.key].generation == q.row.generation
    && db.scopes[q.key].cursor == q.row.cursor
    && db.scopes[q.key].accountCursor == q.row.accountCursor
    && db.scopes[q.key].fingerprint == Fingerprint(Rows(db, q.key))
  }

  function InstallCatalog(db: Db, q: Quantum, fetched: seq<User>): Db
    requires q.key in db.scopes && q.row.accountCursor < |Accounts(q.row.sources)|
  {
    var scope := db.scopes[q.key];
    var account := Accounts(q.row.sources)[q.row.accountCursor];
    db.(scopes := db.scopes[q.key := scope.(
      users := MergeCatalog(q.row.users, fetched), accountCursor := scope.accountCursor + 1,
      attempts := 0, catalogs := scope.catalogs + [Fetched(account, fetched)])])
  }

  function RewrittenImport(imp: Import): Import {
    imp.(status := Pending, receipt := None, cursor := None, lease := None, pages := [])
  }

  function RewriteBatch(db: Db, q: Quantum): Db
    requires q.key in db.scopes && q.batch.Some?
  {
    var bk := BatchKey(q.key, q.batch.value.fromId);
    if bk !in db.batches || db.batches[bk].body.hash != q.batch.value.body.hash then db
    else db.(
      batches := db.batches[bk := db.batches[bk].(
        body := WithDirectory(q.batch.value.body, q.row.users),
        imp := RewrittenImport(db.batches[bk].imp))],
      scopes := db.scopes[q.key := db.scopes[q.key].(cursor := bk.fromId, attempts := 0)])
  }

  predicate RealmAcknowledged(scopes: map<ScopeKey, Scope>, realm: Uuid, generation: nat) {
    forall k :: k in scopes && k.realm == realm ==> !scopes[k].pending && scopes[k].ack == generation
  }

  function Acknowledge(db: Db, k: ScopeKey): Db
    requires k in db.scopes
  {
    var scope := db.scopes[k];
    var scopes := db.scopes[k := scope.(pending := false, ack := scope.revision, attempts := 0)];
    db.(scopes := scopes,
        revisions :=
          if k.realm in db.revisions && db.revisions[k.realm] == scope.revision
             && RealmAcknowledged(scopes, k.realm, scope.revision)
          then db.revisions - {k.realm} else db.revisions)
  }

  /** Applying a prepared quantum under the authority locks. */
  function ApplyRefresh(db: Db, q: Quantum, fetched: seq<User>): Db {
    if !QuantumCurrent(db, q) then db
    else if q.row.accountCursor < |Accounts(q.row.sources)| then InstallCatalog(db, q, fetched)
    else if q.batch.Some? then RewriteBatch(db, q)
    else if RangesAfter(db, q.key, q.row.cursor) != {} then db
    else Acknowledge(db, q.key)
  }

  predicate DeferCurrent(db: Db, q: Quantum) {
    QuantumCurrent(db, q) && db.scopes[q.key].revision == q.row.revision
      && db.scopes[q.key].fingerprint == q.row.fingerprint
  }

  /** A failed quantum: only a statement timeout spends an attempt. */
  function DeferDirectory(db: Db, q: Quantum, code: Code): Db {
    if !DeferCurrent(db, q) then db else
    var scope := db.scopes[q.key];
    var attempts := scope.attempts + if code == DirectoryTimeout then 1 else 0;
    var deferred := db.(scopes := db.scopes[q.key := scope.(attempts := attempts)]);
    if attempts >= DIRECTORY_WRITE_MAX_ATTEMPTS then
      Record(deferred, q.key, scope.generation, code, false)
    else deferred
  }

  // ------------------------------------------------------- which tables each transaction touches

  lemma DeferTables(db: Db, q: Quantum, code: Code)
    requires DeferCurrent(db, q)
    ensures var d := DeferDirectory(db, q, code);
      var attempts := db.scopes[q.key].attempts + if code == DirectoryTimeout then 1 else 0;
      && d.scopes == db.scopes[q.key := db.scopes[q.key].(attempts := attempts)]
      && attempts <= DIRECTORY_WRITE_MAX_ATTEMPTS && d.batches == db.batches
  {
  }

  lemma InvalidateTables(db: Db, realm: Uuid)
    ensures var d := Invalidate(db, Some(realm));
      && d.scopes == InvalidateScopes(db.scopes, realm, db.counter + 1) && d.batches == db.batches
      && d.counter == db.counter + 1 && d.revisions == db.revisions[realm := db.counter + 1]
  {
  }

  lemma RestampTables(db: Db, k: ScopeKey, rows: seq<Source>)
    requires k in db.scopes
    ensures var d := Restamp(db, k, rows);
      && d.scopes == db.scopes[k := db.scopes[k].(sources := rows, generation := db.counter + 1)]
      && d.batches == ResetReceipts(db.batches, k) && d.counter == db.counter + 1
  {
  }

  lemma RewriteTables(db: Db, q: Quantum)
    requires q.key in db.scopes && q.batch.Some?
    ensures var d := RewriteBatch(db, q);
      && d.reports == db.reports && d.scopes.Keys == db.scopes.Keys
      && forall k :: k in db.scopes ==> d.scopes[k].sources == db.scopes[k].sources
  {
  }

  lemma ApplyTables(db: Db, q: Quantum, fetched: seq<User>)
    ensures var d := ApplyRefresh(db, q, fetched);
      && d.reports == db.reports && d.scopes.Keys == db.scopes.Keys
      && forall k :: k in db.scopes ==> d.scopes[k].sources == db.scopes[k].sources
  {
    if QuantumCurrent(db, q) && q.row.accountCursor >= |Accounts(q.row.sources)| && q.batch.Some? {
      RewriteTables(db, q);
    }
  }
}
