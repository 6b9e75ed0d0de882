/**
 What holds of every scope, stored body and outstanding read, so that directory refreshes never
 lose a capture and never acknowledge a batch they did not cover.
 */
module DirectoryProofs {
  import opened Catalogs
  import opened HistoryBatches
  import opened HistoryTables
  import opened FailureReports
  import opened HistoryConfiguration
  import opened HistoryCapture

  // ------------------------------------------------------------------ one scope's pass

  /** The directory assembled from the catalogues in the order they were fetched. */
  function Assembled(catalogs: seq<Fetched>): seq<User> {
    if catalogs == [] then []
    else MergeCatalog(Assembled(catalogs[..|catalogs| - 1]), catalogs[|catalogs| - 1].users)
  }

  /** The accounts that answered, in order. */
  function Answered(catalogs: seq<Fetched>): seq<Uuid> {
    if catalogs == [] then [] else Answered(catalogs[..|catalogs| - 1]) + [catalogs[|catalogs| - 1].account]
  }

  /** Every account's catalogue has been fetched. */
  ghost predicate BatchPhase(scope: Scope) {
    scope.accountCursor >= |Accounts(scope.sources)|
  }

  ghost predicate PassRow(scope: Scope) {
    && scope.fingerprint == Fingerprint(scope.sources)
    && scope.accountCursor <= |Accounts(scope.sources)|
    && |scope.catalogs| == scope.accountCursor
    && Answered(scope.catalogs) == Accounts(scope.sources)[..scope.accountCursor]
    && scope.users == Assembled(scope.catalogs)
    && (!BatchPhase(scope) ==> scope.cursor == 0)
    && (!scope.pending ==> scope.accountCursor == 0 || BatchPhase(scope))
    && scope.attempts <= DIRECTORY_WRITE_MAX_ATTEMPTS
  }

  ghost predicate Passes(scopes: map<ScopeKey, Scope>) {
    forall k {:trigger PassRow(scopes[k])} :: k in scopes ==> PassRow(scopes[k])
  }

  lemma AssembledCanonical(catalogs: seq<Fetched>)
    ensures Canonical(Assembled(catalogs), UserId)
  {
    if catalogs != [] {
      var before, last := Assembled(catalogs[..|catalogs| - 1]), catalogs[|catalogs| - 1].users;
      OverlayKeyed(before, last, UserId);
      ListingCanonical(Index(before, UserId) + Index(last, UserId), UserId);
    }
  }

  // ------------------------------------------------------------------ stored bodies

  /** Well formed, and holding exactly the messages of the captures merged so far. */
  ghost predicate BodyRow(bk: BatchKey, row: BatchRow) {
    && bk.fromId > 0
    && WellFormed(row.body) && row.body.fromId == bk.fromId
    && SameRange(row.captures) && row.captures[0].fromId == bk.fromId
    && row.body.messages == MergeAll(row.captures).messages
  }

  ghost predicate Bodies(batches: map<BatchKey, BatchRow>) {
    forall bk {:trigger BodyRow(bk, batches[bk])} :: bk in batches ==> BodyRow(bk, batches[bk])
  }

  lemma CatalogKeyed(b: Batch, users: seq<User>)
    ensures Keyed(Retained(Users(b), References(b.messages)) + Index(users, UserId), UserId)
  {
    IndexEntries(b.users, UserId);
    IndexEntries(users, UserId);
  }

  /** A rewrite touches the catalogue only: messages, flags and reactions stay as captured. */
  lemma WithDirectoryFacts(b: Batch, users: seq<User>)
    requires WellFormed(b)
    ensures var r := WithDirectory(b, users);
      && WellFormed(r) && r.fromId == b.fromId && r.messages == b.messages
      && Users(r) == Retained(Users(b), References(b.messages)) + Index(users, UserId)
  {
    CatalogKeyed(b, users);
    var catalog := Retained(Users(b), References(b.messages)) + Index(users, UserId);
    ListingCanonical(catalog, UserId);
    IndexListing(catalog, UserId);
  }

  ghost predicate Knows(b: Batch, users: seq<User>) {
    forall u :: u in users ==> u in b.users
  }

  lemma WithDirectoryKnows(b: Batch, users: seq<User>)
    requires Canonical(users, UserId)
    ensures Knows(WithDirectory(b, users), users)
  {
    var catalog := Retained(Users(b), References(b.messages)) + Index(users, UserId);
    IndexCanonical(users, UserId);
    ListingEntries(catalog);
    forall u | u in users ensures u in WithDirectory(b, users).users {
      assert catalog[u.id] == u;
    }
  }

  /** The message names the user as sender, direct recipient, reactor or observer. */
  predicate Names(m: Message, id: nat) {
    || m.core.sender == id
    || (m.core.location.Direct? && id in m.core.location.recipients)
    || (exists r :: r in m.core.reactions && r.userId == id)
    || (exists i :: 0 <= i < |m.access| && m.access[i].userId == id)
  }

  lemma {:induction false} ReferencesExact(messages: seq<Message>, id: nat)
    ensures id in References(messages) <==> exists i :: 0 <= i < |messages| && Names(messages[i], id)
  {
    if messages != [] {
      var init, last := messages[..|messages| - 1], messages[|messages| - 1];
      ReferencesExact(init, id);
      assert id in MessageReferences(last) <==> Names(last, id);
      if id in References(init) {
        var i :| 0 <= i < |init| && Names(init[i], id);
        assert Names(messages[i], id);
      }
      if i :| 0 <= i < |messages| && Names(messages[i], id) {
        if i < |init| { assert Names(init[i], id); }
      }
    }
  }

  /** On a canonical list, membership is lookup. */
  lemma ListedIffIndexed(users: seq<User>, u: User)
    requires Canonical(users, UserId)
    ensures u in users <==> u.id in Index(users, UserId) && Index(users, UserId)[u.id] == u
  {
    IndexCanonical(users, UserId);
    IndexEntries(users, UserId);
  }

  /**
   The new catalogue is the directory, plus exactly those known users outside it that some
   message still refers to.
   */
  lemma DirectoryCatalog(b: Batch, users: seq<User>, u: User)
    requires WellFormed(b) && Canonical(users, UserId)
    ensures u in WithDirectory(b, users).users <==>
      || u in users
      || (u in b.users && u.id in References(b.messages) && u.id !in Index(users, UserId))
  {
    WithDirectoryFacts(b, users);
    ListedIffIndexed(b.users, u);
    ListedIffIndexed(users, u);
    ListedIffIndexed(WithDirectory(b, users).users, u);
  }

  /** Refreshing again with the same directory changes nothing. */
  lemma WithDirectoryIdempotent(b: Batch, users: seq<User>)
    requires WellFormed(b)
    ensures WithDirectory(WithDirectory(b, users), users) == WithDirectory(b, users)
  {
    var r := WithDirectory(b, users);
    WithDirectoryFacts(b, users);
    assert Retained(Users(r), References(b.messages)) + Index(users, UserId) == Users(r);
  }

  /** Equal hashes of well-formed batches mean equal batches. */
  lemma SameHashSameBody(a: Batch, b: Batch)
    requires WellFormed(a) && WellFormed(b) && a.hash == b.hash
    ensures a == b
  {
  }

  // --------------------------------------------------------- a body and the assembled directory

  /** A row that is up to date with its scope: it knows the directory and has no older pages. */
  ghost predicate SettledRow(scope: Scope, row: BatchRow) {
    && Knows(row.body, scope.users)
    && forall p :: p in row.imp.pages ==> p.generation == scope.generation
  }

  ghost predicate SettledAt(scopes: map<ScopeKey, Scope>, bk: BatchKey, row: BatchRow) {
    if bk.scope in scopes then
      (!scopes[bk.scope].pending || bk.fromId <= scopes[bk.scope].cursor ==> SettledRow(scopes[bk.scope], row))
    else row.imp == NEW_IMPORT
  }

  ghost predicate Settled(scopes: map<ScopeKey, Scope>, batches: map<BatchKey, BatchRow>) {
    forall bk {:trigger SettledAt(scopes, bk, batches[bk])} :: bk in batches ==> SettledAt(scopes, bk, batches[bk])
  }

  // ------------------------------------------------------------------ what workers read

  /** Within one generation a pass only moves forward, and its position determines its directory. */
  ghost predicate SamePass(read: Scope, now: Scope) {
    && read.sources == now.sources && read.fingerprint == now.fingerprint && read.revision == now.revision
    && read.accountCursor <= now.accountCursor && read.cursor <= now.cursor
    && (read.accountCursor == now.accountCursor ==> read.users == now.users)
  }

  /** A later state of the same scope row: a fresh generation, or the same one further on. */
  ghost predicate Advances(read: Scope, now: Scope) {
    read.generation < now.generation || (read.generation == now.generation && SamePass(read, now))
  }

  ghost predicate Moved(scopes: map<ScopeKey, Scope>, now: map<ScopeKey, Scope>) {
    forall k :: k in scopes ==> k in now && Advances(scopes[k], now[k])
  }

  ghost predicate ReadRow(scopes: map<ScopeKey, Scope>, k: ScopeKey, read: Scope) {
    k in scopes && Advances(read, scopes[k])
  }

  lemma ReadRowMoved(scopes: map<ScopeKey, Scope>, now: map<ScopeKey, Scope>, k: ScopeKey, read: Scope)
    requires ReadRow(scopes, k, read) && Moved(scopes, now)
    ensures ReadRow(now, k, read)
  {
    assert Advances(scopes[k], now[k]);
  }

  ghost predicate SamePosition(read: Scope, now: Scope) {
    read.generation == now.generation && read.cursor == now.cursor && read.accountCursor == now.accountCursor
  }

  /** Ranges that appeared before the quantum's batch since it was read are already settled. */
  ghost predicate SkippedSettled(scope: Scope, batches: map<BatchKey, BatchRow>, q: Quantum)
    requires q.batch.Some?
  {
    SamePosition(q.row, scope) ==>
      forall bk :: bk in batches && bk.scope == q.key && q.row.cursor < bk.fromId < q.batch.value.fromId ==>
        SettledRow(scope, batches[bk])
  }

  ghost predicate ReadBatchOk(q: Quantum)
    requires q.batch.Some?
  {
    && BatchPhase(q.row)
    && q.row.cursor < q.batch.value.fromId
    && WellFormed(q.batch.value.body) && q.batch.value.body.fromId == q.batch.value.fromId
  }

  ghost predicate QuantumRow(scopes: map<ScopeKey, Scope>, batches: map<BatchKey, BatchRow>, q: Quantum) {
    && ReadRow(scopes, q.key, q.row)
    && (q.batch.Some? ==> ReadBatchOk(q) && SkippedSettled(scopes[q.key], batches, q))
  }

  ghost predicate Quanta(scopes: map<ScopeKey, Scope>, batches: map<BatchKey, BatchRow>, quanta: set<Quantum>) {
    forall q :: q in quanta ==> QuantumRow(scopes, batches, q)
  }

  ghost predicate CaptureRow(scopes: map<ScopeKey, Scope>, c: Capture) {
    && ReadRow(scopes, c.key, c.row)
    && Canonical(c.row.users, UserId)
    && WellFormed(c.incoming)
    && (c.prior.Some? ==> WellFormed(c.prior.value) && c.prior.value.fromId == c.incoming.fromId)
  }

  ghost predicate Captures(scopes: map<ScopeKey, Scope>, captures: set<Capture>) {
    forall c :: c in captures ==> CaptureRow(scopes, c)
  }

  lemma CapturesMoved(scopes: map<ScopeKey, Scope>, now: map<ScopeKey, Scope>, captures: set<Capture>)
    requires Captures(scopes, captures) && Moved(scopes, now)
    ensures Captures(now, captures)
  {
    forall c | c in captures ensures CaptureRow(now, c) {
      assert CaptureRow(scopes, c);
      ReadRowMoved(scopes, now, c.key, c.row);
    }
  }

  /**
   While a scope stays where it is with its directory assembled (or none yet), settled rows stay
   settled and a row that appears is settled from the start.
   */
  ghost predicate HeldRow(scope: Scope, now: Scope, before: Option<BatchRow>, after: BatchRow) {
    (&& SamePosition(scope, now)
     && (BatchPhase(now) || now.users == [])
     && (before.Some? ==> SettledRow(scope, before.value)))
    ==> SettledRow(now, after)
  }

  function RowAt(batches: map<BatchKey, BatchRow>, bk: BatchKey): Option<BatchRow> {
    if bk in batches then Some(batches[bk]) else None
  }

  ghost predicate Held(scopes: map<ScopeKey, Scope>, batches: map<BatchKey, BatchRow>,
                       now: map<ScopeKey, Scope>, after: map<BatchKey, BatchRow>)
  {
    forall bk {:trigger HeldRow(scopes[bk.scope], now[bk.scope], RowAt(batches, bk), after[bk])} ::
      bk in after && bk.scope in scopes && bk.scope in now ==>
      HeldRow(scopes[bk.scope], now[bk.scope], RowAt(batches, bk), after[bk])
  }

  lemma QuantumHeld(scopes: map<ScopeKey, Scope>, batches: map<BatchKey, BatchRow>,
                    now: map<ScopeKey, Scope>, after: map<BatchKey, BatchRow>, q: Quantum)
    requires QuantumRow(scopes, batches, q)
    requires Moved(scopes, now) && Held(scopes, batches, now, after)
    ensures QuantumRow(now, after, q)
  {
    ReadRowMoved(scopes, now, q.key, q.row);
    if q.batch.Some? && SamePosition(q.row, now[q.key]) {
      var scope := scopes[q.key];
      assert Advances(q.row, scope) && Advances(scope, now[q.key]);
      assert SamePosition(q.row, scope) && SamePosition(scope, now[q.key]);
      forall bk | bk in after && bk.scope == q.key && q.row.cursor < bk.fromId < q.batch.value.fromId
        ensures SettledRow(now[q.key], after[bk])
      {
        assert HeldRow(scope, now[q.key], RowAt(batches, bk), after[bk]);
      }
    }
  }

  lemma QuantaHeld(scopes: map<ScopeKey, Scope>, batches: map<BatchKey, BatchRow>,
                   now: map<ScopeKey, Scope>, after: map<BatchKey, BatchRow>, quanta: set<Quantum>)
    requires Quanta(scopes, batches, quanta)
    requires Moved(scopes, now) && Held(scopes, batches, now, after)
    ensures Quanta(now, after, quanta)
  {
    forall q | q in quanta ensures QuantumRow(now, after, q) {
      QuantumHeld(scopes, batches, now, after, q);
    }
  }

  ghost predicate SameStage(scope: Scope, now: Scope) {
    SamePosition(scope, now) && scope.pending == now.pending
  }

  lemma SettledHeld(scopes: map<ScopeKey, Scope>, batches: map<BatchKey, BatchRow>,
                    now: map<ScopeKey, Scope>, after: map<BatchKey, BatchRow>)
    requires Settled(scopes, batches) && Held(scopes, batches, now, after) && Passes(now) && Bodies(after)
    requires now.Keys == scopes.Keys
    requires forall k :: k in scopes ==> SameStage(scopes[k], now[k])
    requires forall bk :: bk in after && bk.scope !in scopes ==> bk in batches && after[bk] == batches[bk]
    ensures Settled(now, after)
  {
    forall bk | bk in after ensures SettledAt(now, bk, after[bk]) {
      if bk.scope in scopes {
        var scope := now[bk.scope];
        assert SameStage(scopes[bk.scope], scope);
        assert HeldRow(scopes[bk.scope], scope, RowAt(batches, bk), after[bk]);
        assert PassRow(scope) && BodyRow(bk, after[bk]);
        if bk in batches { assert SettledAt(scopes, bk, batches[bk]); }
      } else {
        assert SettledAt(scopes, bk, batches[bk]);
      }
    }
  }
}
