/**
 Directory passes terminate: each quantum that changes anything lowers a rank of its scope, nothing
 but new work raises it, and a pass left alone reaches its acknowledgement.
 */
module TerminationTheorems {
  import opened Catalogs
  import opened HistoryBatches
  import opened HistoryTables
  import opened FailureReports
  import opened HistoryConfiguration
  import opened HistoryCapture
  import opened HistoryDelivery
  import opened HistoryRuns
  import opened RevisionProofs
  import opened DirectoryProofs
  import opened DirectorySteps
  import opened ReportProofs
  import opened HistoryInvariant
  import opened ReportTheorems

  /** Accounts still to fetch, ranges still to rewrite, and the acknowledgement itself. */
  function Work(db: Db, k: ScopeKey): nat
    requires k in db.scopes
  {
    var scope := db.scopes[k];
    var accounts := |Accounts(scope.sources)|;
    (if scope.accountCursor < accounts then accounts - scope.accountCursor else 0)
    + |RangesAfter(db, k, scope.cursor)| + 1
  }

  /** What is left of a pass, each unit of work worth all the attempts it may take. */
  ghost function Rank(db: Db, k: ScopeKey): nat {
    if k !in db.scopes || !db.scopes[k].pending || db.scopes[k].attempts > DIRECTORY_WRITE_MAX_ATTEMPTS then 0
    else (DIRECTORY_WRITE_MAX_ATTEMPTS + 1) * Work(db, k) - db.scopes[k].attempts
  }

  lemma FewerElements(small: set<nat>, large: set<nat>)
    requires small <= large
    ensures |small| <= |large| && (small != large ==> |small| < |large|)
  {
    assert large == small + (large - small);
  }

  /** Less work, whatever the attempts, means a lower rank. */
  lemma LessWork(db: Db, d: Db, k: ScopeKey)
    requires k in db.scopes && k in d.scopes && db.scopes[k].pending
    requires db.scopes[k].attempts <= DIRECTORY_WRITE_MAX_ATTEMPTS && Work(d, k) < Work(db, k)
    ensures Rank(d, k) < Rank(db, k)
  {
  }

  /** No range of the scope appears. */
  ghost predicate NoNewRange(db: Db, d: Db, k: ScopeKey) {
    forall bk :: bk in d.batches && bk.scope == k ==> bk in db.batches
  }

  lemma RangesShrink(db: Db, d: Db, k: ScopeKey, cursor: nat, further: nat)
    requires NoNewRange(db, d, k) && cursor <= further
    ensures |RangesAfter(d, k, further)| <= |RangesAfter(db, k, cursor)|
    ensures further in RangesAfter(db, k, cursor) ==> |RangesAfter(d, k, further)| < |RangesAfter(db, k, cursor)|
  {
    forall id | id in RangesAfter(d, k, further) ensures id in RangesAfter(db, k, cursor) {
      assert BatchKey(k, id) in d.batches;
    }
    FewerElements(RangesAfter(d, k, further), RangesAfter(db, k, cursor));
  }

  // ------------------------------------------------------------------ effective quanta

  lemma InstallLowers(db: Db, q: Quantum, fetched: seq<User>)
    requires QuantumCurrent(db, q) && q.row.accountCursor < |Accounts(q.row.sources)| && q.row.sources == db.scopes[q.key].sources
    ensures Rank(InstallCatalog(db, q, fetched), q.key) < Rank(db, q.key)
  {
    var d := InstallCatalog(db, q, fetched);
    assert RangesAfter(d, q.key, d.scopes[q.key].cursor) == RangesAfter(db, q.key, db.scopes[q.key].cursor);
    LessWork(db, d, q.key);
  }

  lemma RewriteLowers(db: Db, q: Quantum)
    requires QuantumCurrent(db, q) && QuantumRow(db.scopes, db.batches, q) && q.batch.Some? && RewriteBatch(db, q) != db
    ensures Rank(RewriteBatch(db, q), q.key) < Rank(db, q.key)
  {
    var d := RewriteBatch(db, q);
    RewriteTables(db, q);
    assert BatchKey(q.key, q.batch.value.fromId) in db.batches;
    RangesShrink(db, d, q.key, db.scopes[q.key].cursor, q.batch.value.fromId);
    assert d.scopes[q.key].cursor == q.batch.value.fromId;
    assert d.scopes[q.key].accountCursor == db.scopes[q.key].accountCursor;
    LessWork(db, d, q.key);
  }

  lemma ApplyLowers(s: State, q: Quantum, fetched: seq<User>)
    requires Inv(s) && q in s.quanta && ApplyRefresh(s.db, q, fetched) != s.db
    ensures Rank(ApplyRefresh(s.db, q, fetched), q.key) < Rank(s.db, q.key)
  {
    assert QuantumRow(s.db.scopes, s.db.batches, q);
    assert Advances(q.row, s.db.scopes[q.key]);
    if q.row.accountCursor < |Accounts(q.row.sources)| {
      InstallLowers(s.db, q, fetched);
    } else if q.batch.Some? {
      RewriteLowers(s.db, q);
    }
  }

  lemma DeferLowers(s: State, q: Quantum, code: Code)
    requires Inv(s) && DeferDirectory(s.db, q, code) != s.db
    ensures code == DirectoryTimeout && Rank(DeferDirectory(s.db, q, code), q.key) < Rank(s.db, q.key)
  {
    var d := DeferDirectory(s.db, q, code);
    assert s.db.scopes == s.db.scopes[q.key := s.db.scopes[q.key]];
    DeferTables(s.db, q, code);
    assert RangesAfter(d, q.key, d.scopes[q.key].cursor) == RangesAfter(s.db, q.key, s.db.scopes[q.key].cursor);
  }

  predicate Refreshes(e: Event, k: ScopeKey) {
    (e.Apply? || e.Defer?) && e.quantum.key == k
  }

  /** Every quantum that changes anything strictly lowers the rank of its scope. */
  lemma EffectiveQuantumLowersRank(s: State, e: Event, k: ScopeKey)
    requires Inv(s) && Refreshes(e, k) && Next(s, e) != s
    ensures Rank(Next(s, e).db, k) < Rank(s.db, k)
  {
    match e
    case Apply(q, fetched) => ApplyLowers(s, q, fetched);
    case Defer(q, code) => DeferLowers(s, q, code);
  }

  // ------------------------------------------------------------------ what can add work

  /** No invalidation of the realm, no change of the sources' identity, no newly captured range. */
  ghost predicate Quiet(s: State, e: Event, k: ScopeKey) {
    && k in s.db.scopes
    && e != DirectoryChanged(Some(k.realm))
    && (e.Reconciled? ==> s.db.scopes[k].fingerprint == Fingerprint(Rows(s.db, k)))
    && (e.Save? ==> NoNewRange(s.db, Next(s, e).db, k))
  }

  lemma SameScopeRank(db: Db, d: Db, k: ScopeKey)
    requires k in db.scopes && k in d.scopes && NoNewRange(db, d, k)
    requires Accounts(d.scopes[k].sources) == Accounts(db.scopes[k].sources)
    requires d.scopes[k] == db.scopes[k].(sources := d.scopes[k].sources, generation := d.scopes[k].generation)
    ensures Rank(d, k) <= Rank(db, k)
  {
    RangesShrink(db, d, k, db.scopes[k].cursor, db.scopes[k].cursor);
  }

  lemma ReconcileScopeAddsNoRange(db: Db, k: ScopeKey, legacyMatches: bool, legacyGeneration: nat)
    ensures ReconcileScope(db, k, legacyMatches, legacyGeneration).batches.Keys <= db.batches.Keys
  {
    if k in db.scopes && db.scopes[k].fingerprint == Fingerprint(Rows(db, k)) {
      RestampTables(db, k, Rows(db, k));
    }
  }

  lemma {:induction false} ReconcileAddsNoRange(db: Db, keys: seq<ScopeKey>, legacyMatches: bool, legacyGeneration: nat)
    ensures ReconcileScopes(db, keys, legacyMatches, legacyGeneration).batches.Keys <= db.batches.Keys
  {
    if keys != [] {
      ReconcileAddsNoRange(db, keys[..|keys| - 1], legacyMatches, legacyGeneration);
      ReconcileScopeAddsNoRange(ReconcileScopes(db, keys[..|keys| - 1], legacyMatches, legacyGeneration),
                                keys[|keys| - 1], legacyMatches, legacyGeneration);
    }
  }

  lemma ReconcileRank(s: State, keys: seq<ScopeKey>, k: ScopeKey)
    requires Inv(s) && k in s.db.scopes && Lists(keys, KnownScopes(s.db))
    requires s.db.scopes[k].fingerprint == Fingerprint(Rows(s.db, k))
    ensures Rank(Reconcile(s.db, keys), k) <= Rank(s.db, k)
  {
    var d := Reconcile(s.db, keys);
    var marked := ReconcileAt(s, keys, k);
    ReconcileAddsNoRange(s.db, keys, s.db.legacy == Some(s.db.desiredLegacy), s.db.counter);
    assert PassRow(s.db.scopes[k]);
    SameFingerprintSameAccounts(s.db.scopes[k].sources, Rows(s.db, k));
    SameScopeRank(s.db, d, k);
  }

  lemma ApplyElsewhere(db: Db, q: Quantum, fetched: seq<User>, k: ScopeKey)
    requires k in db.scopes && q.key != k
    ensures var d := ApplyRefresh(db, q, fetched);
      k in d.scopes && d.scopes[k] == db.scopes[k] && NoNewRange(db, d, k)
  {
    ApplyCases(db, q, fetched, k);
  }

  lemma DeferElsewhere(db: Db, q: Quantum, code: Code, k: ScopeKey)
    requires k in db.scopes && q.key != k
    ensures var d := DeferDirectory(db, q, code);
      k in d.scopes && d.scopes[k] == db.scopes[k] && d.batches == db.batches
  {
    if DeferCurrent(db, q) { DeferTables(db, q, code); }
  }

  lemma OtherRanges(s: State, e: Event)
    requires !TouchesScopes(e) && !e.Save?
    ensures Next(s, e).db.batches.Keys == s.db.batches.Keys
  {
    if e.FlushReport? {
      FlushTables(s.db, e.scope, e.candidate, e.enabled, e.callback);
    }
  }

  /** Nothing but an invalidation, a rebuild or a newly captured range adds work to a pass. */
  lemma QuietKeepsRank(s: State, e: Event, k: ScopeKey)
    requires Inv(s) && Quiet(s, e, k)
    ensures k in Next(s, e).db.scopes && Rank(Next(s, e).db, k) <= Rank(s.db, k)
  {
    if Refreshes(e, k) {
      if Next(s, e) != s { EffectiveQuantumLowersRank(s, e, k); }
      if e.Apply? { ApplyCases(s.db, e.quantum, e.fetched, k); }
    } else if !TouchesScopes(e) {
      ScopesUntouched(s, e);
      if !e.Save? { OtherRanges(s, e); }
      SameScopeRank(s.db, Next(s, e).db, k);
    } else if Enabled(s, e) {
      TouchingKeepsRank(s, e, k);
    }
  }

  lemma TouchingKeepsRank(s: State, e: Event, k: ScopeKey)
    requires Inv(s) && Quiet(s, e, k) && Enabled(s, e) && TouchesScopes(e) && !Refreshes(e, k)
    ensures k in Next(s, e).db.scopes && Rank(Next(s, e).db, k) <= Rank(s.db, k)
  {
    match e
    case Reconciled(keys) =>
      var marked := ReconcileAt(s, keys, k);
      ReconcileRank(s, keys, k);
    case DirectoryChanged(realm) =>
      if realm.Some? { InvalidateTables(s.db, realm.value); }
      SameScopeRank(s.db, Next(s, e).db, k);
    case Apply(q, fetched) =>
      ApplyElsewhere(s.db, q, fetched, k);
      SameScopeRank(s.db, Next(s, e).db, k);
    case Defer(q, code) =>
      DeferElsewhere(s.db, q, code, k);
      SameScopeRank(s.db, Next(s, e).db, k);
  }

  ghost predicate QuietThroughout(s: State, events: seq<Event>, k: ScopeKey)
    decreases |events|
  {
    events == [] || (Quiet(s, events[0], k) && QuietThroughout(Next(s, events[0]), events[1..], k))
  }

  /** How many quanta of the scope changed something along the run. */
  ghost function EffectiveQuanta(s: State, events: seq<Event>, k: ScopeKey): nat
    decreases |events|
  {
    if events == [] then 0 else
    (if Refreshes(events[0], k) && Next(s, events[0]) != s then 1 else 0)
    + EffectiveQuanta(Next(s, events[0]), events[1..], k)
  }

  /**
   A pass to which no work is added takes at most its rank many effective quanta, whatever else
   runs, so it cannot refresh forever.
   */
  lemma {:induction false} PassesTerminate(s: State, events: seq<Event>, k: ScopeKey)
    requires Inv(s) && QuietThroughout(s, events, k)
    ensures EffectiveQuanta(s, events, k) + Rank(Run(s, events).db, k) <= Rank(s.db, k)
    decreases |events|
  {
    if events != [] {
      var t := Next(s, events[0]);
      QuietKeepsRank(s, events[0], k);
      if Refreshes(events[0], k) && t != s { EffectiveQuantumLowersRank(s, events[0], k); }
      NextInv(s, events[0]);
      PassesTerminate(t, events[1..], k);
    }
  }

  // ------------------------------------------------------------------ attempts

  lemma {:induction false} ReconcileScopesSpendNothing(db: Db, keys: seq<ScopeKey>, legacyMatches: bool, legacyGeneration: nat, k: ScopeKey)
    requires k in db.scopes
    ensures var d := ReconcileScopes(db, keys, legacyMatches, legacyGeneration);
      k in d.scopes && d.scopes[k].attempts <= db.scopes[k].attempts
  {
    if keys != [] {
      ReconcileScopesSpendNothing(db, keys[..|keys| - 1], legacyMatches, legacyGeneration, k);
      var m, last := ReconcileScopes(db, keys[..|keys| - 1], legacyMatches, legacyGeneration), keys[|keys| - 1];
      ReconcileScopeSpendsNothing(m, last, legacyMatches, legacyGeneration, k);
    }
  }

  lemma ReconcileScopeSpendsNothing(db: Db, o: ScopeKey, legacyMatches: bool, legacyGeneration: nat, k: ScopeKey)
    requires k in db.scopes
    ensures var d := ReconcileScope(db, o, legacyMatches, legacyGeneration);
      k in d.scopes && d.scopes[k].attempts <= db.scopes[k].attempts
  {
    if o in db.scopes && db.scopes[o].fingerprint == Fingerprint(Rows(db, o)) {
      RestampTables(db, o, Rows(db, o));
    }
  }

  lemma ApplySpendsNothing(db: Db, q: Quantum, fetched: seq<User>, k: ScopeKey)
    requires k in db.scopes
    ensures ApplyRefresh(db, q, fetched).scopes[k].attempts <= db.scopes[k].attempts
  {
    if QuantumCurrent(db, q) && BatchPhase(q.row) && q.batch.Some? {
      assert RewriteBatch(db, q).scopes[k].attempts <= db.scopes[k].attempts;
    }
  }

  lemma OthersSpendNothing(s: State, e: Event, k: ScopeKey)
    requires k in s.db.scopes && !e.Defer?
    ensures k in Next(s, e).db.scopes && Next(s, e).db.scopes[k].attempts <= s.db.scopes[k].attempts
  {
    if !TouchesScopes(e) {
      ScopesUntouched(s, e);
    } else {
      match e
      case Reconciled(keys) =>
        ReconcileScopesSpendNothing(s.db, keys, s.db.legacy == Some(s.db.desiredLegacy), s.db.counter, k);
      case DirectoryChanged(realm) => if realm.Some? { InvalidateTables(s.db, realm.value); }
      case Apply(q, fetched) => ApplySpendsNothing(s.db, q, fetched, k);
    }
  }

  /** Only a statement timeout of the scope's own quantum spends an attempt, and exactly one. */
  lemma OnlyTimeoutsSpendAttempts(s: State, e: Event, k: ScopeKey)
    requires k in s.db.scopes && k in Next(s, e).db.scopes
    requires Next(s, e).db.scopes[k].attempts > s.db.scopes[k].attempts
    ensures e.Defer? && e.quantum.key == k && e.code == DirectoryTimeout
    ensures Next(s, e).db.scopes[k].attempts == s.db.scopes[k].attempts + 1 <= DIRECTORY_WRITE_MAX_ATTEMPTS
  {
    if !e.Defer? {
      OthersSpendNothing(s, e, k);
    } else if DeferCurrent(s.db, e.quantum) {
      DeferTables(s.db, e.quantum, e.code);
    }
  }

  lemma StillStopped(s: State, e: Event, k: ScopeKey)
    requires Inv(s) && k in s.db.scopes && StoppedPass(s.db.scopes[k]) && LeavesScope(s, e, k)
    ensures k in Next(s, e).db.scopes && StoppedPass(Next(s, e).db.scopes[k])
  {
    if !TouchesScopes(e) {
      ScopesUntouched(s, e);
    } else if Enabled(s, e) {
      if e.Reconciled? {
        ReconcileStopped(s, e.keys, k);
      } else if e.DirectoryChanged? {
        if e.realm.Some? { InvalidateTables(s.db, e.realm.value); }
      } else {
        StoppedIgnoresQuanta(s, e, k);
      }
    }
  }

  lemma StoppedIgnoresQuanta(s: State, e: Event, k: ScopeKey)
    requires k in s.db.scopes && StoppedPass(s.db.scopes[k]) && (e.Apply? || e.Defer?)
    ensures k in Next(s, e).db.scopes && Next(s, e).db.scopes[k] == s.db.scopes[k]
  {
    if e.Apply? {
      ApplyCases(s.db, e.quantum, e.fetched, k);
    } else {
      DeferLeaves(s.db, e.quantum, e.code, k);
    }
  }

  lemma ReconcileStopped(s: State, keys: seq<ScopeKey>, k: ScopeKey)
    requires Inv(s) && k in s.db.scopes && StoppedPass(s.db.scopes[k]) && Lists(keys, KnownScopes(s.db))
    requires s.db.scopes[k].fingerprint == Fingerprint(Rows(s.db, k))
    ensures var d := Reconcile(s.db, keys); k in d.scopes && StoppedPass(d.scopes[k])
  {
    var marked := ReconcileAt(s, keys, k);
  }

  /** A stopped pass stays stopped until a fresh revision or a rebuild of its scope. */
  lemma {:induction false} StoppedUntilReset(s: State, events: seq<Event>, k: ScopeKey)
    requires Inv(s) && k in s.db.scopes && StoppedPass(s.db.scopes[k]) && LeavesScopeThroughout(s, events, k)
    ensures k in Run(s, events).db.scopes && StoppedPass(Run(s, events).db.scopes[k])
    ensures EffectiveQuanta(s, events, k) == 0
    decreases |events|
  {
    if events != [] {
      StillStopped(s, events[0], k);
      if Refreshes(events[0], k) { StoppedIneffective(s, events[0], k); }
      NextInv(s, events[0]);
      StoppedUntilReset(Next(s, events[0]), events[1..], k);
    }
  }

  lemma StoppedIneffective(s: State, e: Event, k: ScopeKey)
    requires k in s.db.scopes && StoppedPass(s.db.scopes[k]) && Refreshes(e, k)
    ensures Next(s, e) == s
  {
  }

  // ------------------------------------------------------------------ progress

  /** A quantum applied right after it was read is always effective. */
  lemma FreshQuantumIsEffective(s: State, k: ScopeKey, fetched: seq<User>)
    requires Inv(s) && Refreshable(s.db, k) && s.db.scopes[k].fingerprint == Fingerprint(Rows(s.db, k))
    requires Canonical(fetched, UserId)
    ensures var q := ReadQuantum(s.db, k); var t := Next(s, ReadRefresh(k)); Next(t, Apply(q, fetched)) != t
  {
    var q := ReadQuantum(s.db, k);
    var d := ApplyRefresh(s.db, q, fetched);
    if q.row.accountCursor < |Accounts(q.row.sources)| {
      assert d.scopes[k].accountCursor == s.db.scopes[k].accountCursor + 1;
    } else if q.batch.Some? {
      var ranges := RangesAfter(s.db, k, q.row.cursor);
      assert q.batch.value.fromId in ranges;
      assert d.scopes[k].cursor == q.batch.value.fromId;
    } else {
      assert !d.scopes[k].pending;
    }
  }

  /** One fetch or rewrite and its application, with no other worker in between. */
  lemma OneQuantum(s: State, k: ScopeKey)
    requires Inv(s) && Refreshable(s.db, k) && s.db.scopes[k].fingerprint == Fingerprint(Rows(s.db, k))
    ensures var t := Next(Next(s, ReadRefresh(k)), Apply(ReadQuantum(s.db, k), []));
      && Inv(t) && Rank(t.db, k) < Rank(s.db, k) && t.db.desired == s.db.desired && k in t.db.scopes
      && t.db.scopes[k].attempts <= s.db.scopes[k].attempts && t.db.scopes[k].fingerprint == s.db.scopes[k].fingerprint
  {
    var q := ReadQuantum(s.db, k);
    FreshQuantumIsEffective(s, k, []);
    ReadRefreshInv(s, k);
    OneApplication(Next(s, ReadRefresh(k)), q);
  }

  lemma OneApplication(m: State, q: Quantum)
    requires Inv(m) && q in m.quanta && q.key in m.db.scopes && Next(m, Apply(q, [])) != m
    ensures var t := Next(m, Apply(q, []));
      && Inv(t) && Rank(t.db, q.key) < Rank(m.db, q.key) && t.db.desired == m.db.desired && q.key in t.db.scopes
      && t.db.scopes[q.key].attempts <= m.db.scopes[q.key].attempts
      && t.db.scopes[q.key].fingerprint == m.db.scopes[q.key].fingerprint
  {
    NextInv(m, Apply(q, []));
    EffectiveQuantumLowersRank(m, Apply(q, []), q.key);
    ApplySpendsNothing(m.db, q, [], q.key);
    ApplyKeepsSources(m.db, q);
  }

  lemma ApplyKeepsSources(db: Db, q: Quantum)
    requires q.key in db.scopes
    ensures var d := ApplyRefresh(db, q, []);
      && d.desired == db.desired && q.key in d.scopes
      && d.scopes[q.key].fingerprint == db.scopes[q.key].fingerprint
  {
    if QuantumCurrent(db, q) && BatchPhase(q.row) && q.batch.Some? {
      var d := RewriteBatch(db, q);
      assert d == db || d.scopes[q.key] == db.scopes[q.key].(cursor := q.batch.value.fromId, attempts := 0);
    }
  }

  /** No pass can get stuck: wherever it may still run, some run acknowledges it. */
  lemma {:induction false} PassCanComplete(s: State, k: ScopeKey) returns (events: seq<Event>)
    requires Inv(s) && k in s.db.scopes && !StoppedPass(s.db.scopes[k])
    requires s.db.scopes[k].fingerprint == Fingerprint(Rows(s.db, k))
    ensures k in Run(s, events).db.scopes && !Run(s, events).db.scopes[k].pending
    decreases Rank(s.db, k)
  {
    if !s.db.scopes[k].pending {
      events := [];
    } else {
      var read, apply := ReadRefresh(k), Apply(ReadQuantum(s.db, k), []);
      OneQuantum(s, k);
      var rest := PassCanComplete(Next(Next(s, read), apply), k);
      events := [read] + ([apply] + rest);
      assert events[1..] == [apply] + rest && ([apply] + rest)[1..] == rest;
    }
  }
}
