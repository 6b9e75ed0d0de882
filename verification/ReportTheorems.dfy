/**
 What failure reporting guarantees over whole runs: cursor soundness, precedence between codes,
 and the fate of the report of a stopped directory pass.
 */
module ReportTheorems {
  import opened Catalogs
  import opened HistoryBatches
  import opened HistoryTables
  import opened FailureReports
  import opened HistoryConfiguration
  import opened HistoryCapture
  import opened HistoryDelivery
  import opened HistoryRuns
  import opened RevisionProofs
  import opened DirectoryProofs
  import opened ReportProofs
  import opened HistoryInvariant

  // ------------------------------------------------------------------ one scope at a time

  /** A scope's report after a revision of its assignment metadata. */
  function RestampedReport(prior: Option<Report>, scope: Scope, marked: bool, generation: nat): Option<Report> {
    var kept :=
      if prior.Some? && StoppedPass(scope) && prior.value.code == DirectoryTimeout
      then Some(prior.value.(generation := generation)) else prior;
    if marked then Some(Carried(kept, generation)) else kept
  }

  /** A scope's report after its realm was invalidated. */
  function InvalidatedReport(prior: Option<Report>, marked: bool, generation: nat): Option<Report> {
    var kept := if prior.Some? && prior.value.code == DirectoryTimeout then None else prior;
    if marked then Some(Carried(kept, generation)) else kept
  }

  lemma CarryCaptureAt(db: Db, generation: nat, o: ScopeKey)
    ensures ReportOf(CarryCapture(db, generation), o) ==
      if o in CaptureScopes(db, generation) then Some(Carried(ReportOf(db, o), generation)) else ReportOf(db, o)
  {
  }

  lemma CarryDirectoryAt(db: Db, generation: nat, o: ScopeKey)
    ensures ReportOf(CarryDirectory(db, generation), o) ==
      if o in db.reports && StoppedReport(db, generation, o)
      then Some(db.reports[o].(generation := generation)) else ReportOf(db, o)
  {
  }

  lemma RestampAt(db: Db, k: ScopeKey, rows: seq<Source>, o: ScopeKey)
    requires Stamped(db) && k in db.scopes
    ensures ReportOf(Restamp(db, k, rows), o) ==
      if o == k then RestampedReport(ReportOf(db, k), db.scopes[k], HasTimeout(db, rows), db.counter + 1)
      else ReportOf(db, o)
  {
    var g := db.counter + 1;
    var stamped := Stamp(db, k, rows);
    CarryDirectoryAt(stamped, g, o);
    CarryCaptureAt(CarryDirectory(stamped, g), g, o);
    assert stamped.timeouts == db.timeouts;
  }

  lemma InvalidateAt(db: Db, realm: Uuid, o: ScopeKey)
    requires Stamped(db)
    ensures ReportOf(Invalidate(db, Some(realm)), o) ==
      if o in db.scopes && o.realm == realm
      then InvalidatedReport(ReportOf(db, o), HasTimeout(db, db.scopes[o].sources), db.counter + 1)
      else ReportOf(db, o)
  {
    var g := db.counter + 1;
    var retired := RetireDirectory(Mark(db, realm), g);
    RetiredAt(db, realm, o);
    InvalidatedCaptures(db, retired, realm, o);
    CarryCaptureAt(retired, g, o);
    CarriedReport(ReportOf(db, o), ReportOf(retired, o), o in db.scopes && o.realm == realm,
                  o in db.scopes && HasTimeout(db, db.scopes[o].sources), g);
  }

  lemma SameMarkers(db: Db, d: Db, rows: seq<Source>)
    requires d.timeouts == db.timeouts
    ensures HasTimeout(d, rows) == HasTimeout(db, rows)
  {
  }

  /** The scopes whose capture failures an invalidation carries are those of the realm with a marker. */
  lemma InvalidatedCaptures(db: Db, d: Db, realm: Uuid, o: ScopeKey)
    requires Stamped(db) && d.timeouts == db.timeouts && d.scopes == InvalidateScopes(db.scopes, realm, db.counter + 1)
    ensures o in CaptureScopes(d, db.counter + 1) <==> o in db.scopes && o.realm == realm && HasTimeout(db, db.scopes[o].sources)
  {
    if o in db.scopes {
      assert d.scopes[o].sources == db.scopes[o].sources;
      SameMarkers(db, d, db.scopes[o].sources);
    }
  }

  lemma CarriedReport(prior: Option<Report>, retired: Option<Report>, affected: bool, marked: bool, generation: nat)
    requires retired == if affected && prior.Some? && prior.value.code == DirectoryTimeout then None else prior
    ensures (if affected && marked then Some(Carried(retired, generation)) else retired)
      == if affected then InvalidatedReport(prior, marked, generation) else prior
  {
  }

  lemma RetiredAt(db: Db, realm: Uuid, o: ScopeKey)
    requires Stamped(db)
    ensures var g := db.counter + 1; var retired := RetireDirectory(Mark(db, realm), g);
      && ReportOf(retired, o) ==
           (if o in db.scopes && o.realm == realm && ReportOf(db, o).Some? && ReportOf(db, o).value.code == DirectoryTimeout
            then None else ReportOf(db, o))
      && retired.timeouts == db.timeouts && retired.scopes == InvalidateScopes(db.scopes, realm, g)
  {
  }

  lemma ReconcileScopeAt(db: Db, k: ScopeKey, legacyMatches: bool, legacyGeneration: nat, o: ScopeKey)
    requires Stamped(db) && o != k
    ensures var d := ReconcileScope(db, k, legacyMatches, legacyGeneration);
      ReportOf(d, o) == ReportOf(db, o) && (o in d.scopes <==> o in db.scopes) && (o in d.scopes ==> d.scopes[o] == db.scopes[o])
  {
    if k in db.scopes && db.scopes[k].fingerprint == Fingerprint(Rows(db, k)) {
      RestampAt(db, k, Rows(db, k), o);
      RestampTables(db, k, Rows(db, k));
    }
  }

  lemma RecordAt(db: Db, k: ScopeKey, generation: nat, code: Code, restart: bool, o: ScopeKey)
    ensures ReportOf(Record(db, k, generation, code, restart), o) ==
      if o == k then Some(Recorded(ReportOf(db, k), generation, code, restart)) else ReportOf(db, o)
  {
  }

  // ------------------------------------------------------- what one event can do to a report

  /**
   `now` continues `prior`: the same failure with the same progress under a possibly newer
   generation, one that starts from nothing, or none at all.
   */
  ghost predicate Continues(prior: Option<Report>, now: Option<Report>) {
    now.Some? ==>
      || (now.value.acked == [] && now.value.after.None? && !now.value.complete)
      || (prior.Some? && now.value == prior.value.(generation := now.value.generation))
  }

  /** Within one generation a capture timeout never takes the place of another failure. */
  ghost predicate Precedence(prior: Option<Report>, now: Option<Report>) {
    prior.Some? && now.Some? && now.value.generation == prior.value.generation && prior.value.code != CaptureTimeout ==>
      now.value.code != CaptureTimeout
  }

  ghost predicate Stays(prior: Option<Report>, now: Option<Report>) {
    Continues(prior, now) && Precedence(prior, now)
  }

  lemma RecordedStays(prior: Option<Report>, generation: nat, code: Code, restart: bool)
    ensures Stays(prior, Some(Recorded(prior, generation, code, restart)))
  {
  }

  lemma RestampedStays(prior: Option<Report>, scope: Scope, marked: bool, generation: nat)
    ensures Stays(prior, RestampedReport(prior, scope, marked, generation))
  {
  }

  lemma InvalidatedStays(prior: Option<Report>, marked: bool, generation: nat)
    requires prior.Some? ==> prior.value.generation < generation
    ensures Stays(prior, InvalidatedReport(prior, marked, generation))
  {
  }

  // ------------------------------------------------------------------ reconciliation

  /** Everything one reconciliation can do to the row and report of scope `k`. */
  ghost predicate ReconciledAt(db: Db, d: Db, k: ScopeKey, marked: bool) {
    && k in d.scopes
    && if k in db.scopes && db.scopes[k].fingerprint == Fingerprint(Rows(db, k)) then
         if db.scopes[k].sources == Rows(db, k) then d.scopes[k] == db.scopes[k] && ReportOf(d, k) == ReportOf(db, k)
         else
           && db.counter < d.scopes[k].generation
           && d.scopes[k] == db.scopes[k].(sources := Rows(db, k), generation := d.scopes[k].generation)
           && ReportOf(d, k) == RestampedReport(ReportOf(db, k), db.scopes[k], marked, d.scopes[k].generation)
       else ReportOf(d, k).None?
  }

  lemma ReconciledOnce(db: Db, k: ScopeKey, legacyMatches: bool, legacyGeneration: nat)
    requires Stamped(db) && ReportAt(db.scopes, db.reports, k)
    ensures ReconciledAt(db, ReconcileScope(db, k, legacyMatches, legacyGeneration), k, HasTimeout(db, Rows(db, k)))
  {
    var rows := Rows(db, k);
    if k in db.scopes && db.scopes[k].fingerprint == Fingerprint(rows) {
      RestampAt(db, k, rows, k);
      RestampTables(db, k, rows);
    } else {
      RebuiltReport(db, k, legacyMatches, legacyGeneration);
    }
  }

  lemma RebuiltReport(db: Db, k: ScopeKey, legacyMatches: bool, legacyGeneration: nat)
    requires ReportAt(db.scopes, db.reports, k)
    requires k !in db.scopes || db.scopes[k].fingerprint != Fingerprint(Rows(db, k))
    ensures var d := ReconcileScope(db, k, legacyMatches, legacyGeneration); k in d.scopes && ReportOf(d, k).None?
  {
  }

  ghost predicate SameAt(db: Db, d: Db, k: ScopeKey) {
    && ReportOf(d, k) == ReportOf(db, k)
    && (k in d.scopes <==> k in db.scopes) && (k in d.scopes ==> d.scopes[k] == db.scopes[k])
  }

  lemma ReconcileKeeps(db: Db, k: ScopeKey, legacyMatches: bool, legacyGeneration: nat)
    ensures var d := ReconcileScope(db, k, legacyMatches, legacyGeneration);
      db.counter <= d.counter && d.desired == db.desired
  {
  }

  lemma ReconciledFrom(db: Db, m: Db, d: Db, k: ScopeKey, marked: bool)
    requires SameAt(db, m, k) && m.desired == db.desired && db.counter <= m.counter && ReconciledAt(m, d, k, marked)
    ensures ReconciledAt(db, d, k, marked)
  {
  }

  /** A reconciliation treats each scope once, whatever it does to the others. */
  lemma {:induction false} ReconcileScopesAt(s: State, keys: seq<ScopeKey>, legacyMatches: bool, legacyGeneration: nat, k: ScopeKey)
    returns (marked: bool)
    requires Inv(s) && legacyGeneration <= s.db.counter
    requires forall i, j :: 0 <= i < j < |keys| ==> keys[i] != keys[j]
    ensures var d := ReconcileScopes(s.db, keys, legacyMatches, legacyGeneration);
      && d.desired == s.db.desired && s.db.counter <= d.counter
      && if k in keys then ReconciledAt(s.db, d, k, marked) else SameAt(s.db, d, k)
  {
    if keys == [] {
      marked := false;
    } else {
      var init, last := keys[..|keys| - 1], keys[|keys| - 1];
      var m := s.(db := ReconcileScopes(s.db, init, legacyMatches, legacyGeneration));
      marked := ReconcileScopesAt(s, init, legacyMatches, legacyGeneration, k);
      ReconcileScopesInv(s, init, legacyMatches, legacyGeneration);
      ReconcileKeeps(m.db, last, legacyMatches, legacyGeneration);
      if k == last {
        assert k !in init;
        marked := HasTimeout(m.db, Rows(m.db, k));
        assert ReportAt(m.db.scopes, m.db.reports, k);
        ReconciledOnce(m.db, k, legacyMatches, legacyGeneration);
        ReconciledFrom(s.db, m.db, ReconcileScope(m.db, k, legacyMatches, legacyGeneration), k, marked);
      } else {
        assert k in keys <==> k in init;
        ReconcileScopeAt(m.db, last, legacyMatches, legacyGeneration, k);
      }
    }
  }

  lemma ReconcileAt(s: State, keys: seq<ScopeKey>, k: ScopeKey) returns (marked: bool)
    requires Inv(s) && Lists(keys, KnownScopes(s.db))
    ensures var d := Reconcile(s.db, keys);
      s.db.counter <= d.counter && if k in KnownScopes(s.db) then ReconciledAt(s.db, d, k, marked) else SameAt(s.db, d, k)
  {
    marked := ReconcileScopesAt(s, keys, s.db.legacy == Some(s.db.desiredLegacy), s.db.counter, k);
  }

  // ------------------------------------------------------------------ the stopped pass

  /** Reports are stamped, and a refreshing scope with a directory report has stopped under it. */
  ghost predicate StampedAt(db: Db, k: ScopeKey) {
    k in db.reports ==>
      && db.reports[k].generation <= db.counter
      && (k in db.scopes && db.scopes[k].pending && db.reports[k].code == DirectoryTimeout ==>
            StoppedPass(db.scopes[k]) && db.reports[k].generation == db.scopes[k].generation)
  }

  ghost predicate StampedReports(db: Db) {
    forall k {:trigger StampedAt(db, k)} :: StampedAt(db, k)
  }

  /** What one event keeps for the report of one scope. */
  ghost predicate StepAt(db: Db, d: Db, k: ScopeKey) {
    StampedAt(d, k) && Stays(ReportOf(db, k), ReportOf(d, k))
  }

  lemma ReconcileStep(s: State, keys: seq<ScopeKey>, k: ScopeKey)
    requires Inv(s) && StampedAt(s.db, k) && Lists(keys, KnownScopes(s.db))
    ensures StepAt(s.db, Reconcile(s.db, keys), k)
  {
    var marked := ReconcileAt(s, keys, k);
    ReconcileInv(s, keys);
    var d := Reconcile(s.db, keys);
    if k in KnownScopes(s.db) && k in d.scopes && ReportOf(d, k).Some? && d.scopes[k] != s.db.scopes[k] {
      RestampedStays(ReportOf(s.db, k), s.db.scopes[k], marked, d.scopes[k].generation);
    }
  }

  lemma InvalidateStep(s: State, realm: Option<Uuid>, k: ScopeKey)
    requires Inv(s) && StampedAt(s.db, k)
    ensures StepAt(s.db, Invalidate(s.db, realm), k)
  {
    if realm.Some? {
      InvalidateTables(s.db, realm.value);
      InvalidateAt(s.db, realm.value, k);
      if k in s.db.scopes && k.realm == realm.value {
        InvalidatedStays(ReportOf(s.db, k), HasTimeout(s.db, s.db.scopes[k].sources), s.db.counter + 1);
      }
    }
  }

  lemma ApplyCases(db: Db, q: Quantum, fetched: seq<User>, k: ScopeKey)
    ensures var d := ApplyRefresh(db, q, fetched);
      && d.reports == db.reports && d.counter == db.counter
      && (k in d.scopes <==> k in db.scopes)
      && (k in db.scopes ==>
            || d.scopes[k] == db.scopes[k]
            || (&& k == q.key && db.scopes[k].pending && db.scopes[k].attempts < DIRECTORY_WRITE_MAX_ATTEMPTS
                && d.scopes[k].generation == db.scopes[k].generation))
  {
    if QuantumCurrent(db, q) && BatchPhase(q.row) && q.batch.Some? {
      assert RewriteBatch(db, q).scopes == db.scopes
        || RewriteBatch(db, q).scopes == db.scopes[q.key := db.scopes[q.key].(cursor := q.batch.value.fromId, attempts := 0)];
    }
  }

  lemma ApplyStep(s: State, q: Quantum, fetched: seq<User>, k: ScopeKey)
    requires Inv(s) && StampedAt(s.db, k)
    ensures StepAt(s.db, ApplyRefresh(s.db, q, fetched), k)
  {
    ApplyCases(s.db, q, fetched, k);
  }

  lemma DeferStep(s: State, q: Quantum, code: Code, k: ScopeKey)
    requires Inv(s) && StampedAt(s.db, k)
    ensures StepAt(s.db, DeferDirectory(s.db, q, code), k)
  {
    if DeferCurrent(s.db, q) && k == q.key {
      DeferTables(s.db, q, code);
      var scope := s.db.scopes[k];
      RecordedStays(ReportOf(s.db, k), scope.generation, code, false);
    }
  }

  lemma TimeoutStep(s: State, k: ScopeKey, generation: nat, job: JobKey, held: bool, o: ScopeKey)
    requires Inv(s) && StampedAt(s.db, o)
    ensures StepAt(s.db, TimeoutCapture(s.db, k, generation, job, held), o)
  {
    RecordAt(s.db.(timeouts := s.db.timeouts + {job}), k, generation, CaptureTimeout, true, o);
    RecordedStays(ReportOf(s.db, k), generation, CaptureTimeout, true);
  }

  lemma FailStep(s: State, c: Claim, receipt: Option<Uuid>, code: Code, live: bool, o: ScopeKey)
    requires Inv(s) && StampedAt(s.db, o)
    ensures StepAt(s.db, Fail(s.db, c, receipt, code, live), o)
  {
    if Current(s.db, c, live) {
      RecordAt(Release(s.db, c, Failed, receipt, false), c.key.scope, c.generation, code, false, o);
      RecordedStays(ReportOf(s.db, c.key.scope), c.generation, code, false);
    }
  }

  lemma FlushAt(db: Db, k: ScopeKey, candidate: Code, enabled: bool, callback: Callback, o: ScopeKey)
    requires StampedAt(db, o)
    ensures var d := Flush(db, k, candidate, enabled, callback);
      StampedAt(d, o) && Precedence(ReportOf(db, o), ReportOf(d, o))
  {
    FlushTables(db, k, candidate, enabled, callback);
    FlushCases(db, k, candidate, enabled, callback);
  }

  /** One event keeps every report stamped, and only reporting itself moves a cursor. */
  lemma NextReport(s: State, e: Event, k: ScopeKey)
    requires Inv(s) && StampedAt(s.db, k)
    ensures var d := Next(s, e).db;
      && StampedAt(d, k) && Precedence(ReportOf(s.db, k), ReportOf(d, k))
      && (!e.FlushReport? ==> Continues(ReportOf(s.db, k), ReportOf(d, k)))
  {
    if Enabled(s, e) {
      match e
      case Reconciled(keys) => ReconcileStep(s, keys, k);
      case DirectoryChanged(realm) => InvalidateStep(s, realm, k);
      case Apply(q, fetched) => ApplyStep(s, q, fetched, k);
      case Defer(q, code) => DeferStep(s, q, code, k);
      case CaptureTimedOut(o, generation, job, held) => TimeoutStep(s, o, generation, job, held, k);
      case FailClaim(c, receipt, code, live) => FailStep(s, c, receipt, code, live, k);
      case FlushReport(o, candidate, enabled, callback) => FlushAt(s.db, o, candidate, enabled, callback, k);
      case _ => OtherReports(s, e);
    }
  }

  lemma OtherReports(s: State, e: Event)
    requires Enabled(s, e) && !TouchesScopes(e) && !e.CaptureTimedOut? && !e.FailClaim? && !e.FlushReport?
    ensures var d := Next(s, e).db;
      d.scopes == s.db.scopes && d.reports == s.db.reports && d.counter == s.db.counter
  {
  }

  lemma NextStamped(s: State, e: Event)
    requires Inv(s) && StampedReports(s.db)
    ensures StampedReports(Next(s, e).db)
  {
    forall k ensures StampedAt(Next(s, e).db, k) {
      assert StampedAt(s.db, k);
      NextReport(s, e, k);
    }
  }

  lemma {:induction false} RunStamped(s: State, events: seq<Event>)
    requires Inv(s) && StampedReports(s.db)
    ensures StampedReports(Run(s, events).db)
    decreases |events|
  {
    if events != [] {
      NextStamped(s, events[0]);
      NextInv(s, events[0]);
      RunStamped(Next(s, events[0]), events[1..]);
    }
  }

  lemma AlwaysStamped(s: State, events: seq<Event>)
    requires Initial(s)
    ensures Inv(Run(s, events)) && StampedReports(Run(s, events).db)
  {
    InitialInv(s);
    RunInv(s, events);
    RunStamped(s, events);
  }

  // ------------------------------------------------------------------ cursor soundness

  /** The account a quantum on this row calls the callback for: the first one after its cursor. */
  predicate NextReported(work: Report, accounts: seq<Uuid>, account: Uuid) {
    var rest := AccountsAfter(accounts, work.after);
    rest != {} && account == Least(rest)
  }

  /**
   A flush quantum of scope `k` called the callback for exactly `account` with `code`, and the
   callback acknowledged it. The row carried the scope's generation and the desired sources still
   matched; a capture timeout had a marker pending; a refreshing scope reports nothing but its own
   stopped pass.
   */
  predicate Acknowledges(db: Db, e: Event, k: ScopeKey, code: Code, account: Uuid) {
    && e.FlushReport? && e.scope == k && e.enabled && e.callback == Acknowledged
    && k in db.reports && !db.reports[k].complete && db.reports[k].code == code
    && k in db.scopes && NextReported(db.reports[k], Accounts(db.scopes[k].sources), account)
    && db.reports[k].generation == db.scopes[k].generation
    && db.scopes[k].fingerprint == Fingerprint(Rows(db, k))
    && (code == CaptureTimeout ==> HasTimeout(db, db.scopes[k].sources))
    && (db.scopes[k].pending ==> code == DirectoryTimeout)
    && (code == DirectoryTimeout ==> db.scopes[k].attempts >= DIRECTORY_WRITE_MAX_ATTEMPTS)
  }

  lemma FlushAcknowledges(db: Db, k: ScopeKey, candidate: Code, enabled: bool, callback: Callback, account: Uuid)
    ensures var d := Flush(db, k, candidate, enabled, callback);
      k in d.reports && account in d.reports[k].acked ==>
        && k in db.reports && db.reports[k].code == d.reports[k].code
        && (|| account in db.reports[k].acked
            || Acknowledges(db, FlushReport(k, candidate, enabled, callback), k, d.reports[k].code, account))
  {
    FlushCases(db, k, candidate, enabled, callback);
  }

  /** An account joins the acknowledged ones only by a quantum whose callback acknowledged it. */
  lemma AckedByStep(s: State, e: Event, k: ScopeKey, account: Uuid)
    requires Inv(s) && StampedReports(s.db) && k in Next(s, e).db.reports && account in Next(s, e).db.reports[k].acked
    ensures var code := Next(s, e).db.reports[k].code;
      || (k in s.db.reports && s.db.reports[k].code == code && account in s.db.reports[k].acked)
      || Acknowledges(s.db, e, k, code, account)
  {
    assert StampedAt(s.db, k);
    if e.FlushReport? {
      if e.scope == k {
        FlushAcknowledges(s.db, k, e.candidate, e.enabled, e.callback, account);
      } else {
        FlushCases(s.db, e.scope, e.candidate, e.enabled, e.callback);
      }
    } else {
      NextReport(s, e, k);
    }
  }

  /** The row for `code` stands and its cursor has passed `account`. */
  predicate Passed(db: Db, k: ScopeKey, code: Code, account: Uuid) {
    && k in db.reports && db.reports[k].code == code
    && db.reports[k].after.Some? && account <= db.reports[k].after.value
  }

  /**
   Event `i` of the run reported `code` to `account` and was acknowledged, and from then to the end
   the row for that code stood with its cursor past the account: it was never restarted.
   */
  ghost predicate AcknowledgedAt(s: State, events: seq<Event>, k: ScopeKey, code: Code, account: Uuid, i: nat)
    requires i < |events|
  {
    && Acknowledges(Run(s, events[..i]).db, events[i], k, code, account)
    && forall j {:trigger events[..j]} :: i < j <= |events| ==> Passed(Run(s, events[..j]).db, k, code, account)
  }

  ghost predicate AcknowledgedDuring(s: State, events: seq<Event>, k: ScopeKey, code: Code, account: Uuid) {
    exists i :: 0 <= i < |events| && AcknowledgedAt(s, events, k, code, account, i)
  }

  /** An acknowledged account is one the cursor has passed. */
  lemma AckedIsPassed(s: State, k: ScopeKey, account: Uuid)
    requires Inv(s) && k in s.db.reports && account in s.db.reports[k].acked
    ensures Passed(s.db, k, s.db.reports[k].code, account)
  {
    assert ReportAt(s.db.scopes, s.db.reports, k);
    SortedFacts(AccountSet(Fingerprint(s.db.scopes[k].sources)));
    var acked := s.db.reports[k].acked;
    var i :| 0 <= i < |acked| && acked[i] == account;
    assert acked[|acked| - 1] == Accounts(s.db.scopes[k].sources)[|acked| - 1];
  }

  lemma AcknowledgedLonger(s: State, init: seq<Event>, e: Event, k: ScopeKey, code: Code, account: Uuid)
    requires AcknowledgedDuring(s, init, k, code, account) && Passed(Run(s, init + [e]).db, k, code, account)
    ensures AcknowledgedDuring(s, init + [e], k, code, account)
  {
    var events := init + [e];
    var i :| 0 <= i < |init| && AcknowledgedAt(s, init, k, code, account, i);
    assert events[..i] == init[..i] && events[i] == init[i];
    forall j | i < j <= |events| ensures Passed(Run(s, events[..j]).db, k, code, account) {
      if j <= |init| { assert events[..j] == init[..j]; } else { assert events[..j] == events; }
    }
    assert AcknowledgedAt(s, events, k, code, account, i);
  }

  lemma AcknowledgedNow(s: State, init: seq<Event>, e: Event, k: ScopeKey, code: Code, account: Uuid)
    requires Acknowledges(Run(s, init).db, e, k, code, account) && Passed(Run(s, init + [e]).db, k, code, account)
    ensures AcknowledgedDuring(s, init + [e], k, code, account)
  {
    var events := init + [e];
    assert events[..|init|] == init && events[..|init| + 1] == events && events[|init|] == e;
    assert AcknowledgedAt(s, events, k, code, account, |init|);
  }

  lemma {:induction false} AckedWasAcknowledged(s: State, events: seq<Event>, k: ScopeKey, account: Uuid)
    requires Initial(s)
    requires var r := Run(s, events).db.reports; k in r && account in r[k].acked
    ensures AcknowledgedDuring(s, events, k, Run(s, events).db.reports[k].code, account)
    decreases |events|
  {
    AlwaysInv(s, events);
    AckedIsPassed(Run(s, events), k, account);
    if events != [] {
      var init, e := events[..|events| - 1], events[|events| - 1];
      assert events == init + [e];
      RunAppend(s, init, e);
      AlwaysStamped(s, init);
      AckedByStep(Run(s, init), e, k, account);
      var code := Run(s, events).db.reports[k].code;
      if Acknowledges(Run(s, init).db, e, k, code, account) {
        AcknowledgedNow(s, init, e, k, code, account);
      } else {
        AckedWasAcknowledged(s, init, k, account);
        AcknowledgedLonger(s, init, e, k, code, account);
      }
    }
  }

  /**
   In every run, each account of the scope up to the cursor, and each account of a complete report,
   was itself reported for the row's code and acknowledged, and the row was not restarted since.
   Neither callback roll-backs nor reconciliations, invalidations and carried rows break this.
   */
  lemma ReportCursorSound(s: State, events: seq<Event>, k: ScopeKey, account: Uuid)
    requires Initial(s)
    requires var db := Run(s, events).db;
      && k in db.reports && k in db.scopes && account in Accounts(db.scopes[k].sources)
      && (db.reports[k].complete || (db.reports[k].after.Some? && account <= db.reports[k].after.value))
    ensures AcknowledgedDuring(s, events, k, Run(s, events).db.reports[k].code, account)
  {
    AlwaysInv(s, events);
    UpToCursorAcked(Run(s, events), k, account);
    AckedWasAcknowledged(s, events, k, account);
  }

  lemma UpToCursorAcked(s: State, k: ScopeKey, account: Uuid)
    requires Inv(s) && k in s.db.reports && k in s.db.scopes && account in Accounts(s.db.scopes[k].sources)
    requires s.db.reports[k].complete || (s.db.reports[k].after.Some? && account <= s.db.reports[k].after.value)
    ensures account in s.db.reports[k].acked
  {
    var r, accounts := s.db.reports[k], Accounts(s.db.scopes[k].sources);
    assert ReportAt(s.db.scopes, s.db.reports, k);
    SortedFacts(AccountSet(Fingerprint(s.db.scopes[k].sources)));
    var i :| 0 <= i < |accounts| && accounts[i] == account;
    if !r.complete {
      assert r.after.value == accounts[|r.acked| - 1];
      assert i < |r.acked|;
    }
  }

  // ------------------------------------------------------------------ precedence

  /** The scope keeps a report of generation `g` throughout the run. */
  predicate KeepsReport(s: State, events: seq<Event>, k: ScopeKey, g: nat)
    decreases |events|
  {
    && k in s.db.reports && s.db.reports[k].generation == g
    && (events == [] || KeepsReport(Next(s, events[0]), events[1..], k, g))
  }

  /** Within one generation no run of events replaces another failure by a capture timeout. */
  lemma {:induction false} CaptureTimeoutNeverReplaces(s: State, events: seq<Event>, k: ScopeKey, g: nat)
    requires Inv(s) && StampedReports(s.db) && KeepsReport(s, events, k, g)
    requires s.db.reports[k].code != CaptureTimeout
    ensures k in Run(s, events).db.reports && Run(s, events).db.reports[k].code != CaptureTimeout
    decreases |events|
  {
    if events != [] {
      assert StampedAt(s.db, k);
      NextReport(s, events[0], k);
      NextStamped(s, events[0]);
      NextInv(s, events[0]);
      CaptureTimeoutNeverReplaces(Next(s, events[0]), events[1..], k, g);
    }
  }

  /** A scope whose directory pass stopped, with its report standing. */
  ghost predicate StoppedWithReport(db: Db, k: ScopeKey) {
    k in db.scopes && StoppedPass(db.scopes[k]) && k in db.reports && db.reports[k].code == DirectoryTimeout
  }

  /** The same report: code kept, progress only added, stamped with the scope's generation. */
  ghost predicate ReportStands(db: Db, d: Db, k: ScopeKey)
    requires k in db.reports
  {
    && StoppedWithReport(d, k)
    && d.reports[k].generation == d.scopes[k].generation
    && db.reports[k].acked <= d.reports[k].acked
    && (db.reports[k].complete ==> d.reports[k].complete && d.reports[k].after == db.reports[k].after)
  }

  /** Neither its realm was invalidated nor the identity of its sources changed. */
  predicate LeavesScope(s: State, e: Event, k: ScopeKey) {
    && k in s.db.scopes && s.db.scopes[k].fingerprint == Fingerprint(Rows(s.db, k))
    && e != DirectoryChanged(Some(k.realm))
  }

  lemma ReconcileStands(s: State, keys: seq<ScopeKey>, k: ScopeKey)
    requires Inv(s) && StampedAt(s.db, k) && StoppedWithReport(s.db, k)
    requires Lists(keys, KnownScopes(s.db)) && s.db.scopes[k].fingerprint == Fingerprint(Rows(s.db, k))
    ensures var d := Reconcile(s.db, keys);
      && StoppedWithReport(d, k) && d.reports[k] == s.db.reports[k].(generation := d.scopes[k].generation)
  {
    var marked := ReconcileAt(s, keys, k);
  }

  lemma SameStands(db: Db, d: Db, k: ScopeKey)
    requires StampedAt(db, k) && StoppedWithReport(db, k) && SameAt(db, d, k)
    ensures ReportStands(db, d, k)
  {
  }

  lemma ApplyLeaves(db: Db, q: Quantum, fetched: seq<User>, k: ScopeKey)
    requires k in db.scopes && StoppedPass(db.scopes[k])
    ensures SameAt(db, ApplyRefresh(db, q, fetched), k)
  {
    ApplyCases(db, q, fetched, k);
  }

  lemma InvalidateLeaves(db: Db, realm: Option<Uuid>, k: ScopeKey)
    requires Stamped(db) && realm != Some(k.realm)
    ensures SameAt(db, Invalidate(db, realm), k)
  {
    if realm.Some? {
      InvalidateTables(db, realm.value);
      InvalidateAt(db, realm.value, k);
    }
  }

  lemma DeferLeaves(db: Db, q: Quantum, code: Code, k: ScopeKey)
    requires k in db.scopes && StoppedPass(db.scopes[k])
    ensures SameAt(db, DeferDirectory(db, q, code), k)
  {
  }

  lemma FailLeaves(db: Db, c: Claim, receipt: Option<Uuid>, code: Code, live: bool, k: ScopeKey)
    requires k in db.scopes && StoppedPass(db.scopes[k])
    ensures SameAt(db, Fail(db, c, receipt, code, live), k)
  {
    if Current(db, c, live) {
      RecordAt(Release(db, c, Failed, receipt, false), c.key.scope, c.generation, code, false, k);
    }
  }

  lemma TimeoutStands(s: State, o: ScopeKey, generation: nat, job: JobKey, held: bool, k: ScopeKey)
    requires StampedAt(s.db, k) && StoppedWithReport(s.db, k)
    ensures ReportOf(TimeoutCapture(s.db, o, generation, job, held), k) == ReportOf(s.db, k)
  {
    RecordAt(s.db.(timeouts := s.db.timeouts + {job}), o, generation, CaptureTimeout, true, k);
  }

  lemma FlushStands(db: Db, o: ScopeKey, candidate: Code, enabled: bool, callback: Callback, k: ScopeKey)
    requires StampedAt(db, k) && StoppedWithReport(db, k) && db.scopes[k].fingerprint == Fingerprint(Rows(db, k))
    ensures ReportStands(db, Flush(db, o, candidate, enabled, callback), k)
  {
    FlushTables(db, o, candidate, enabled, callback);
    FlushCases(db, o, candidate, enabled, callback);
  }

  /**
   The report of a stopped directory pass survives every event but an invalidation of its realm or
   a change of its sources' identity, including metadata revisions while capture timeouts are
   pending, further capture timeouts and reporting itself.
   */
  lemma StoppedReportStands(s: State, e: Event, k: ScopeKey)
    requires Inv(s) && StampedReports(s.db) && StoppedWithReport(s.db, k) && LeavesScope(s, e, k)
    ensures ReportStands(s.db, Next(s, e).db, k)
  {
    assert StampedAt(s.db, k);
    if Enabled(s, e) && e.Reconciled? {
      ReconcileStands(s, e.keys, k);
    } else if Enabled(s, e) && e.FlushReport? {
      FlushStands(s.db, e.scope, e.candidate, e.enabled, e.callback, k);
    } else {
      LeftAlone(s, e, k);
      SameStands(s.db, Next(s, e).db, k);
    }
  }

  lemma LeftAlone(s: State, e: Event, k: ScopeKey)
    requires Inv(s) && StampedAt(s.db, k) && StoppedWithReport(s.db, k) && e != DirectoryChanged(Some(k.realm))
    requires Enabled(s, e) ==> !e.Reconciled? && !e.FlushReport?
    ensures SameAt(s.db, Next(s, e).db, k)
  {
    if Enabled(s, e) {
      match e
      case DirectoryChanged(realm) => InvalidateLeaves(s.db, realm, k);
      case Apply(q, fetched) => ApplyLeaves(s.db, q, fetched, k);
      case Defer(q, code) => DeferLeaves(s.db, q, code, k);
      case CaptureTimedOut(o, generation, job, held) =>
        TimeoutStands(s, o, generation, job, held, k);
        ScopesUntouched(s, e);
      case FailClaim(c, receipt, code, live) => FailLeaves(s.db, c, receipt, code, live, k);
      case _ => OtherReports(s, e);
    }
  }

  predicate LeavesScopeThroughout(s: State, events: seq<Event>, k: ScopeKey)
    decreases |events|
  {
    events == [] || (LeavesScope(s, events[0], k) && LeavesScopeThroughout(Next(s, events[0]), events[1..], k))
  }

  lemma {:induction false} StoppedReportSurvives(s: State, events: seq<Event>, k: ScopeKey)
    requires Inv(s) && StampedReports(s.db) && StoppedWithReport(s.db, k) && LeavesScopeThroughout(s, events, k)
    ensures ReportStands(s.db, Run(s, events).db, k)
    decreases |events|
  {
    if events == [] {
      assert StampedAt(s.db, k);
    } else {
      StoppedReportStands(s, events[0], k);
      NextStamped(s, events[0]);
      NextInv(s, events[0]);
      StoppedReportSurvives(Next(s, events[0]), events[1..], k);
    }
  }

  /** Carrying capture failures first would lose the report: its code, cursor and completion. */
  lemma CarryOrderMatters(db: Db, k: ScopeKey, rows: seq<Source>)
    requires Stamped(db) && StampedAt(db, k) && StoppedWithReport(db, k) && HasTimeout(db, rows)
    ensures var g := db.counter + 1; var stamped := Stamp(db, k, rows);
      && CarryCapture(CarryDirectory(stamped, g), g).reports[k] == db.reports[k].(generation := g)
      && CarryDirectory(CarryCapture(stamped, g), g).reports[k] == NewReport(g, CaptureTimeout)
  {
    var g := db.counter + 1;
    var stamped := Stamp(db, k, rows);
    RestampAt(db, k, rows, k);
    CarryCaptureAt(stamped, g, k);
    assert k in CaptureScopes(stamped, g);
    CarryDirectoryAt(CarryCapture(stamped, g), g, k);
  }

  /** An invalidation retires every directory report of the realm. */
  lemma InvalidationRetiresDirectoryReports(s: State, realm: Uuid, k: ScopeKey)
    requires Inv(s) && k.realm == realm && k in Next(s, DirectoryChanged(Some(realm))).db.reports
    ensures Next(s, DirectoryChanged(Some(realm))).db.reports[k].code != DirectoryTimeout
  {
    assert ReportAt(s.db.scopes, s.db.reports, k);
    InvalidateAt(s.db, realm, k);
  }
}
