/**
 Failures are reported: which rows a failure leaves, when they go, and that reporting finishes.
 */
module ReportingTheorems {
  import opened Catalogs
  import opened HistoryBatches
  import opened HistoryTables
  import opened FailureReports
  import opened HistoryConfiguration
  import opened HistoryCapture
  import opened HistoryDelivery
  import opened HistoryRuns
  import opened RevisionProofs
  import opened DirectoryProofs
  import opened DeliveryProofs
  import opened ReportProofs
  import opened HistoryInvariant
  import opened ReportTheorems
  import opened TerminationTheorems
  import opened TransactionTheorems

  // ------------------------------------------------------------------ a pass that stops is reported

  ghost predicate StoppedAt(db: Db, k: ScopeKey) {
    k in db.scopes && StoppedPass(db.scopes[k])
  }

  lemma ApplyKeepsPending(db: Db, q: Quantum, fetched: seq<User>, k: ScopeKey)
    requires k in db.scopes
    ensures ApplyRefresh(db, q, fetched).scopes[k].pending ==> db.scopes[k].pending
  {
    ApplyCases(db, q, fetched, k);
  }

  lemma ReconcileNeverStops(s: State, keys: seq<ScopeKey>, k: ScopeKey)
    requires Inv(s) && Lists(keys, KnownScopes(s.db)) && !StoppedAt(s.db, k)
    ensures !StoppedAt(Reconcile(s.db, keys), k)
  {
    var marked := ReconcileAt(s, keys, k);
    if k in KnownScopes(s.db) && (k !in s.db.scopes || s.db.scopes[k].fingerprint != Fingerprint(Rows(s.db, k))) {
      ReconcileStartsOver(s, keys, k);
    }
  }

  /** Only a deferred statement timeout of its own quantum stops a pass. */
  lemma OnlyDeferStops(s: State, e: Event, k: ScopeKey)
    requires Inv(s) && !StoppedAt(s.db, k) && !(e.Defer? && e.quantum.key == k)
    ensures !StoppedAt(Next(s, e).db, k)
  {
    if !TouchesScopes(e) {
      ScopesUntouched(s, e);
    } else if Enabled(s, e) {
      if e.Reconciled? {
        ReconcileNeverStops(s, e.keys, k);
      } else if e.DirectoryChanged? {
        if e.realm.Some? { InvalidateTables(s.db, e.realm.value); }
      } else {
        QuantaStopOnlyTheirs(s.db, e, k);
      }
    }
  }

  lemma QuantaStopOnlyTheirs(db: Db, e: Event, k: ScopeKey)
    requires !StoppedAt(db, k) && (e.Apply? || (e.Defer? && e.quantum.key != k))
    ensures e.Apply? ==> !StoppedAt(ApplyRefresh(db, e.quantum, e.fetched), k)
    ensures e.Defer? ==> !StoppedAt(DeferDirectory(db, e.quantum, e.code), k)
  {
    if e.Apply? {
      ApplyCases(db, e.quantum, e.fetched, k);
      if k in db.scopes {
        ApplySpendsNothing(db, e.quantum, e.fetched, k);
        ApplyKeepsPending(db, e.quantum, e.fetched, k);
      }
    } else if DeferCurrent(db, e.quantum) {
      DeferTables(db, e.quantum, e.code);
    }
  }

  lemma DeferReportsStop(db: Db, q: Quantum, code: Code)
    requires StampedAt(db, q.key) && !StoppedAt(db, q.key) && StoppedAt(DeferDirectory(db, q, code), q.key)
    ensures var d := DeferDirectory(db, q, code);
      && code == DirectoryTimeout && q.key in d.reports
      && d.reports[q.key] == Report(d.scopes[q.key].generation, DirectoryTimeout, None, false, [])
  {
    if DeferCurrent(db, q) { DeferTables(db, q, code); }
  }

  /**
   The quantum that stops a pass records its report in the same step: a directory timeout of the
   scope's generation, with no account reported yet.
   */
  lemma StoppingIsReported(s: State, e: Event, k: ScopeKey)
    requires Inv(s) && StampedReports(s.db) && !StoppedAt(s.db, k) && StoppedAt(Next(s, e).db, k)
    ensures e.Defer? && e.quantum.key == k && e.code == DirectoryTimeout
    ensures var d := Next(s, e).db;
      k in d.reports && d.reports[k] == Report(d.scopes[k].generation, DirectoryTimeout, None, false, [])
  {
    if !(e.Defer? && e.quantum.key == k) {
      OnlyDeferStops(s, e, k);
    } else {
      assert StampedAt(s.db, k);
      DeferReportsStop(s.db, e.quantum, e.code);
    }
  }

  /** The one event that takes the report away from a pass that stays stopped. */
  predicate Forgets(s: State, e: Event, k: ScopeKey) {
    && e.FlushReport? && e.scope == k
    && k in s.db.reports && !s.db.reports[k].complete
    && k in s.db.scopes && s.db.scopes[k].fingerprint != Fingerprint(Rows(s.db, k))
  }

  lemma FlushForgetsIff(db: Db, o: ScopeKey, candidate: Code, enabled: bool, callback: Callback, k: ScopeKey)
    requires StampedAt(db, k) && StoppedWithReport(db, k)
    ensures StoppedWithReport(Flush(db, o, candidate, enabled, callback), k) <==>
      !(o == k && !db.reports[k].complete && db.scopes[k].fingerprint != Fingerprint(Rows(db, k)))
  {
    FlushTables(db, o, candidate, enabled, callback);
    FlushCases(db, o, candidate, enabled, callback);
  }

  lemma ReconcileKeepsStoppedReport(s: State, keys: seq<ScopeKey>, k: ScopeKey)
    requires Inv(s) && StampedAt(s.db, k) && StoppedWithReport(s.db, k) && Lists(keys, KnownScopes(s.db))
    ensures StoppedAt(Reconcile(s.db, keys), k) ==> StoppedWithReport(Reconcile(s.db, keys), k)
  {
    if s.db.scopes[k].fingerprint == Fingerprint(Rows(s.db, k)) {
      ReconcileStands(s, keys, k);
    } else {
      ReconcileStartsOver(s, keys, k);
    }
  }

  /** A stopped pass loses its report exactly by a quantum that finds the desired sources changed. */
  lemma StoppedReportLostIff(s: State, e: Event, k: ScopeKey)
    requires Inv(s) && StampedReports(s.db) && StoppedWithReport(s.db, k)
    ensures StoppedAt(Next(s, e).db, k) && !StoppedWithReport(Next(s, e).db, k) <==> Forgets(s, e, k)
  {
    assert StampedAt(s.db, k);
    if e.FlushReport? {
      ScopesUntouched(s, e);
      FlushForgetsIff(s.db, e.scope, e.candidate, e.enabled, e.callback, k);
    } else if Enabled(s, e) && e.Reconciled? {
      ReconcileKeepsStoppedReport(s, e.keys, k);
    } else if e == DirectoryChanged(Some(k.realm)) {
      InvalidationRestartsPasses(s, k.realm, k);
    } else {
      LeftAlone(s, e, k);
    }
  }

  predicate NeverForgets(s: State, events: seq<Event>, k: ScopeKey)
    decreases |events|
  {
    events == [] || (!Forgets(s, events[0], k) && NeverForgets(Next(s, events[0]), events[1..], k))
  }

  lemma StoppedStaysReported(s: State, e: Event, k: ScopeKey)
    requires Inv(s) && StampedReports(s.db) && !Forgets(s, e, k) && (StoppedAt(s.db, k) ==> StoppedWithReport(s.db, k))
    ensures StoppedAt(Next(s, e).db, k) ==> StoppedWithReport(Next(s, e).db, k)
  {
    if StoppedAt(s.db, k) {
      StoppedReportLostIff(s, e, k);
    } else if StoppedAt(Next(s, e).db, k) {
      StoppingIsReported(s, e, k);
    }
  }

  lemma {:induction false} RunStaysReported(s: State, events: seq<Event>, k: ScopeKey)
    requires Inv(s) && StampedReports(s.db) && NeverForgets(s, events, k)
    requires StoppedAt(s.db, k) ==> StoppedWithReport(s.db, k)
    ensures StoppedAt(Run(s, events).db, k) ==> StoppedWithReport(Run(s, events).db, k)
    decreases |events|
  {
    if events != [] {
      StoppedStaysReported(s, events[0], k);
      NextStamped(s, events[0]);
      NextInv(s, events[0]);
      RunStaysReported(Next(s, events[0]), events[1..], k);
    }
  }

  /**
   In every run from the start in which the scope is reported on only while its desired sources
   match, every stopped pass has its report, through invalidations and rebuilds and all the rest.
   */
  lemma EveryStoppedPassIsReported(s: State, events: seq<Event>, k: ScopeKey)
    requires Initial(s) && NeverForgets(s, events, k) && StoppedAt(Run(s, events).db, k)
    ensures StoppedWithReport(Run(s, events).db, k)
    ensures Run(s, events).db.reports[k].generation == Run(s, events).db.scopes[k].generation
  {
    InitialInv(s);
    RunStaysReported(s, events, k);
    AlwaysStamped(s, events);
    assert StampedAt(Run(s, events).db, k);
  }

  // ------------------------------------------------------------------ what a failure records

  /** The same failure already stands for the generation. */
  predicate Standing(db: Db, k: ScopeKey, generation: nat, code: Code) {
    k in db.reports && db.reports[k].generation == generation && db.reports[k].code == code
  }

  /** Another failure stands for the generation. */
  predicate Outranked(db: Db, k: ScopeKey, generation: nat) {
    k in db.reports && db.reports[k].generation == generation && db.reports[k].code != CaptureTimeout
  }

  /**
   A capture timeout sets its job's marker. It starts a report unless another failure stands for the
   generation; a standing capture report goes on where it was, or starts over once it was complete.
   */
  lemma TimeoutLeaves(s: State, k: ScopeKey, generation: nat, job: JobKey)
    requires k in s.db.scopes && s.db.scopes[k].generation == generation
    ensures var d := Next(s, CaptureTimedOut(k, generation, job, true)).db;
      && d.timeouts == s.db.timeouts + {job} && k in d.reports
      && d.reports[k] == (if Outranked(s.db, k, generation)
                             || (Standing(s.db, k, generation, CaptureTimeout) && !s.db.reports[k].complete)
                          then s.db.reports[k] else Report(generation, CaptureTimeout, None, false, []))
      && d.scopes == s.db.scopes && d.batches == s.db.batches
      && forall o :: o != k && o in s.db.reports ==> o in d.reports && d.reports[o] == s.db.reports[o]
  {
  }

  /** Without the job's lease, or under an older generation, a timeout leaves nothing. */
  lemma StaleTimeoutIsNoOp(s: State, k: ScopeKey, generation: nat, job: JobKey, held: bool)
    requires !held || k !in s.db.scopes || s.db.scopes[k].generation != generation
    ensures Next(s, CaptureTimedOut(k, generation, job, held)) == s
  {
  }

  /**
   A terminal publication failure of a current claim fails its row, clears the lease, keeps the
   cursor, and reports its code: a report already standing for it goes on, complete or not.
   */
  lemma FailureLeaves(s: State, c: Claim, receipt: Option<Uuid>, code: Code)
    requires Inv(s) && c in s.claims && Current(s.db, c, true)
    ensures var d := Next(s, FailClaim(c, receipt, code, true)).db; var k := c.key.scope; var was := s.db.batches[c.key];
      && c.key in d.batches && d.batches[c.key].body == was.body
      && d.batches[c.key].imp == was.imp.(status := Failed, lease := None,
                                         receipt := if receipt.Some? then receipt else was.imp.receipt)
      && k in d.reports
      && d.reports[k] == (if Standing(s.db, k, c.generation, code) || (code == CaptureTimeout && Outranked(s.db, k, c.generation))
                          then s.db.reports[k] else Report(c.generation, code, None, false, []))
      && d.scopes == s.db.scopes && d.timeouts == s.db.timeouts
  {
  }

  // ------------------------------------------------------------------ what a new generation carries

  /** The capture report of a scope that still has a marker, under a new generation. */
  function CarriedOver(prior: Option<Report>, generation: nat): Report {
    if prior.Some? && prior.value.code == CaptureTimeout
    then Report(generation, CaptureTimeout, prior.value.after, prior.value.complete, prior.value.acked)
    else Report(generation, CaptureTimeout, None, false, [])
  }

  /**
   A revision of assignment metadata keeps the report of a stopped pass with all its progress. Any
   other scope with a pending marker has a capture report under the new generation, which keeps its
   progress if it was one before; without a marker the report stays as it is.
   */
  lemma MetadataRevisionLeaves(db: Db, k: ScopeKey, rows: seq<Source>)
    requires Stamped(db) && StampedAt(db, k) && k in db.scopes
    ensures var g := db.counter + 1; var now := ReportOf(Restamp(db, k, rows), k);
      if StoppedWithReport(db, k) then now == Some(db.reports[k].(generation := g))
      else if HasTimeout(db, rows) then now == Some(CarriedOver(ReportOf(db, k), g))
      else now == ReportOf(db, k)
  {
    RestampAt(db, k, rows, k);
  }

  /** An invalidation retires a directory report and treats the rest in the same way. */
  lemma InvalidationLeavesReport(db: Db, realm: Uuid, k: ScopeKey)
    requires Stamped(db) && StampedAt(db, k) && k in db.scopes && k.realm == realm
    ensures var g := db.counter + 1; var now := ReportOf(Invalidate(db, Some(realm)), k);
      if HasTimeout(db, db.scopes[k].sources) then now == Some(CarriedOver(ReportOf(db, k), g))
      else if k in db.reports && db.reports[k].code == DirectoryTimeout then now == None
      else now == ReportOf(db, k)
  {
    InvalidateAt(db, realm, k);
  }

  // ------------------------------------------------------------------ what a quantum does

  /** The row may be reported on: current, not waiting for a refresh, and a capture still marked. */
  predicate Reportable(db: Db, k: ScopeKey) {
    && k in db.reports && !db.reports[k].complete && k in db.scopes
    && var r, scope := db.reports[k], db.scopes[k];
       && r.generation == scope.generation && scope.fingerprint == Fingerprint(Rows(db, k))
       && (scope.pending ==> r.code == DirectoryTimeout)
       && (r.code == DirectoryTimeout ==> scope.attempts >= DIRECTORY_WRITE_MAX_ATTEMPTS)
       && (r.code == CaptureTimeout ==> HasTimeout(db, scope.sources))
  }

  /** The row has lost its reason: its scope moved on, or its last capture marker was cleared. */
  predicate Obsolete(db: Db, k: ScopeKey) {
    && k in db.reports && !db.reports[k].complete
    && var r := db.reports[k];
       || k !in db.scopes
       || db.scopes[k].generation != r.generation
       || db.scopes[k].fingerprint != Fingerprint(Rows(db, k))
       || (r.code == DirectoryTimeout && db.scopes[k].attempts < DIRECTORY_WRITE_MAX_ATTEMPTS)
       || (r.code == CaptureTimeout && !HasTimeout(db, db.scopes[k].sources))
       || (db.scopes[k].pending && r.code != CaptureTimeout && r.code != DirectoryTimeout)
  }

  /** A quantum removes the row exactly when it is obsolete. */
  lemma FlushRetiresIff(db: Db, k: ScopeKey, candidate: Code, enabled: bool, callback: Callback)
    requires k in db.reports
    ensures k !in Flush(db, k, candidate, enabled, callback).reports <==> Obsolete(db, k)
  {
  }

  /**
   On a reportable row with the provider enabled an acknowledged quantum moves the cursor to the
   next account, a declined or failed one leaves it, and one that finds no account left completes.
   */
  lemma FlushAdvances(db: Db, k: ScopeKey, callback: Callback)
    requires Reportable(db, k)
    ensures var d := Flush(db, k, db.reports[k].code, true, callback);
      var rest := AccountsAfter(Accounts(db.scopes[k].sources), db.reports[k].after);
      && k in d.reports && d == db.(reports := d.reports)
      && d.reports[k] ==
           (if rest == {} then db.reports[k].(complete := true)
            else if callback == Acknowledged
            then db.reports[k].(after := Some(Least(rest)), acked := db.reports[k].acked + [Least(rest)])
            else db.reports[k])
  {
    assert db.reports[k := db.reports[k]] == db.reports;
  }

  /**
   A current row is left alone while the provider is paused, while its scope refreshes, and when the
   unlocked query had seen another code than the capture timeout that stands now.
   */
  lemma FlushPostpones(db: Db, k: ScopeKey, candidate: Code, enabled: bool, callback: Callback)
    requires k in db.reports && !Obsolete(db, k) && k in db.scopes
    requires !enabled || (db.scopes[k].pending && db.reports[k].code != DirectoryTimeout)
      || (db.reports[k].code == CaptureTimeout && candidate != CaptureTimeout)
    ensures Flush(db, k, candidate, enabled, callback) == db
  {
  }

  /** Reporting finishes: a reportable row is completed by as many acknowledgements as are missing. */
  lemma {:induction false} ReportCanComplete(s: State, k: ScopeKey) returns (events: seq<Event>)
    requires Inv(s) && Reportable(s.db, k)
    ensures var d := Run(s, events).db; k in d.reports && d.reports[k].complete && d.reports[k].code == s.db.reports[k].code
    decreases |Accounts(s.db.scopes[k].sources)| - |s.db.reports[k].acked|
  {
    var e := FlushReport(k, s.db.reports[k].code, true, Acknowledged);
    var t := Next(s, e);
    var accounts := Accounts(s.db.scopes[k].sources);
    assert ReportAt(s.db.scopes, s.db.reports, k);
    SortedFacts(AccountSet(Fingerprint(s.db.scopes[k].sources)));
    NextAccount(accounts, s.db.reports[k]);
    FlushAdvances(s.db, k, Acknowledged);
    NextInv(s, e);
    var rest: seq<Event> := [];
    if !t.db.reports[k].complete { rest := StillReportable(s, t, k); }
    events := [e] + rest;
    assert events[1..] == rest;
  }

  lemma {:induction false} StillReportable(s: State, t: State, k: ScopeKey) returns (events: seq<Event>)
    requires Inv(t) && Reportable(s.db, k) && t.db == s.db.(reports := t.db.reports) && k in t.db.reports
    requires !t.db.reports[k].complete && t.db.reports[k].code == s.db.reports[k].code
    requires t.db.reports[k].generation == s.db.reports[k].generation
    requires |s.db.reports[k].acked| < |t.db.reports[k].acked| <= |Accounts(s.db.scopes[k].sources)|
    ensures var d := Run(t, events).db; k in d.reports && d.reports[k].complete && d.reports[k].code == s.db.reports[k].code
    decreases |Accounts(s.db.scopes[k].sources)| - |s.db.reports[k].acked|, 0
  {
    events := ReportCanComplete(t, k);
  }
}
