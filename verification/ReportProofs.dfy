/**
 Failure reports: the cursor names exactly the accounts acknowledged for the row's code, in
 order, and a complete report has reached every account of the scope.
 */
module ReportProofs {
  import opened Catalogs
  import HistoryBatches
  import opened HistoryTables
  import opened FailureReports
  import opened HistoryConfiguration

  /** The acknowledged accounts are the first ones in order; the cursor is the last of them. */
  ghost predicate ReportRow(r: Report, accounts: seq<Uuid>) {
    && |r.acked| <= |accounts|
    && r.acked == accounts[..|r.acked|]
    && r.after == (if r.acked == [] then None else Some(r.acked[|r.acked| - 1]))
    && (r.complete ==> r.acked == accounts)
  }

  ghost predicate ReportAt(scopes: map<ScopeKey, Scope>, reports: map<ScopeKey, Report>, k: ScopeKey) {
    k in reports ==> k in scopes && ReportRow(reports[k], Accounts(scopes[k].sources))
  }

  ghost predicate Reports(scopes: map<ScopeKey, Scope>, reports: map<ScopeKey, Report>) {
    forall k {:trigger ReportAt(scopes, reports, k)} :: ReportAt(scopes, reports, k)
  }

  /** The rows agree on everything but their assignment generations. */
  predicate SameSources(a: seq<Source>, b: seq<Source>) {
    |a| == |b| && forall i :: 0 <= i < |a| ==>
      && a[i].identity.account == b[i].identity.account && a[i].identity.accountGeneration == b[i].identity.accountGeneration
      && a[i].identity.chat == b[i].identity.chat && a[i].identity.chatKey == b[i].identity.chatKey
      && a[i].identity.depth == b[i].identity.depth && a[i].identity.owner == b[i].identity.owner
  }

  /** A fingerprint changes exactly when something other than an assignment generation does. */
  lemma FingerprintIff(a: seq<Source>, b: seq<Source>)
    ensures Fingerprint(a) == Fingerprint(b) <==> SameSources(a, b)
  {
    if Fingerprint(a) == Fingerprint(b) {
      assert |Fingerprint(a)| == |Fingerprint(b)|;
      forall i | 0 <= i < |a| ensures a[i].identity == b[i].identity {
        assert Fingerprint(a)[i] == Fingerprint(b)[i];
      }
    }
  }

  /** Equal fingerprints force equal accounts. */
  lemma SameFingerprintSameAccounts(a: seq<Source>, b: seq<Source>)
    requires Fingerprint(a) == Fingerprint(b)
    ensures Accounts(a) == Accounts(b)
  {
  }

  lemma NewReportRow(generation: nat, code: Code, accounts: seq<Uuid>)
    ensures ReportRow(NewReport(generation, code), accounts)
  {
  }

  lemma RecordReports(db: Db, k: ScopeKey, generation: nat, code: Code, restartCompleted: bool)
    requires Reports(db.scopes, db.reports) && k in db.scopes
    ensures Reports(db.scopes, Record(db, k, generation, code, restartCompleted).reports)
  {
    var d := Record(db, k, generation, code, restartCompleted);
    NewReportRow(generation, code, Accounts(db.scopes[k].sources));
    assert ReportAt(db.scopes, db.reports, k);
    PutReport(db.scopes, db.reports, k, d.reports[k]);
  }

  lemma CarryCaptureReports(db: Db, generation: nat)
    requires Reports(db.scopes, db.reports)
    ensures Reports(db.scopes, CarryCapture(db, generation).reports)
  {
    var d := CarryCapture(db, generation);
    forall k ensures ReportAt(db.scopes, d.reports, k) {
      assert ReportAt(db.scopes, db.reports, k);
      if k in CaptureScopes(db, generation) {
        NewReportRow(generation, CaptureTimeout, Accounts(db.scopes[k].sources));
      }
    }
  }

  lemma CarryDirectoryReports(db: Db, generation: nat)
    requires Reports(db.scopes, db.reports)
    ensures Reports(db.scopes, CarryDirectory(db, generation).reports)
  {
    var d := CarryDirectory(db, generation);
    forall k ensures ReportAt(db.scopes, d.reports, k) {
      assert ReportAt(db.scopes, db.reports, k);
    }
  }

  /** Scope rows may change as long as the scopes with reports keep their sources. */
  lemma SameSourcesReports(scopes: map<ScopeKey, Scope>, now: map<ScopeKey, Scope>, reports: map<ScopeKey, Report>)
    requires Reports(scopes, reports)
    requires forall k :: k in scopes ==> k in now && now[k].sources == scopes[k].sources
    ensures Reports(now, reports)
  {
    forall k ensures ReportAt(now, reports, k) {
      assert ReportAt(scopes, reports, k);
    }
  }

  lemma SameFingerprintReports(scopes: map<ScopeKey, Scope>, k: ScopeKey, now: Scope, reports: map<ScopeKey, Report>)
    requires Reports(scopes, reports) && k in scopes
    requires Fingerprint(scopes[k].sources) == Fingerprint(now.sources)
    ensures Reports(scopes[k := now], reports)
  {
    SameFingerprintSameAccounts(scopes[k].sources, now.sources);
    var after := scopes[k := now];
    forall o ensures ReportAt(after, reports, o) {
      assert ReportAt(scopes, reports, o);
    }
  }

  lemma FewerReports(scopes: map<ScopeKey, Scope>, reports: map<ScopeKey, Report>, fewer: map<ScopeKey, Report>)
    requires Reports(scopes, reports)
    requires forall k :: k in fewer ==> k in reports && fewer[k] == reports[k]
    ensures Reports(scopes, fewer)
  {
    forall k ensures ReportAt(scopes, fewer, k) {
      assert ReportAt(scopes, reports, k);
    }
  }

  lemma PutReport(scopes: map<ScopeKey, Scope>, reports: map<ScopeKey, Report>, k: ScopeKey, r: Report)
    requires Reports(scopes, reports) && k in scopes && ReportRow(r, Accounts(scopes[k].sources))
    ensures Reports(scopes, reports[k := r])
  {
    var after := reports[k := r];
    forall o ensures ReportAt(scopes, after, o) {
      assert ReportAt(scopes, reports, o);
    }
  }

  /** The first account after the cursor is the next one in order. */
  lemma NextAccount(accounts: seq<Uuid>, r: Report)
    requires Ascending(accounts) && ReportRow(r, accounts)
    ensures var rest := AccountsAfter(accounts, r.after);
      && (rest == {} <==> |r.acked| == |accounts|)
      && (rest != {} ==> Least(rest) == accounts[|r.acked|])
  {
    var n, rest := |r.acked|, AccountsAfter(accounts, r.after);
    forall i | 0 <= i < |accounts| ensures accounts[i] in rest <==> n <= i {
      if n > 0 { assert r.after == Some(accounts[n - 1]); }
    }
    if n < |accounts| {
      assert accounts[n] in rest;
      assert forall a :: a in rest ==> accounts[n] <= a;
    } else {
      assert forall a :: a in accounts ==> a !in rest;
    }
  }

  lemma FlushedRow(accounts: seq<Uuid>, r: Report, callback: Callback)
    requires Ascending(accounts) && ReportRow(r, accounts) && !r.complete
    ensures ReportRow(Reported(r, accounts, callback), accounts)
  {
    NextAccount(accounts, r);
    assert accounts[..|accounts|] == accounts;
    if |r.acked| < |accounts| {
      assert accounts[..|r.acked| + 1] == accounts[..|r.acked|] + [accounts[|r.acked|]];
    }
  }

  /** A quantum leaves the row, retires it, or reports its next account. */
  lemma FlushCases(db: Db, k: ScopeKey, candidate: Code, enabled: bool, callback: Callback)
    ensures var d := Flush(db, k, candidate, enabled, callback);
      || d.reports == db.reports
      || (k in db.reports && Retired(db, k, db.reports[k]) && d.reports == db.reports - {k})
      || (&& k in db.reports && !db.reports[k].complete && k in db.scopes
          && !Retired(db, k, db.reports[k]) && !Postponed(db, k, db.reports[k], candidate, enabled)
          && d.reports == db.reports[k := Reported(db.reports[k], Accounts(db.scopes[k].sources), callback)])
  {
  }

  lemma FlushReports(db: Db, k: ScopeKey, candidate: Code, enabled: bool, callback: Callback)
    requires Reports(db.scopes, db.reports)
    ensures Reports(db.scopes, Flush(db, k, candidate, enabled, callback).reports)
  {
    var d := Flush(db, k, candidate, enabled, callback);
    FlushCases(db, k, candidate, enabled, callback);
    if d.reports == db.reports - {k} {
      FewerReports(db.scopes, db.reports, d.reports);
    } else if d.reports != db.reports {
      assert ReportAt(db.scopes, db.reports, k);
      SortedFacts(AccountSet(Fingerprint(db.scopes[k].sources)));
      FlushedRow(Accounts(db.scopes[k].sources), db.reports[k], callback);
      PutReport(db.scopes, db.reports, k, d.reports[k]);
    }
  }

  lemma MarkReports(db: Db, realm: Uuid)
    requires Reports(db.scopes, db.reports)
    ensures Reports(Mark(db, realm).scopes, db.reports)
  {
    SameSourcesReports(db.scopes, Mark(db, realm).scopes, db.reports);
  }

  lemma RetireReports(db: Db, generation: nat)
    requires Reports(db.scopes, db.reports)
    ensures Reports(db.scopes, RetireDirectory(db, generation).reports)
  {
    FewerReports(db.scopes, db.reports, RetireDirectory(db, generation).reports);
  }

  lemma InvalidateReports(db: Db, realm: Option<Uuid>)
    requires Reports(db.scopes, db.reports)
    ensures Reports(Invalidate(db, realm).scopes, Invalidate(db, realm).reports)
  {
    if realm.Some? {
      var g := db.counter + 1;
      MarkReports(db, realm.value);
      RetireReports(Mark(db, realm.value), g);
      CarryCaptureReports(RetireDirectory(Mark(db, realm.value), g), g);
    }
  }

  lemma RestampReports(db: Db, k: ScopeKey, rows: seq<Source>)
    requires Reports(db.scopes, db.reports) && k in db.scopes && Fingerprint(db.scopes[k].sources) == Fingerprint(rows)
    ensures Reports(Restamp(db, k, rows).scopes, Restamp(db, k, rows).reports)
  {
    var g := db.counter + 1;
    SameFingerprintReports(db.scopes, k, db.scopes[k].(sources := rows, generation := g), db.reports);
    CarryDirectoryReports(Stamp(db, k, rows), g);
    CarryCaptureReports(CarryDirectory(Stamp(db, k, rows), g), g);
  }

  lemma ReconcileScopeReports(db: Db, k: ScopeKey, legacyMatches: bool, legacyGeneration: nat)
    requires Reports(db.scopes, db.reports)
    requires k in db.scopes ==> db.scopes[k].fingerprint == Fingerprint(db.scopes[k].sources)
    ensures var d := ReconcileScope(db, k, legacyMatches, legacyGeneration); Reports(d.scopes, d.reports)
  {
    var rows := Rows(db, k);
    var d := ReconcileScope(db, k, legacyMatches, legacyGeneration);
    if k in db.scopes && db.scopes[k].fingerprint == Fingerprint(rows) {
      RestampReports(db, k, rows);
    } else {
      forall o ensures ReportAt(d.scopes, d.reports, o) {
        assert ReportAt(db.scopes, db.reports, o);
      }
    }
  }

  /** Applying or deferring a quantum keeps every scope's accounts. */
  lemma ApplyReports(db: Db, q: Quantum, fetched: seq<HistoryBatches.User>)
    requires Reports(db.scopes, db.reports)
    ensures var d := ApplyRefresh(db, q, fetched); Reports(d.scopes, d.reports)
  {
    ApplyTables(db, q, fetched);
    SameSourcesReports(db.scopes, ApplyRefresh(db, q, fetched).scopes, db.reports);
  }

  lemma DeferReports(db: Db, q: Quantum, code: Code)
    requires Reports(db.scopes, db.reports)
    ensures var d := DeferDirectory(db, q, code); Reports(d.scopes, d.reports)
  {
    if DeferCurrent(db, q) {
      var scope := db.scopes[q.key];
      var attempts := scope.attempts + if code == DirectoryTimeout then 1 else 0;
      var deferred := db.(scopes := db.scopes[q.key := scope.(attempts := attempts)]);
      SameSourcesReports(db.scopes, deferred.scopes, db.reports);
      RecordReports(deferred, q.key, scope.generation, code, false);
    }
  }
}
