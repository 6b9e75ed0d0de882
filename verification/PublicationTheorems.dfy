/**
 What publication guarantees over whole runs: a delivered batch was covered page by page, and a
 worker that lost its lease can never change the row again.
 */
module PublicationTheorems {
  import opened Catalogs
  import opened HistoryBatches
  import opened HistoryTables
  import opened FailureReports
  import opened HistoryConfiguration
  import opened HistoryCapture
  import opened HistoryDelivery
  import opened HistoryRuns
  import opened DirectoryProofs
  import opened DirectorySteps
  import opened DeliveryProofs
  import opened DeliverySteps
  import opened HistoryInvariant

  // ------------------------------------------------------------------ leases

  lemma LeaseKeptTransitive(a: map<BatchKey, BatchRow>, b: map<BatchKey, BatchRow>, c: map<BatchKey, BatchRow>)
    requires LeaseKept(a, b) && LeaseKept(b, c)
    ensures LeaseKept(a, c)
  {
    forall bk | bk in c && c[bk].imp.lease.Some? ensures bk in a && c[bk].imp == a[bk].imp {
      assert c[bk].imp == b[bk].imp;
    }
  }

  lemma {:induction false} ReconcileScopesLeases(s: State, keys: seq<ScopeKey>, legacyMatches: bool, legacyGeneration: nat)
    requires Inv(s) && legacyGeneration <= s.db.counter
    ensures LeaseKept(s.db.batches, ReconcileScopes(s.db, keys, legacyMatches, legacyGeneration).batches)
  {
    if keys != [] {
      var init := keys[..|keys| - 1];
      var m := s.(db := ReconcileScopes(s.db, init, legacyMatches, legacyGeneration));
      ReconcileScopesLeases(s, init, legacyMatches, legacyGeneration);
      ReconcileScopesInv(s, init, legacyMatches, legacyGeneration);
      ReconcileScopeRestarts(m.db, keys[|keys| - 1], legacyMatches, legacyGeneration);
      var d := ReconcileScope(m.db, keys[|keys| - 1], legacyMatches, legacyGeneration);
      RestartedLeases(m.db.batches, d.batches);
      LeaseKeptTransitive(s.db.batches, m.db.batches, d.batches);
    }
  }

  predicate Publishes(e: Event) {
    e.ClaimBatch? || e.ReleaseClaim? || e.FailClaim? || e.InstallPage?
  }

  lemma UnpublishedLeases(s: State, e: Event)
    requires Inv(s) && !Publishes(e)
    ensures LeaseKept(s.db.batches, Next(s, e).db.batches)
  {
    if Enabled(s, e) {
      match e
      case Reconciled(keys) =>
        ReconcileScopesLeases(s, keys, s.db.legacy == Some(s.db.desiredLegacy), s.db.counter);
      case DirectoryChanged(realm) => if realm.Some? { InvalidateTables(s.db, realm.value); }
      case Apply(q, fetched) =>
        ApplyRestarts(s.db, q, fetched);
        RestartedLeases(s.db.batches, ApplyRefresh(s.db, q, fetched).batches);
      case Defer(q, code) => if DeferCurrent(s.db, q) { DeferTables(s.db, q, code); }
      case Save(c, job, held) =>
        assert CaptureRow(s.db.scopes, c);
        SaveRestarts(s.db, c, job, held);
        RestartedLeases(s.db.batches, SaveCapture(s.db, c, job, held).batches);
      case FlushReport(k, candidate, enabled, callback) => FlushTables(s.db, k, candidate, enabled, callback);
      case _ =>
    }
  }

  lemma PublishedLeases(s: State, e: Event)
    requires Inv(s) && Enabled(s, e) && (e.ReleaseClaim? || e.FailClaim? || e.InstallPage?)
    ensures LeaseKept(s.db.batches, Next(s, e).db.batches)
  {
    assert ClaimRow(s.db.batches, e.claim, s.leases);
    match e
    case ReleaseClaim(c, receipt, reset) => ReleaseImports(s.db, c, s.leases, Pending, receipt, reset);
    case FailClaim(c, receipt, code, live) =>
      FailTables(s.db, c, receipt, code, live);
      ReleaseImports(s.db, c, s.leases, Pending, None, false);
      ReleaseImports(s.db, c, s.leases, Failed, receipt, false);
    case InstallPage(c, receipt, next, live) => SavePageImports(s.db, c, s.leases, receipt, next, live);
  }

  /** A claim that lost its lease does not get it back: leases are fresh. */
  lemma LeaseLostByStep(s: State, e: Event, c: Claim)
    requires Inv(s) && c in s.claims && !Leased(s.db, c)
    ensures c in Next(s, e).claims && !Leased(Next(s, e).db, c)
  {
    if e.ClaimBatch? && Enabled(s, e) {
      assert ClaimRow(s.db.batches, c, s.leases);
    } else if Enabled(s, e) {
      if Publishes(e) { PublishedLeases(s, e); } else { UnpublishedLeases(s, e); }
      var d := Next(s, e).db;
      assert c.key in d.batches && d.batches[c.key].imp.lease.Some? ==> d.batches[c.key].imp == s.db.batches[c.key].imp;
    }
  }

  lemma {:induction false} LostLeaseStaysLost(s: State, c: Claim, events: seq<Event>)
    requires Inv(s) && c in s.claims && !Leased(s.db, c)
    ensures c in Run(s, events).claims && !Leased(Run(s, events).db, c)
    decreases |events|
  {
    if events != [] {
      LeaseLostByStep(s, events[0], c);
      NextInv(s, events[0]);
      LostLeaseStaysLost(Next(s, events[0]), c, events[1..]);
    }
  }

  /** The worker holding `c` releases, fails or advances its batch. */
  predicate ActsFor(e: Event, c: Claim) {
    (e.ReleaseClaim? || e.FailClaim? || e.InstallPage?) && e.claim == c
  }

  /**
   Once a worker has lost its lease (expired and taken over, released, or retired by a rewrite or
   a reconciliation), nothing it does at any later time has an effect, whatever ran in between.
   */
  lemma LostLeaseIsHarmless(s: State, c: Claim, events: seq<Event>, e: Event)
    requires Inv(s) && c in s.claims && !Leased(s.db, c) && ActsFor(e, c)
    ensures Next(Run(s, events), e) == Run(s, events)
  {
    LostLeaseStaysLost(s, c, events);
  }

  /** A claim loses its lease as soon as the batch is claimed again, or the claim itself is used. */
  lemma UsedOrTakenOver(s: State, c: Claim, e: Event)
    requires Inv(s) && c in s.claims && Enabled(s, e)
    requires (e.ClaimBatch? && e.batch == c.key) || (e.ReleaseClaim? && e.claim == c)
      || (e.InstallPage? && e.claim == c && Installable(s.db, c, e.live))
    ensures !Leased(Next(s, e).db, c)
  {
    assert ClaimRow(s.db.batches, c, s.leases);
  }

  /** The release that follows an installed page never touches the row, whoever ran in between. */
  lemma TrailingReleaseIsNoOp(s: State, c: Claim, page: Uuid, next: Option<string>, events: seq<Event>, receipt: Option<Uuid>)
    requires Inv(s) && c in s.claims && Installable(s.db, c, true)
    ensures var t := Run(Next(s, InstallPage(c, page, next, true)), events);
      Next(t, ReleaseClaim(c, receipt, false)) == t
  {
    var e := InstallPage(c, page, next, true);
    NextInv(s, e);
    UsedOrTakenOver(s, c, e);
    LostLeaseIsHarmless(Next(s, e), c, events, ReleaseClaim(c, receipt, false));
  }

  /** The claim's row, if it has one, after its lease was cleared and nothing else. */
  function LeaseCleared(db: Db, c: Claim): Db {
    if Leased(db, c) then SetImport(db, c.key, db.batches[c.key].imp.(lease := None)) else db
  }

  /** An expired claim installs no page, and its failure is neither recorded nor reported. */
  lemma ExpiredClaimOnlyReleases(s: State, c: Claim, receipt: Option<Uuid>, code: Code, page: Uuid, next: Option<string>)
    requires Inv(s) && c in s.claims
    ensures Next(s, InstallPage(c, page, next, false)) == s
    ensures Next(s, FailClaim(c, receipt, code, false)) == s.(db := LeaseCleared(s.db, c))
  {
    assert ClaimRow(s.db.batches, c, s.leases);
  }

  /** What the row holds after a release that found its lease standing. */
  function AfterRelease(imp: Import, receipt: Option<Uuid>, reset: bool): Import {
    imp.(lease := None,
         receipt := if reset then None else if receipt.Some? then receipt else imp.receipt,
         cursor := if reset then None else imp.cursor,
         pages := if reset then [] else imp.pages)
  }

  /**
   A release does not look at the expiry of its lease: it changes the row exactly when the lease
   still stands, expired or not, and then as given here. With `reset` it discards receipt and cursor.
   */
  lemma ReleaseActsIffLeaseStands(s: State, c: Claim, receipt: Option<Uuid>, reset: bool)
    requires Inv(s) && c in s.claims
    ensures Next(s, ReleaseClaim(c, receipt, reset)) != s <==> Leased(s.db, c)
    ensures Leased(s.db, c) ==>
      Next(s, ReleaseClaim(c, receipt, reset)) ==
        s.(db := SetImport(s.db, c.key, AfterRelease(s.db.batches[c.key].imp, receipt, reset)))
  {
    assert ClaimRow(s.db.batches, c, s.leases);
    if Leased(s.db, c) {
      var d := Next(s, ReleaseClaim(c, receipt, reset)).db;
      assert d.batches[c.key].imp.lease.None?;
    }
  }

  // ------------------------------------------------------------------ one receipt

  /** An answer that names another receipt than the pages installed so far. */
  predicate Mixes(s: State, e: Event) {
    match e
    case ReleaseClaim(c, receipt, reset) =>
      c in s.claims && Leased(s.db, c) && c.cursor.Some? && !reset && receipt.Some? && receipt != c.receipt
    case FailClaim(c, receipt, code, live) =>
      c in s.claims && Current(s.db, c, live) && c.cursor.Some? && receipt.Some? && receipt != c.receipt
    case InstallPage(c, receipt, next, live) =>
      c in s.claims && Installable(s.db, c, live) && c.cursor.Some? && Some(receipt) != c.receipt
    case _ => false
  }

  lemma {:induction false} ReconcileScopesReceipts(s: State, keys: seq<ScopeKey>, legacyMatches: bool, legacyGeneration: nat)
    requires Inv(s) && legacyGeneration <= s.db.counter && Receipts(s.db.batches)
    ensures Receipts(ReconcileScopes(s.db, keys, legacyMatches, legacyGeneration).batches)
  {
    if keys != [] {
      var init := keys[..|keys| - 1];
      var m := ReconcileScopes(s.db, init, legacyMatches, legacyGeneration);
      ReconcileScopesReceipts(s, init, legacyMatches, legacyGeneration);
      ReconcileScopesInv(s, init, legacyMatches, legacyGeneration);
      ReconcileScopeRestarts(m, keys[|keys| - 1], legacyMatches, legacyGeneration);
      RestartedReceipts(m.batches, ReconcileScope(m, keys[|keys| - 1], legacyMatches, legacyGeneration).batches);
    }
  }

  lemma UnpublishedReceipts(s: State, e: Event)
    requires Inv(s) && Receipts(s.db.batches) && !Publishes(e)
    ensures Receipts(Next(s, e).db.batches)
  {
    if Enabled(s, e) {
      match e
      case Reconciled(keys) =>
        ReconcileScopesReceipts(s, keys, s.db.legacy == Some(s.db.desiredLegacy), s.db.counter);
      case DirectoryChanged(realm) => if realm.Some? { InvalidateTables(s.db, realm.value); }
      case Apply(q, fetched) =>
        ApplyRestarts(s.db, q, fetched);
        RestartedReceipts(s.db.batches, ApplyRefresh(s.db, q, fetched).batches);
      case Defer(q, code) => if DeferCurrent(s.db, q) { DeferTables(s.db, q, code); }
      case Save(c, job, held) =>
        assert CaptureRow(s.db.scopes, c);
        SaveRestarts(s.db, c, job, held);
        RestartedReceipts(s.db.batches, SaveCapture(s.db, c, job, held).batches);
      case FlushReport(k, candidate, enabled, callback) => FlushTables(s.db, k, candidate, enabled, callback);
      case _ =>
    }
  }

  lemma SetOneReceipt(db: Db, bk: BatchKey, imp: Import)
    requires Receipts(db.batches) && bk in db.batches
    ensures Receipts(SetImport(db, bk, imp).batches) <==> OneReceipt(imp)
  {
    if OneReceipt(imp) {
      SetReceipts(db, bk, imp);
    } else {
      var d := SetImport(db, bk, imp);
      assert d.batches[bk].imp == imp;
    }
  }

  lemma ReleaseOneReceipt(s: State, c: Claim, status: Status, receipt: Option<Uuid>, reset: bool)
    requires Inv(s) && Receipts(s.db.batches) && c in s.claims && Leased(s.db, c)
    ensures Receipts(Release(s.db, c, status, receipt, reset).batches)
      <==> c.cursor.None? || reset || receipt.None? || receipt == c.receipt
  {
    var imp := s.db.batches[c.key].imp;
    assert ClaimRow(s.db.batches, c, s.leases) && ImportRow(c.key.fromId, imp) && OneReceipt(imp);
    SetOneReceipt(s.db, c.key, ReleasedImport(imp, status, receipt, reset));
    if c.cursor.Some? { assert imp.pages[0] in imp.pages; }
  }

  lemma PageOneReceipt(s: State, c: Claim, receipt: Uuid, next: Option<string>, live: bool)
    requires Inv(s) && Receipts(s.db.batches) && c in s.claims && Installable(s.db, c, live)
    ensures Receipts(SavePage(s.db, c, receipt, next, live).batches) <==> c.cursor.None? || Some(receipt) == c.receipt
  {
    var imp := s.db.batches[c.key].imp;
    assert ClaimRow(s.db.batches, c, s.leases) && ImportRow(c.key.fromId, imp) && OneReceipt(imp);
    var now := PageImport(imp, c, receipt, next);
    SetOneReceipt(s.db, c.key, now);
    if c.cursor.Some? { assert imp.pages[0] in now.pages; }
  }

  /**
   The publisher takes the receipt uuid from each answer without comparing it with the one it
   asked about. A step keeps all pages of every row under one receipt exactly when the answer does
   not name another receipt for a row that already has pages.
   */
  lemma OneReceiptIffNotMixed(s: State, e: Event)
    requires Inv(s) && Receipts(s.db.batches)
    ensures Receipts(Next(s, e).db.batches) <==> !Mixes(s, e)
  {
    if !Publishes(e) {
      UnpublishedReceipts(s, e);
    } else if Enabled(s, e) {
      match e
      case ClaimBatch(bk, allow, complete) => ClaimReceipts(s.db, bk, s.leases, allow);
      case ReleaseClaim(c, receipt, reset) => if Leased(s.db, c) { ReleaseOneReceipt(s, c, Pending, receipt, reset); }
      case FailClaim(c, receipt, code, live) =>
        FailTables(s.db, c, receipt, code, live);
        if Leased(s.db, c) {
          ReleaseOneReceipt(s, c, Pending, None, false);
          ReleaseOneReceipt(s, c, Failed, receipt, false);
        }
      case InstallPage(c, receipt, next, live) => if Installable(s.db, c, live) { PageOneReceipt(s, c, receipt, next, live); }
    }
  }

  /** No answer along the run named another receipt. */
  predicate NeverMixes(s: State, events: seq<Event>)
    decreases |events|
  {
    events == [] || (!Mixes(s, events[0]) && NeverMixes(Next(s, events[0]), events[1..]))
  }

  lemma {:induction false} RunReceipts(s: State, events: seq<Event>)
    requires Inv(s) && Receipts(s.db.batches) && NeverMixes(s, events)
    ensures Receipts(Run(s, events).db.batches)
    decreases |events|
  {
    if events != [] {
      OneReceiptIffNotMixed(s, events[0]);
      NextInv(s, events[0]);
      RunReceipts(Next(s, events[0]), events[1..]);
    }
  }

  // ------------------------------------------------------------------ delivered means covered

  /**
   A batch is complete only after, for each account of its source set in order, every user page
   and then every message page was installed, each page continuing where the one before ended.
   All pages carry that source set, and, unless the scope is refreshing again, its generation.
   */
  lemma DeliveredMeansCovered(s: State, events: seq<Event>, bk: BatchKey)
    requires Initial(s) && bk in Run(s, events).db.batches
    requires Run(s, events).db.batches[bk].imp.status == Complete
    ensures var db := Run(s, events).db; var imp := db.batches[bk].imp;
      && bk.fromId > 0 && imp.sources.Some? && 0 < |imp.sources.value| <= MAX_SOURCES
      && Covers(imp.pages, PublishAccounts(imp.sources.value), bk.fromId)
      && (forall p :: p in imp.pages ==> p.sources == imp.sources.value)
      && (bk.scope in db.scopes && !db.scopes[bk.scope].pending ==>
            forall p :: p in imp.pages ==> p.generation == db.scopes[bk.scope].generation)
  {
    AlwaysInv(s, events);
    var db := Run(s, events).db;
    var imp := db.batches[bk].imp;
    assert ImportRow(bk.fromId, imp);
    assert SettledAt(db.scopes, bk, db.batches[bk]);
    CompleteCovers(imp.pages, PublishAccounts(imp.sources.value), bk.fromId);
  }

  /** And under a single receipt, as long as no answer named another one. */
  lemma DeliveredUnderOneReceipt(s: State, events: seq<Event>, bk: BatchKey, p: Page)
    requires Initial(s) && NeverMixes(s, events) && bk in Run(s, events).db.batches
    requires p in Run(s, events).db.batches[bk].imp.pages
    ensures Run(s, events).db.batches[bk].imp.receipt == Some(p.receipt)
  {
    InitialInv(s);
    assert Receipts(s.db.batches);
    RunReceipts(s, events);
    assert OneReceipt(Run(s, events).db.batches[bk].imp);
  }

  /** A row without a receipt has no cursor, and the cursor of an undelivered row names an account. */
  lemma CursorInBounds(s: State, events: seq<Event>, bk: BatchKey)
    requires Initial(s) && bk in Run(s, events).db.batches
    ensures var imp := Run(s, events).db.batches[bk].imp;
      && (imp.receipt.None? ==> imp.cursor.None?)
      && (imp.cursor.Some? ==>
          && imp.sources.Some? && imp.cursor.value.account <= |PublishAccounts(imp.sources.value)|
          && (imp.cursor.value.account < |PublishAccounts(imp.sources.value)| <==> imp.status != Complete))
  {
    AlwaysInv(s, events);
    assert ImportRow(bk.fromId, Run(s, events).db.batches[bk].imp);
  }

  // ------------------------------------------------------------------ receipts can mix

  const SCOPE: ScopeKey := ScopeKey(1, 1)
  const RANGE: BatchKey := BatchKey(SCOPE, 1)
  const SELECTED: seq<Source> := [Source(SourceIdentity(7, 1, 2, "stream:5", "full", 3), 1)]

  /** One captured batch and one selected chat of one account, before the first reconciliation. */
  function Captured(): State {
    var body := SealBatch(1, BATCH_SIZE, [], []);
    State(Db(0, Some(0), map[], map[], map[RANGE := BatchRow(body, NEW_IMPORT, [body])], {}, map[],
             map[SCOPE := SELECTED], 0), {}, {}, {}, 0)
  }

  lemma OneAccount()
    ensures PublishAccounts(Publish(SELECTED)) == [7]
  {
    var sources := Publish(SELECTED);
    var accounts := set i | 0 <= i < |sources| :: sources[i].account;
    assert sources[0].account == 7;
    assert accounts == {7};
    SortedUnique([7], accounts);
  }

  /** The scope after the first reconciliation: its captures predate scoped configuration. */
  lemma FirstReconciliation()
    ensures Initial(Captured())
    ensures var db := Next(Captured(), Reconciled([SCOPE])).db;
      && db.batches == Captured().db.batches && db.desired == Captured().db.desired
      && db.scopes == map[SCOPE := Scope(0, Fingerprint(SELECTED), SELECTED, false, 0, 0, 0, 0, [], 0, [])]
  {
    var s := Captured();
    assert s.db.batches[RANGE].body.fromId == 1;
    assert KnownScopes(s.db) == {SCOPE};
    assert ReconcileScopes(s.db, [SCOPE][..0], true, 0) == s.db;
  }

  ghost predicate Ready(s: State, imp: Import) {
    && Inv(s) && Receipts(s.db.batches)
    && s.db.desired == map[SCOPE := SELECTED]
    && s.db.scopes == map[SCOPE := Scope(0, Fingerprint(SELECTED), SELECTED, false, 0, 0, 0, 0, [], 0, [])]
    && RANGE in s.db.batches && s.db.batches[RANGE].imp == imp && imp.status == Pending
    && (imp == NEW_IMPORT || imp.sources == Some(Publish(SELECTED)))
  }

  /** A claimed range is ready to install its next page. */
  lemma ClaimReady(s: State, imp: Import) returns (c: Claim)
    requires Ready(s, imp)
    ensures var t := Next(s, ClaimBatch(RANGE, true, true));
      && c in t.claims && Installable(t.db, c, true) && Ready(t, t.db.batches[RANGE].imp)
      && c.cursor == imp.cursor && c.receipt == imp.receipt && c.key == RANGE && c.sources == Publish(SELECTED)
  {
    var e := ClaimBatch(RANGE, true, true);
    NextInv(s, e);
    OneReceiptIffNotMixed(s, e);
    OneAccount();
    assert ImportRow(1, imp);
    c := Claim(RANGE, s.leases, 0, Publish(SELECTED), imp.receipt, imp.cursor, false);
    assert ClaimItem(s.db, RANGE, s.leases, true) == Some(c);
    AccountIndexInBounds(Next(s, e).db.batches[RANGE].imp, 1, c);
  }

  lemma FirstPage(s: State, c: Claim, imp: Import)
    requires Ready(s, imp) && c in s.claims && Installable(s.db, c, true) && c.cursor == None
    requires c.key == RANGE && c.sources == Publish(SELECTED)
    ensures var t := Next(s, InstallPage(c, 100, Some("9"), true));
      Ready(t, t.db.batches[RANGE].imp) && t.db.batches[RANGE].imp.receipt == Some(100)
        && t.db.batches[RANGE].imp.cursor.Some?
  {
    var e := InstallPage(c, 100, Some("9"), true);
    NextInv(s, e);
    OneReceiptIffNotMixed(s, e);
    assert ClaimRow(s.db.batches, c, s.leases);
  }

  lemma FirstReady() returns (events: seq<Event>)
    ensures Initial(Captured()) && Ready(Run(Captured(), events), NEW_IMPORT)
  {
    var s := Captured();
    events := [Reconciled([SCOPE])];
    FirstReconciliation();
    InitialInv(s);
    NextInv(s, events[0]);
    RunAppend(s, [], events[0]);
    assert [] + [events[0]] == events;
  }

  lemma ClaimedRun(s: State, events: seq<Event>, imp: Import) returns (longer: seq<Event>, c: Claim, now: Import)
    requires Ready(Run(s, events), imp)
    ensures var t := Run(s, longer);
      && c in t.claims && Installable(t.db, c, true) && Ready(t, now)
      && c.cursor == imp.cursor && c.receipt == imp.receipt && c.key == RANGE && c.sources == Publish(SELECTED)
  {
    var e := ClaimBatch(RANGE, true, true);
    c := ClaimReady(Run(s, events), imp);
    longer := events + [e];
    RunAppend(s, events, e);
    now := Next(Run(s, events), e).db.batches[RANGE].imp;
  }

  /** Two pages answered under different receipts end up in one row. */
  lemma ReceiptsCanMix()
    ensures exists s, events :: Initial(s) && !Receipts(Run(s, events).db.batches)
  {
    var s := Captured();
    var first := FirstReady();
    var second, c, claimed := ClaimedRun(s, first, NEW_IMPORT);
    var page := InstallPage(c, 100, Some("9"), true);
    FirstPage(Run(s, second), c, claimed);
    RunAppend(s, second, page);
    var third, c', now := ClaimedRun(s, second + [page], Run(s, second + [page]).db.batches[RANGE].imp);
    OneReceiptIffNotMixed(Run(s, third), InstallPage(c', 200, None, true));
    RunAppend(s, third, InstallPage(c', 200, None, true));
  }

  /**
   Reachable: a claim that no longer may install anything because it expired still discards the
   receipt and the cursor of its row, and with them the page installed before.
   */
  lemma ExpiredReleaseDiscards() returns (s: State, events: seq<Event>, c: Claim)
    ensures Initial(s)
    ensures var t := Run(s, events);
      && c in t.claims && c.key in t.db.batches && t.db.batches[c.key].imp.cursor.Some?
      && Next(t, InstallPage(c, 200, None, false)) == t
      && var d := Next(t, ReleaseClaim(c, None, true)).db;
         c.key in d.batches && d.batches[c.key].imp.receipt.None? && d.batches[c.key].imp.cursor.None? && d.batches[c.key].imp.pages == []
  {
    s := Captured();
    var first := FirstReady();
    var second, c1, claimed := ClaimedRun(s, first, NEW_IMPORT);
    var page := InstallPage(c1, 100, Some("9"), true);
    FirstPage(Run(s, second), c1, claimed);
    RunAppend(s, second, page);
    var now: Import;
    events, c, now := ClaimedRun(s, second + [page], Run(s, second + [page]).db.batches[RANGE].imp);
    ExpiredReset(Run(s, events), c, now);
  }

  lemma ExpiredReset(t: State, c: Claim, imp: Import)
    requires Ready(t, imp) && c in t.claims && c.key == RANGE && Leased(t.db, c) && c.cursor.Some?
    ensures c.key in t.db.batches && t.db.batches[c.key].imp.cursor.Some?
    ensures Next(t, InstallPage(c, 200, None, false)) == t
    ensures var d := Next(t, ReleaseClaim(c, None, true)).db;
      c.key in d.batches && d.batches[c.key].imp.receipt.None? && d.batches[c.key].imp.cursor.None? && d.batches[c.key].imp.pages == []
  {
    assert ClaimRow(t.db.batches, c, t.leases);
    ExpiredClaimOnlyReleases(t, c, None, CaptureTimeout, 200, None);
    ReleaseActsIffLeaseStands(t, c, None, true);
  }
}
