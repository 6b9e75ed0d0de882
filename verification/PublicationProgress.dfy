/**
 What a claim hands out, and that publication can always be finished.
 */
module PublicationProgress {
  import opened Catalogs
  import opened Decimal
  import opened HistoryTables
  import opened FailureReports
  import opened HistoryDelivery
  import opened HistoryRuns
  import opened DeliveryProofs
  import opened HistoryInvariant

  /** The publication envelope names each desired source once, in order, up to one past the limit. */
  lemma SourcesOfScope(db: Db, k: ScopeKey)
    ensures var sources, rows := SourcesFor(db, k), Rows(db, k);
      && |sources| == (if |rows| <= MAX_SOURCES then |rows| else MAX_SOURCES + 1)
      && forall i :: 0 <= i < |sources| ==>
           && sources[i].account == rows[i].identity.account && sources[i].chat == rows[i].identity.chat
           && sources[i].accountGeneration == rows[i].identity.accountGeneration
           && sources[i].assignmentGeneration == rows[i].assignmentGeneration
  {
  }

  /** A claim that hands the batch to a worker. */
  predicate Granted(imp: Import, sources: seq<PublishSource>, allowAdmission: bool) {
    allowAdmission || (imp.sources == Some(sources) && imp.receipt.Some?)
  }

  /**
   A claim puts a fresh lease and the current source set on the row. A receipt of the same source set
   goes on; any other is given up with its cursor. Without admission a batch left without a receipt
   is not handed out, and keeps no lease.
   */
  lemma ClaimLeaves(s: State, bk: BatchKey, allow: bool, complete: bool)
    requires Claimable(s.db, bk, allow, complete)
    ensures var t := Next(s, ClaimBatch(bk, allow, complete));
      var was, now := s.db.batches[bk].imp, t.db.batches[bk].imp;
      var sources := SourcesFor(s.db, bk.scope);
      var same := was.sources == Some(sources);
      && now.status == was.status && now.sources == Some(sources)
      && now.receipt == (if same then was.receipt else None) && now.cursor == (if same then was.cursor else None)
      && now.lease == (if Granted(was, sources, allow) then Some(s.leases) else None)
      && t.db.batches[bk].body == s.db.batches[bk].body && t.db == s.db.(batches := t.db.batches)
      && t.claims == s.claims + (if Granted(was, sources, allow)
           then {Claim(bk, s.leases, s.db.scopes[bk.scope].generation, sources, now.receipt, now.cursor, |sources| > MAX_SOURCES)}
           else {})
  {
  }

  /**
   A batch is claimed exactly when it is pending in a scope that is not refreshing and matches the
   desired sources, has a receipt if nothing may be admitted, and its sources have all been captured
   or are too many.
   */
  lemma ClaimedIff(s: State, bk: BatchKey, allow: bool, complete: bool)
    ensures Next(s, ClaimBatch(bk, allow, complete)) != s <==>
      && bk in s.db.batches && s.db.batches[bk].imp.status == Pending && (allow || s.db.batches[bk].imp.receipt.Some?)
      && bk.scope in s.db.scopes && !s.db.scopes[bk.scope].pending
      && s.db.scopes[bk.scope].fingerprint == Fingerprint(Rows(s.db, bk.scope))
      && (|Rows(s.db, bk.scope)| > MAX_SOURCES || (Rows(s.db, bk.scope) != [] && complete))
  {
    SourcesOfScope(s.db, bk.scope);
  }

  /** A batch just claimed may be published: its claim is current. */
  lemma FreshClaimIsCurrent(s: State, bk: BatchKey, allow: bool, complete: bool, c: Claim)
    requires Claimable(s.db, bk, allow, complete) && c in Next(s, ClaimBatch(bk, allow, complete)).claims && c !in s.claims
    ensures Current(Next(s, ClaimBatch(bk, allow, complete)).db, c, true)
  {
    ClaimLeaves(s, bk, allow, complete);
  }

  /**
   A page is installed exactly under a standing, live lease, for a scope that is not refreshing, has
   the claim's generation and still names exactly the claim's sources, at an account there is.
   */
  lemma PageInstalledIff(s: State, c: Claim, receipt: nat, next: Option<string>, live: bool)
    requires Inv(s) && c in s.claims
    ensures Next(s, InstallPage(c, receipt, next, live)) != s <==>
      && live && !c.oversized && c.key in s.db.batches && s.db.batches[c.key].imp.lease == Some(c.lease)
      && c.key.scope in s.db.scopes && !s.db.scopes[c.key.scope].pending
      && s.db.scopes[c.key.scope].generation == c.generation
      && s.db.scopes[c.key.scope].fingerprint == Fingerprint(Rows(s.db, c.key.scope))
      && c.sources == SourcesFor(s.db, c.key.scope)
  {
    assert ClaimRow(s.db.batches, c, s.leases);
    if c.key in s.db.batches {
      assert ImportRow(c.key.fromId, s.db.batches[c.key].imp);
      if s.db.batches[c.key].imp.lease == Some(c.lease) {
        AccountIndexInBounds(s.db.batches[c.key].imp, c.key.fromId, c);
      }
    }
  }

  // ------------------------------------------------------------------ publication can finish

  /** Chains still to install: two for each account, less those before the cursor. */
  function ChainsLeft(imp: Import, accounts: nat): int {
    var at := Position(imp.cursor);
    2 * (accounts - at.account) - if at.kind == MessagePages then 1 else 0
  }

  ghost predicate Publishable(s: State, bk: BatchKey) {
    && Inv(s) && Claimable(s.db, bk, true, true)
    && s.db.batches[bk].imp.sources == Some(SourcesFor(s.db, bk.scope))
    && |SourcesFor(s.db, bk.scope)| <= MAX_SOURCES
  }

  /** One more chain is claimed and installed as a single final page. */
  lemma OneChain(s: State, bk: BatchKey) returns (events: seq<Event>)
    requires Publishable(s, bk)
    ensures var t := Run(s, events); var n := |PublishAccounts(SourcesFor(s.db, bk.scope))|;
      && Inv(t) && bk in t.db.batches && SourcesFor(t.db, bk.scope) == SourcesFor(s.db, bk.scope)
      && ChainsLeft(t.db.batches[bk].imp, n) == ChainsLeft(s.db.batches[bk].imp, n) - 1
      && (t.db.batches[bk].imp.status == Complete || Publishable(t, bk))
  {
    var claim := ClaimBatch(bk, true, true);
    var a := Next(s, claim);
    ClaimLeaves(s, bk, true, true);
    NextInv(s, claim);
    var imp := a.db.batches[bk].imp;
    var c := Claim(bk, s.leases, s.db.scopes[bk.scope].generation, SourcesFor(s.db, bk.scope), imp.receipt, imp.cursor, false);
    assert c in a.claims;
    var page := InstallPage(c, if imp.receipt.Some? then imp.receipt.value else 0, None, true);
    OnePage(a, c, if imp.receipt.Some? then imp.receipt.value else 0);
    NextInv(a, page);
    RunAppend(s, [], claim);
    RunAppend(s, [claim], page);
    assert [] + [claim] == [claim] && Run(s, []) == s;
    events := [claim] + [page];
  }

  lemma OnePage(a: State, c: Claim, receipt: Uuid)
    requires Inv(a) && c in a.claims && Current(a.db, c, true) && !c.oversized
    ensures var d := Next(a, InstallPage(c, receipt, None, true)).db; var n := |PublishAccounts(c.sources)|;
      && c.key in d.batches && d == a.db.(batches := d.batches) && d.batches[c.key].imp.sources == Some(c.sources)
      && ChainsLeft(d.batches[c.key].imp, n) == ChainsLeft(a.db.batches[c.key].imp, n) - 1
      && (d.batches[c.key].imp.status == Complete || d.batches[c.key].imp.status == Pending)
  {
    assert ClaimRow(a.db.batches, c, a.leases) && ImportRow(c.key.fromId, a.db.batches[c.key].imp);
    AccountIndexInBounds(a.db.batches[c.key].imp, c.key.fromId, c);
  }

  lemma {:induction false} ClaimedCanBeDelivered(s: State, bk: BatchKey) returns (events: seq<Event>)
    requires Publishable(s, bk)
    ensures bk in Run(s, events).db.batches && Run(s, events).db.batches[bk].imp.status == Complete
    decreases ChainsLeft(s.db.batches[bk].imp, |PublishAccounts(SourcesFor(s.db, bk.scope))|)
  {
    LeftIsPositive(s, bk);
    var first := OneChain(s, bk);
    var t := Run(s, first);
    if t.db.batches[bk].imp.status == Complete {
      events := first;
    } else {
      var rest := ClaimedCanBeDelivered(t, bk);
      events := first + rest;
      RunConcat(s, first, rest);
    }
  }

  /**
   Publication cannot get stuck: from every state in which a batch of an acceptable source set may be
   claimed, whatever it has installed so far, some run of claims and pages delivers it.
   */
  lemma BatchCanBeDelivered(s: State, bk: BatchKey) returns (events: seq<Event>)
    requires Inv(s) && Claimable(s.db, bk, true, true) && |SourcesFor(s.db, bk.scope)| <= MAX_SOURCES
    ensures bk in Run(s, events).db.batches && Run(s, events).db.batches[bk].imp.status == Complete
  {
    var claim := ClaimBatch(bk, true, true);
    ClaimLeaves(s, bk, true, true);
    NextInv(s, claim);
    var rest := ClaimedCanBeDelivered(Next(s, claim), bk);
    events := [claim] + rest;
    assert events[1..] == rest;
  }

  lemma LeftIsPositive(s: State, bk: BatchKey)
    requires Publishable(s, bk)
    ensures ChainsLeft(s.db.batches[bk].imp, |PublishAccounts(SourcesFor(s.db, bk.scope))|) > 0
  {
    var imp, sources := s.db.batches[bk].imp, SourcesFor(s.db, bk.scope);
    assert ImportRow(bk.fromId, imp);
    SortedFacts(set i | 0 <= i < |sources| :: sources[i].account);
    assert sources[0].account in PublishAccounts(sources);
  }

  lemma {:induction false} RunConcat(s: State, first: seq<Event>, rest: seq<Event>)
    ensures Run(s, first + rest) == Run(Run(s, first), rest)
    decreases |first|
  {
    if first == [] {
      assert first + rest == rest;
    } else {
      RunConcat(Next(s, first[0]), first[1..], rest);
      assert (first + rest)[1..] == first[1..] + rest;
    }
  }
}
