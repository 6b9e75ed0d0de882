/**
 A batch is marked delivered only after every account's user pages and then message pages were
 installed without a gap, under one source set and one receipt.
 */
module DeliveryProofs {
  import opened Catalogs
  import opened Decimal
  import opened HistoryTables
  import opened HistoryConfiguration
  import opened HistoryDelivery

  // ------------------------------------------------------------------ what complete means

  /** Pages of one kind for one account, each continuing the one before, the last one final. */
  ghost predicate CompleteChain(pages: seq<Page>, account: Uuid, kind: Kind, start: string) {
    && pages != [] && pages[0].after == start
    && (forall p :: p in pages ==> p.account == account && p.kind == kind)
    && (forall i :: 0 <= i < |pages| - 1 ==> pages[i].next == Some(pages[i + 1].after))
    && pages[|pages| - 1].next == None
  }

  /** For every account in order: all its user pages, then all its message pages. */
  ghost predicate Covers(pages: seq<Page>, accounts: seq<Uuid>, fromId: nat)
    requires fromId > 0
    decreases |accounts|
  {
    if accounts == [] then pages == [] else
    exists u, m :: 0 <= u <= m <= |pages| && CoversSplit(pages, accounts, fromId, u, m)
  }

  ghost predicate CoversSplit(pages: seq<Page>, accounts: seq<Uuid>, fromId: nat, u: nat, m: nat)
    requires fromId > 0 && u <= m <= |pages| && accounts != []
    decreases |accounts|, 0
  {
    var account := accounts[|accounts| - 1];
    && Covers(pages[..u], accounts[..|accounts| - 1], fromId)
    && CompleteChain(pages[u..m], account, UserPages, "0")
    && CompleteChain(pages[m..], account, MessagePages, Digits(fromId - 1))
  }

  // ------------------------------------------------------------------ what the cursor tracks

  /** The cursor after the pages were installed in order. */
  function Replay(pages: seq<Page>, fromId: nat): MappingCursor
    requires fromId > 0
  {
    if pages == [] then START
    else Advance(Replay(pages[..|pages| - 1], fromId), pages[|pages| - 1].next, fromId)
  }

  /** Every page was requested at the position the pages before it had reached. */
  ghost predicate Tracks(pages: seq<Page>, accounts: seq<Uuid>, fromId: nat)
    requires fromId > 0
  {
    pages == [] ||
    (var init, p := pages[..|pages| - 1], pages[|pages| - 1];
     var at := Replay(init, fromId);
     && Tracks(init, accounts, fromId)
     && at.account < |accounts| && p.account == accounts[at.account] && p.kind == at.kind && p.after == at.after)
  }

  /** A chain that has reached `after` and is not finished. */
  ghost predicate OpenChain(pages: seq<Page>, accounts: seq<Uuid>, i: nat, kind: Kind, start: string, after: string) {
    if pages == [] then after == start
    else
      && i < |accounts| && pages[0].after == start
      && (forall p :: p in pages ==> p.account == accounts[i] && p.kind == kind)
      && (forall j :: 0 <= j < |pages| - 1 ==> pages[j].next == Some(pages[j + 1].after))
      && pages[|pages| - 1].next == Some(after)
  }

  ghost predicate Reached(pages: seq<Page>, accounts: seq<Uuid>, fromId: nat, at: MappingCursor, u: nat, m: nat)
    requires fromId > 0 && u <= m <= |pages|
  {
    && at.account <= |accounts|
    && Covers(pages[..u], accounts[..at.account], fromId)
    && if at.kind == UserPages then OpenChain(pages[u..], accounts, at.account, UserPages, "0", at.after)
       else
         && at.account < |accounts|
         && CompleteChain(pages[u..m], accounts[at.account], UserPages, "0")
         && OpenChain(pages[m..], accounts, at.account, MessagePages, Digits(fromId - 1), at.after)
  }

  lemma ChainContinues(pages: seq<Page>, p: Page, accounts: seq<Uuid>, i: nat, kind: Kind, start: string, after: string)
    requires OpenChain(pages, accounts, i, kind, start, after)
    requires i < |accounts| && p.account == accounts[i] && p.kind == kind && p.after == after
    ensures p.next.Some? ==> OpenChain(pages + [p], accounts, i, kind, start, p.next.value)
    ensures p.next.None? ==> CompleteChain(pages + [p], accounts[i], kind, start)
  {
    var longer := pages + [p];
    forall j | 0 <= j < |longer| - 1 ensures longer[j].next == Some(longer[j + 1].after) {
      if j == |pages| - 1 { assert longer[j] == pages[|pages| - 1]; }
    }
  }

  lemma SplitLast(pages: seq<Page>, u: nat)
    requires pages != [] && u < |pages|
    ensures pages[u..] == pages[..|pages| - 1][u..] + [pages[|pages| - 1]]
    ensures pages[..u] == pages[..|pages| - 1][..u]
  {
  }

  lemma UserPageReached(pages: seq<Page>, accounts: seq<Uuid>, fromId: nat, u: nat, m: nat) returns (m': nat)
    requires fromId > 0 && Tracks(pages, accounts, fromId) && pages != [] && u <= m <= |pages| - 1
    requires var init := pages[..|pages| - 1]; var at := Replay(init, fromId);
      at.kind == UserPages && Reached(init, accounts, fromId, at, u, m)
    ensures u <= m' <= |pages| && Reached(pages, accounts, fromId, Replay(pages, fromId), u, m')
  {
    var init, p := pages[..|pages| - 1], pages[|pages| - 1];
    var at := Replay(init, fromId);
    SplitLast(pages, u);
    ChainContinues(init[u..], p, accounts, at.account, UserPages, "0", at.after);
    m' := |pages|;
    assert pages[u..m'] == pages[u..] && pages[m'..] == [];
  }

  lemma MessagePageReached(pages: seq<Page>, accounts: seq<Uuid>, fromId: nat, u: nat, m: nat) returns (u': nat, m': nat)
    requires fromId > 0 && Tracks(pages, accounts, fromId) && pages != [] && u <= m <= |pages| - 1
    requires var init := pages[..|pages| - 1]; var at := Replay(init, fromId);
      at.kind == MessagePages && Reached(init, accounts, fromId, at, u, m)
    ensures u' <= m' <= |pages| && Reached(pages, accounts, fromId, Replay(pages, fromId), u', m')
  {
    var init, p := pages[..|pages| - 1], pages[|pages| - 1];
    var at := Replay(init, fromId);
    SplitLast(pages, u);
    SplitLast(pages, m);
    ChainContinues(init[m..], p, accounts, at.account, MessagePages, Digits(fromId - 1), at.after);
    assert pages[u..m] == init[u..m];
    u', m' := u, m;
    if p.next.None? {
      CoversNext(pages, accounts, fromId, at.account, u, m);
      u', m' := |pages|, |pages|;
      assert pages[..u'] == pages && pages[u'..] == [];
    }
  }

  /** The tracked pages cover every account before the cursor's, and its chain up to the cursor. */
  lemma {:induction false} TracksReached(pages: seq<Page>, accounts: seq<Uuid>, fromId: nat) returns (u: nat, m: nat)
    requires fromId > 0 && Tracks(pages, accounts, fromId)
    ensures u <= m <= |pages| && Reached(pages, accounts, fromId, Replay(pages, fromId), u, m)
  {
    if pages == [] {
      u, m := 0, 0;
      assert accounts[..0] == [];
    } else {
      var init := pages[..|pages| - 1];
      u, m := TracksReached(init, accounts, fromId);
      if Replay(init, fromId).kind == UserPages {
        m := UserPageReached(pages, accounts, fromId, u, m);
      } else {
        u, m := MessagePageReached(pages, accounts, fromId, u, m);
      }
    }
  }

  lemma CoversNext(pages: seq<Page>, accounts: seq<Uuid>, fromId: nat, i: nat, u: nat, m: nat)
    requires fromId > 0 && i < |accounts| && u <= m <= |pages|
    requires Covers(pages[..u], accounts[..i], fromId)
    requires CompleteChain(pages[u..m], accounts[i], UserPages, "0")
    requires CompleteChain(pages[m..], accounts[i], MessagePages, Digits(fromId - 1))
    ensures Covers(pages, accounts[..i + 1], fromId)
  {
    assert accounts[..i + 1][..i] == accounts[..i];
    assert CoversSplit(pages, accounts[..i + 1], fromId, u, m);
  }

  /** A cursor past the last account means full coverage. */
  lemma CompleteCovers(pages: seq<Page>, accounts: seq<Uuid>, fromId: nat)
    requires fromId > 0 && Tracks(pages, accounts, fromId) && Replay(pages, fromId).account == |accounts|
    ensures Covers(pages, accounts, fromId)
  {
    var u, m := TracksReached(pages, accounts, fromId);
    assert pages[u..] == [];
    assert pages[..u] == pages && accounts[..|accounts|] == accounts;
  }

  // ------------------------------------------------------------------ the publication columns

  ghost predicate ImportRow(fromId: nat, imp: Import) {
    && fromId > 0
    && (imp.receipt.None? ==> imp.cursor.None?)
    && (imp.cursor.None? ==> imp.pages == [] && imp.status != Complete)
    && (imp.status == Complete ==> imp.lease.None?)
    && (imp.cursor.Some? ==>
          && imp.sources.Some? && 0 < |imp.sources.value| <= MAX_SOURCES
          && imp.pages != []
          && Tracks(imp.pages, PublishAccounts(imp.sources.value), fromId)
          && Replay(imp.pages, fromId) == imp.cursor.value
          && (forall p :: p in imp.pages ==> p.sources == imp.sources.value)
          && imp.cursor.value.account <= |PublishAccounts(imp.sources.value)|
          && (imp.cursor.value.account == |PublishAccounts(imp.sources.value)| <==> imp.status == Complete))
  }

  ghost predicate Imports(batches: map<BatchKey, BatchRow>) {
    forall bk {:trigger ImportRow(bk.fromId, batches[bk].imp)} :: bk in batches ==> ImportRow(bk.fromId, batches[bk].imp)
  }

  /** All pages were installed under the receipt the row names. */
  ghost predicate OneReceipt(imp: Import) {
    forall p :: p in imp.pages ==> Some(p.receipt) == imp.receipt
  }

  ghost predicate Receipts(batches: map<BatchKey, BatchRow>) {
    forall bk {:trigger OneReceipt(batches[bk].imp)} :: bk in batches ==> OneReceipt(batches[bk].imp)
  }

  // ------------------------------------------------------------------ claims

  /** While its lease stands, the row is as the claim read it. */
  ghost predicate ClaimHolds(imp: Import, c: Claim) {
    imp.lease == Some(c.lease) ==>
      && imp.status == Pending && imp.sources == Some(c.sources)
      && imp.receipt == c.receipt && imp.cursor == c.cursor
  }

  ghost predicate ClaimRow(batches: map<BatchKey, BatchRow>, c: Claim, leases: nat) {
    && c.lease < leases
    && c.sources != [] && (c.oversized <==> |c.sources| > MAX_SOURCES)
    && (c.key in batches ==> ClaimHolds(batches[c.key].imp, c))
  }

  ghost predicate Claims(batches: map<BatchKey, BatchRow>, claims: set<Claim>, leases: nat) {
    forall c {:trigger ClaimRow(batches, c, leases)} :: c in claims ==> ClaimRow(batches, c, leases)
  }

  /** A transaction that leaves no lease standing except on rows it did not touch. */
  ghost predicate LeaseKept(batches: map<BatchKey, BatchRow>, after: map<BatchKey, BatchRow>) {
    forall bk {:trigger after[bk].imp} :: bk in after && after[bk].imp.lease.Some? ==>
      bk in batches && after[bk].imp == batches[bk].imp
  }

  lemma ClaimsKept(batches: map<BatchKey, BatchRow>, after: map<BatchKey, BatchRow>, claims: set<Claim>, leases: nat)
    requires Claims(batches, claims, leases) && LeaseKept(batches, after)
    ensures Claims(after, claims, leases)
  {
    forall c | c in claims ensures ClaimRow(after, c, leases) {
      assert ClaimRow(batches, c, leases);
    }
  }

  // ------------------------------------------------------------------ each way a row can change

  lemma NewImportOk(fromId: nat)
    requires fromId > 0
    ensures ImportRow(fromId, NEW_IMPORT) && OneReceipt(NEW_IMPORT)
  {
  }

  lemma RewrittenOk(fromId: nat, imp: Import)
    requires fromId > 0
    ensures ImportRow(fromId, RewrittenImport(imp)) && OneReceipt(RewrittenImport(imp))
  {
  }

  lemma ReleasedOk(fromId: nat, imp: Import, status: Status, receipt: Option<Uuid>, reset: bool)
    requires ImportRow(fromId, imp) && imp.status != Complete && status != Complete
    ensures ImportRow(fromId, ReleasedImport(imp, status, receipt, reset))
  {
  }

  lemma ClaimedOk(fromId: nat, imp: Import, sources: seq<PublishSource>, lease: Uuid, allowAdmission: bool)
    requires ImportRow(fromId, imp) && imp.status != Complete
    ensures ImportRow(fromId, ClaimedImport(imp, sources, lease, allowAdmission))
  {
  }

  lemma ClaimedReceipt(imp: Import, sources: seq<PublishSource>, lease: Uuid, allowAdmission: bool)
    requires OneReceipt(imp)
    ensures OneReceipt(ClaimedImport(imp, sources, lease, allowAdmission))
  {
  }

  /** The account a claim's cursor names is one of its accounts: the index is in bounds. */
  lemma AccountIndexInBounds(imp: Import, fromId: nat, c: Claim)
    requires ImportRow(fromId, imp) && imp.lease == Some(c.lease) && ClaimHolds(imp, c) && c.sources != []
    ensures Position(c.cursor).account < |PublishAccounts(c.sources)|
    ensures Position(c.cursor) == Replay(imp.pages, fromId)
  {
    SortedFacts(set i | 0 <= i < |c.sources| :: c.sources[i].account);
    assert c.sources[0].account in PublishAccounts(c.sources);
  }

  lemma PageOk(imp: Import, c: Claim, receipt: Uuid, next: Option<string>)
    requires ImportRow(c.key.fromId, imp) && imp.lease == Some(c.lease) && ClaimHolds(imp, c)
    requires 0 < |c.sources| <= MAX_SOURCES && Position(c.cursor).account < |PublishAccounts(c.sources)|
    ensures ImportRow(c.key.fromId, PageImport(imp, c, receipt, next))
  {
    AccountIndexInBounds(imp, c.key.fromId, c);
    var now := PageImport(imp, c, receipt, next);
    assert now.pages[..|now.pages| - 1] == imp.pages;
    assert Tracks(imp.pages, PublishAccounts(c.sources), c.key.fromId);
  }
}
