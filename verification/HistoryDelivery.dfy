/**
 Publication of frozen batches: leases, receipts and mapping cursors
 (workspace_zulip_bridge/history_delivery.py).
 */
module HistoryDelivery {
  import opened Catalogs
  import opened Decimal
  import opened HistoryTables
  import opened FailureReports

  const MAX_SOURCES: nat := 512

  /** The sources the publisher sees: one more than the limit shows an oversized scope. */
  function SourcesFor(db: Db, k: ScopeKey): seq<PublishSource> {
    var all := Publish(Rows(db, k));
    if |all| > MAX_SOURCES + 1 then all[..MAX_SOURCES + 1] else all
  }

  /** A claimed batch. */
  datatype Claim = Claim(key: BatchKey, lease: Uuid, generation: nat, sources: seq<PublishSource>,
                         receipt: Option<Uuid>, cursor: Option<MappingCursor>, oversized: bool)

  predicate Claimable(db: Db, bk: BatchKey, allowAdmission: bool, jobsComplete: bool) {
    && bk in db.batches && bk.scope in db.scopes
    && !db.scopes[bk.scope].pending
    && db.batches[bk].imp.status == Pending
    && (allowAdmission || db.batches[bk].imp.receipt.Some?)
    && db.scopes[bk.scope].fingerprint == Fingerprint(Rows(db, bk.scope))
    && var sources := SourcesFor(db, bk.scope);
       |sources| > MAX_SOURCES || (sources != [] && jobsComplete)
  }

  /** The publication columns after a claim: a changed source set restarts the receipt. */
  function ClaimedImport(imp: Import, sources: seq<PublishSource>, lease: Uuid, allowAdmission: bool): Import {
    var same := imp.sources == Some(sources);
    var receipt := if same then imp.receipt else None;
    Import(imp.status, receipt, if same then imp.cursor else None, Some(sources),
           if !allowAdmission && receipt.None? then None else Some(lease),
           if same then imp.pages else [])
  }

  function TakeClaim(db: Db, bk: BatchKey, lease: Uuid, allowAdmission: bool): Db
    requires bk in db.batches
  {
    var row := db.batches[bk];
    db.(batches := db.batches[bk := row.(imp := ClaimedImport(row.imp, SourcesFor(db, bk.scope), lease, allowAdmission))])
  }

  /** The item a claim hands to the publisher, if any. */
  function ClaimItem(db: Db, bk: BatchKey, lease: Uuid, allowAdmission: bool): Option<Claim>
    requires bk in db.batches && bk.scope in db.scopes
  {
    var sources := SourcesFor(db, bk.scope);
    var imp := ClaimedImport(db.batches[bk].imp, sources, lease, allowAdmission);
    if imp.lease.None? then None
    else Some(Claim(bk, lease, db.scopes[bk.scope].generation, sources, imp.receipt, imp.cursor,
                    |sources| > MAX_SOURCES))
  }

  predicate Leased(db: Db, c: Claim) {
    c.key in db.batches && db.batches[c.key].imp.lease == Some(c.lease)
  }

  predicate Authorised(db: Db, c: Claim) {
    && c.key.scope in db.scopes
    && !db.scopes[c.key.scope].pending
    && db.scopes[c.key.scope].generation == c.generation
    && db.scopes[c.key.scope].fingerprint == Fingerprint(Rows(db, c.key.scope))
    && c.sources == SourcesFor(db, c.key.scope)
  }

  /** `live`: the provider is enabled and the lease has not expired. */
  predicate Current(db: Db, c: Claim, live: bool) {
    live && Leased(db, c) && Authorised(db, c)
  }

  function ReleasedImport(imp: Import, status: Status, receipt: Option<Uuid>, reset: bool): Import {
    imp.(status := status,
         receipt := if reset then None else if receipt.Some? then receipt else imp.receipt,
         cursor := if reset then None else imp.cursor,
         pages := if reset then [] else imp.pages,
         lease := None)
  }

  function SetImport(db: Db, bk: BatchKey, imp: Import): Db
    requires bk in db.batches
  {
    db.(batches := db.batches[bk := db.batches[bk].(imp := imp)])
  }

  function Release(db: Db, c: Claim, status: Status, receipt: Option<Uuid>, reset: bool): Db {
    if !Leased(db, c) then db
    else SetImport(db, c.key, ReleasedImport(db.batches[c.key].imp, status, receipt, reset))
  }

  /** A terminal publication failure and its report, or only the release of a retired claim. */
  function Fail(db: Db, c: Claim, receipt: Option<Uuid>, code: Code, live: bool): Db {
    if !Current(db, c, live) then Release(db, c, Pending, None, false)
    else Record(Release(db, c, Failed, receipt, false), c.key.scope, c.generation, code, false)
  }

  // ------------------------------------------------------------------ mapping receipts

  const START: MappingCursor := MappingCursor(0, UserPages, "0")

  function Position(cursor: Option<MappingCursor>): MappingCursor {
    if cursor.Some? then cursor.value else START
  }

  /** Where the cursor moves after a page whose continuation is `next`. */
  function Advance(at: MappingCursor, next: Option<string>, fromId: nat): MappingCursor
    requires fromId > 0
  {
    match next
    case Some(after) => at.(after := after)
    case None =>
      if at.kind == UserPages then MappingCursor(at.account, MessagePages, Digits(fromId - 1))
      else MappingCursor(at.account + 1, UserPages, "0")
  }

  predicate Installable(db: Db, c: Claim, live: bool) {
    && Current(db, c, live) && !c.oversized && c.key.fromId > 0
    && Position(c.cursor).account < |PublishAccounts(c.sources)|
  }

  /** The publication columns after one page was installed with its checkpoint. */
  function PageImport(imp: Import, c: Claim, receipt: Uuid, next: Option<string>): Import
    requires c.key.fromId > 0 && Position(c.cursor).account < |PublishAccounts(c.sources)|
  {
    var accounts, at := PublishAccounts(c.sources), Position(c.cursor);
    var cursor := Advance(at, next, c.key.fromId);
    imp.(cursor := Some(cursor),
         status := if next.None? && at.kind == MessagePages && cursor.account == |accounts| then Complete else Pending,
         receipt := Some(receipt), lease := None,
         pages := imp.pages + [Page(receipt, c.generation, c.sources, accounts[at.account], at.kind, at.after, next)])
  }

  function SavePage(db: Db, c: Claim, receipt: Uuid, next: Option<string>, live: bool): Db {
    if !Installable(db, c, live) then db
    else SetImport(db, c.key, PageImport(db.batches[c.key].imp, c, receipt, next))
  }
}
