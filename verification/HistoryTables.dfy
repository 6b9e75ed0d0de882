/**
 The rows of the history subsystem: scopes, directory revisions, batches with their publication
 columns, capture timeout markers and failure reports, together with the desired sources.

 Retry times and lease deadlines are not columns here: which eligible row is taken next, and
 whether a lease is still live, are free choices of the environment, so everything proved holds
 for every clock. Columns marked as history variables are bookkeeping for the proofs only; no
 operation reads them.
 */
module HistoryTables {
  import opened Catalogs
  import opened HistoryBatches

  type Uuid = nat

  const DIRECTORY_WRITE_MAX_ATTEMPTS: nat := 8

  datatype ScopeKey = ScopeKey(project: Uuid, realm: Uuid)

  datatype BatchKey = BatchKey(scope: ScopeKey, fromId: nat)

  datatype JobKey = JobKey(account: Uuid, chatKey: string)

  /** A selected chat of a connected account; the fingerprint ignores the assignment generation. */
  datatype SourceIdentity = SourceIdentity(account: Uuid, accountGeneration: nat, chat: Uuid,
                                           chatKey: string, depth: string, owner: nat)

  datatype Source = Source(identity: SourceIdentity, assignmentGeneration: nat)

  /** The catalogue one account answered with. */
  datatype Fetched = Fetched(account: Uuid, users: seq<User>)

  datatype Scope = Scope(
    generation: nat, fingerprint: seq<SourceIdentity>, sources: seq<Source>,
    pending: bool, revision: nat, ack: nat,
    accountCursor: nat, cursor: nat, users: seq<User>, attempts: nat,
    catalogs: seq<Fetched>)  // history variable: the catalogues fetched in this pass

  /** A source as the publication envelope names it. */
  datatype PublishSource = PublishSource(account: Uuid, accountGeneration: nat, chat: Uuid, assignmentGeneration: nat)

  datatype Kind = UserPages | MessagePages

  datatype MappingCursor = MappingCursor(account: nat, kind: Kind, after: string)

  /** One installed page of routing mappings. */
  datatype Page = Page(receipt: Uuid, generation: nat, sources: seq<PublishSource>,
                       account: Uuid, kind: Kind, after: string, next: Option<string>)

  datatype Status = Pending | Failed | Complete

  datatype Import = Import(
    status: Status, receipt: Option<Uuid>, cursor: Option<MappingCursor>,
    sources: Option<seq<PublishSource>>, lease: Option<Uuid>,
    pages: seq<Page>)  // history variable: the pages installed for this receipt

  datatype BatchRow = BatchRow(
    body: Batch, imp: Import,
    captures: seq<Batch>)  // history variable: the captures merged into this row

  datatype Code = CaptureTimeout | DirectoryTimeout | OtherCode(text: string)

  datatype Report = Report(
    generation: nat, code: Code, after: Option<Uuid>, complete: bool,
    acked: seq<Uuid>)  // history variable: the accounts acknowledged for this report, in order

  datatype Db = Db(
    counter: nat, legacy: Option<nat>,
    revisions: map<Uuid, nat>,
    scopes: map<ScopeKey, Scope>,
    batches: map<BatchKey, BatchRow>,
    timeouts: set<JobKey>,
    reports: map<ScopeKey, Report>,
    desired: map<ScopeKey, seq<Source>>, desiredLegacy: nat)

  const NEW_IMPORT: Import := Import(Pending, None, None, None, None, [])

  /** The digest of the sources without their assignment generations. */
  function Fingerprint(rows: seq<Source>): seq<SourceIdentity> {
    seq(|rows|, i requires 0 <= i < |rows| => rows[i].identity)
  }

  function AccountSet(ids: seq<SourceIdentity>): set<Uuid> {
    set i | 0 <= i < |ids| :: ids[i].account
  }

  /** The distinct accounts of a source list in ascending order. */
  function Accounts(rows: seq<Source>): seq<Uuid> {
    Sorted(AccountSet(Fingerprint(rows)))
  }

  /** The sources desired for a scope now. */
  function Rows(db: Db, k: ScopeKey): seq<Source> {
    if k in db.desired then db.desired[k] else []
  }

  function JobOf(source: Source): JobKey {
    JobKey(source.identity.account, source.identity.chatKey)
  }

  predicate HasTimeout(db: Db, rows: seq<Source>) {
    exists i :: 0 <= i < |rows| && JobOf(rows[i]) in db.timeouts
  }

  function Publish(rows: seq<Source>): seq<PublishSource> {
    seq(|rows|, i requires 0 <= i < |rows| =>
      PublishSource(rows[i].identity.account, rows[i].identity.accountGeneration,
                    rows[i].identity.chat, rows[i].assignmentGeneration))
  }

  function PublishAccounts(sources: seq<PublishSource>): seq<Uuid> {
    Sorted(set i | 0 <= i < |sources| :: sources[i].account)
  }

  /** The ranges of a scope that start after `after`. */
  function RangesAfter(db: Db, k: ScopeKey, after: nat): set<nat> {
    set bk | bk in db.batches && bk.scope == k && bk.fromId > after :: bk.fromId
  }
}
