/**
 History batches: snapshots of one aligned id range, built from provider pages and merged
 across observers (workspace_zulip_bridge/history.py).

 A digest is modelled by the term it hashes, so two digests are equal exactly when the hashed
 values are. Reactions are kept as the dictionary whose ordered listing is stored.
 */
module HistoryBatches {
  import opened Catalogs

  const BATCH_SIZE: nat := 5000
  const MAX_ID: nat := 0x1F_FFFF_FFFF_FFFF

  datatype User = User(id: nat, name: string)

  datatype ReactionKey = ReactionKey(userId: nat, kind: string, code: string)

  datatype Location =
    | Channel(channelId: nat, channelName: string, topic: string)
    | Direct(recipients: seq<nat>)

  /** What every observer sees of a message. */
  datatype Core = Core(id: nat, sender: nat, location: Location, sentAt: nat, content: string,
                       reactions: map<ReactionKey, string>)

  /** One observer's own flags. */
  datatype Access = Access(userId: nat, read: bool, starred: bool)

  datatype Message = Message(core: Core, access: seq<Access>, hash: Digest)

  datatype Batch = Batch(fromId: nat, toId: nat, users: seq<User>, messages: seq<Message>, hash: Digest)

  datatype Digest =
    | MessageDigest(core: Core, access: seq<Access>)
    | BatchDigest(fromId: nat, toId: nat, users: seq<User>, messages: seq<Message>)

  function UserId(u: User): nat { u.id }
  function AccessId(a: Access): nat { a.userId }
  function MessageId(m: Message): nat { m.core.id }

  function Seal(core: Core, access: seq<Access>): Message {
    Message(core, access, MessageDigest(core, access))
  }

  function SealBatch(fromId: nat, toId: nat, users: seq<User>, messages: seq<Message>): Batch {
    Batch(fromId, toId, users, messages, BatchDigest(fromId, toId, users, messages))
  }

  predicate AlignedRange(fromId: int, toId: int) {
    && fromId >= 1
    && (fromId - 1) % BATCH_SIZE == 0
    && toId == fromId + BATCH_SIZE - 1
  }

  /** The ranges divide the ids into blocks of five thousand: each id lies in exactly one. */
  lemma RangesPartition(id: nat, fromId: nat, toId: nat)
    requires id >= 1
    ensures AlignedRange(fromId, toId) && fromId <= id <= toId <==>
      fromId == (id - 1) / 5000 * 5000 + 1 && toId == fromId + 4999
  {
  }

  predicate WellFormedMessage(m: Message) {
    && m.hash == MessageDigest(m.core, m.access)
    && Canonical(m.access, AccessId)
  }

  /** Sorted, duplicate-free, in range, and every hash is the digest of what it covers. */
  predicate WellFormed(b: Batch) {
    && AlignedRange(b.fromId, b.toId)
    && Canonical(b.users, UserId)
    && Canonical(b.messages, MessageId)
    && (forall m :: m in b.messages ==> WellFormedMessage(m) && b.fromId <= m.core.id <= b.toId)
    && b.hash == BatchDigest(b.fromId, b.toId, b.users, b.messages)
  }

  function Users(b: Batch): map<nat, User> { Index(b.users, UserId) }
  function Messages(b: Batch): map<nat, Message> { Index(b.messages, MessageId) }

  // ------------------------------------------------------------------ merge_batch

  function PriorAccess(messages: map<nat, Message>, id: nat): seq<Access> {
    if id in messages then messages[id].access else []
  }

  function MergeMessage(prior: seq<Access>, m: Message): Message {
    Seal(m.core, Listing(Index(prior, AccessId) + Index(m.access, AccessId)))
  }

  /** The message dictionary after the incoming messages were merged in order. */
  function MergeMessages(messages: map<nat, Message>, incoming: seq<Message>): map<nat, Message> {
    if incoming == [] then messages else
    var m := incoming[|incoming| - 1];
    var done := MergeMessages(messages, incoming[..|incoming| - 1]);
    done[m.core.id := MergeMessage(PriorAccess(done, m.core.id), m)]
  }

  function MergeCatalog(users: seq<User>, fetched: seq<User>): seq<User> {
    Listing(Index(users, UserId) + Index(fetched, UserId))
  }

  function MergeSame(existing: Batch, incoming: Batch): Batch {
    SealBatch(incoming.fromId, incoming.toId,
              MergeCatalog(existing.users, incoming.users),
              Listing(MergeMessages(Messages(existing), incoming.messages)))
  }

  function Merge(existing: Option<Batch>, incoming: Batch): Result<Batch> {
    match existing
    case None => Ok(incoming)
    case Some(e) =>
      if e.fromId != incoming.fromId || e.toId != incoming.toId then Err("history_range_mismatch")
      else Ok(MergeSame(e, incoming))
  }

  /** Only batches of one range are merged; a first batch is taken as it is. */
  lemma MergeRefusedIff(existing: Option<Batch>, incoming: Batch)
    ensures Merge(existing, incoming).Err? <==>
      existing.Some? && (existing.value.fromId != incoming.fromId || existing.value.toId != incoming.toId)
    ensures existing.None? ==> Merge(existing, incoming) == Ok(incoming)
  {
  }

  method MergeBatch(existing: Option<Batch>, incoming: Batch) returns (r: Result<Batch>)
    ensures r == Merge(existing, incoming)
  {
    if existing.None? {
      return Ok(incoming);
    }
    var prior := existing.value;
    if prior.fromId != incoming.fromId || prior.toId != incoming.toId {
      return Err("history_range_mismatch");
    }
    var users := Index(prior.users, UserId);
    users := users + Index(incoming.users, UserId);
    var messages := Index(prior.messages, MessageId);
    for i := 0 to |incoming.messages|
      invariant messages == MergeMessages(Messages(prior), incoming.messages[..i])
    {
      var message := incoming.messages[i];
      var prior := PriorAccess(messages, message.core.id);
      messages := messages[message.core.id := MergeMessage(prior, message)];
      assert incoming.messages[..i + 1][..i] == incoming.messages[..i];
    }
    assert incoming.messages[..|incoming.messages|] == incoming.messages;
    r := Ok(SealBatch(incoming.fromId, incoming.toId, Listing(users), Listing(messages)));
  }

  /** Merging a canonical list of messages acts on each id separately. */
  lemma {:induction false} MergeMessagesAt(messages: map<nat, Message>, incoming: seq<Message>, id: nat)
    requires Canonical(incoming, MessageId)
    ensures Get(MergeMessages(messages, incoming), id) ==
      if id in Index(incoming, MessageId) then
        Some(MergeMessage(PriorAccess(messages, id), Index(incoming, MessageId)[id]))
      else Get(messages, id)
  {
    if incoming != [] {
      var init, last := incoming[..|incoming| - 1], incoming[|incoming| - 1];
      MergeMessagesAt(messages, init, id);
      LastIsNew(incoming, MessageId);
    }
  }

  lemma MergeMessageWellFormed(prior: seq<Access>, m: Message)
    ensures WellFormedMessage(MergeMessage(prior, m))
    ensures Index(MergeMessage(prior, m).access, AccessId) == Index(prior, AccessId) + Index(m.access, AccessId)
  {
    var access := Index(prior, AccessId) + Index(m.access, AccessId);
    OverlayKeyed(prior, m.access, AccessId);
    ListingCanonical(access, AccessId);
    IndexListing(access, AccessId);
  }

  // ------------------------------------------------------- the observations a batch holds

  /** Who is known, what a message is, and how a user saw it. */
  function UserAt(b: Batch, id: nat): Option<User> { Get(Users(b), id) }

  function CoreAt(b: Batch, id: nat): Option<Core> {
    if id in Messages(b) then Some(Messages(b)[id].core) else None
  }

  function FlagAt(b: Batch, id: nat, user: nat): Option<Access> {
    if id in Messages(b) then Get(Index(Messages(b)[id].access, AccessId), user) else None
  }

  /** Well-formed batches over one range are determined by their observations. */
  lemma ObservationsDetermine(a: Batch, b: Batch)
    requires WellFormed(a) && WellFormed(b) && a.fromId == b.fromId
    requires forall id :: UserAt(a, id) == UserAt(b, id)
    requires forall id :: CoreAt(a, id) == CoreAt(b, id)
    requires forall id, user :: FlagAt(a, id, user) == FlagAt(b, id, user)
    ensures a == b
  {
    assert a.users == b.users by {
      forall id ensures Get(Users(a), id) == Get(Users(b), id) {
        assert UserAt(a, id) == UserAt(b, id);
      }
      SameEntries(Users(a), Users(b));
      CanonicalEqual(a.users, b.users, UserId);
    }
    forall id ensures Get(Messages(a), id) == Get(Messages(b), id) {
      assert CoreAt(a, id) == CoreAt(b, id);
      if id in Messages(a) {
        SameMessage(a, b, id);
      }
    }
    SameEntries(Messages(a), Messages(b));
    CanonicalEqual(a.messages, b.messages, MessageId);
  }

  lemma SameMessage(a: Batch, b: Batch, id: nat)
    requires WellFormed(a) && WellFormed(b)
    requires id in Messages(a) && id in Messages(b) && CoreAt(a, id) == CoreAt(b, id)
    requires forall user :: FlagAt(a, id, user) == FlagAt(b, id, user)
    ensures Messages(a)[id] == Messages(b)[id]
  {
    var x, y := Messages(a)[id], Messages(b)[id];
    IndexEntries(a.messages, MessageId);
    IndexEntries(b.messages, MessageId);
    forall user ensures Get(Index(x.access, AccessId), user) == Get(Index(y.access, AccessId), user) {
      assert FlagAt(a, id, user) == FlagAt(b, id, user);
    }
    SameEntries(Index(x.access, AccessId), Index(y.access, AccessId));
    CanonicalEqual(x.access, y.access, AccessId);
  }

  /** The message dictionary of a merge, and the well-formedness of what it lists. */
  lemma MergeDictionary(a: Batch, b: Batch)
    requires WellFormed(a) && WellFormed(b) && a.fromId == b.fromId
    ensures var merged := MergeMessages(Messages(a), b.messages);
      && Keyed(merged, MessageId)
      && Messages(MergeSame(a, b)) == merged
      && (forall id :: id in merged ==> WellFormedMessage(merged[id]) && a.fromId <= id <= a.toId)
  {
    var merged := MergeMessages(Messages(a), b.messages);
    forall id | id in merged
      ensures MessageId(merged[id]) == id && WellFormedMessage(merged[id]) && a.fromId <= id <= a.toId
    {
      MergedEntry(a, b, id);
    }
    IndexListing(merged, MessageId);
  }

  lemma MergedEntry(a: Batch, b: Batch, id: nat)
    requires WellFormed(a) && WellFormed(b) && a.fromId == b.fromId
    requires id in MergeMessages(Messages(a), b.messages)
    ensures var m := MergeMessages(Messages(a), b.messages)[id];
      MessageId(m) == id && WellFormedMessage(m) && a.fromId <= id <= a.toId
  {
    MergeMessagesAt(Messages(a), b.messages, id);
    IndexEntries(a.messages, MessageId);
    IndexEntries(b.messages, MessageId);
    if id in Messages(b) {
      MergeMessageWellFormed(PriorAccess(Messages(a), id), Messages(b)[id]);
    }
  }

  /** Merging keeps the stored form: sorted, unique, in range, correctly hashed. */
  lemma MergeWellFormed(a: Batch, b: Batch)
    requires WellFormed(a) && WellFormed(b) && a.fromId == b.fromId
    ensures WellFormed(MergeSame(a, b)) && MergeSame(a, b).fromId == a.fromId
  {
    var merged := MergeMessages(Messages(a), b.messages);
    MergeDictionary(a, b);
    ListingCanonical(merged, MessageId);
    OverlayKeyed(a.users, b.users, UserId);
    ListingCanonical(Users(a) + Users(b), UserId);
    ListingEntries(merged);
    var r := MergeSame(a, b);
    forall m | m in r.messages ensures WellFormedMessage(m) && r.fromId <= m.core.id <= r.toId {
      var id :| id in merged && merged[id] == m;
    }
  }

  lemma MergeUserAt(a: Batch, b: Batch, id: nat)
    ensures UserAt(MergeSame(a, b), id) == OrElse(UserAt(b, id), UserAt(a, id))
  {
    var both := Users(a) + Users(b);
    OverlayKeyed(a.users, b.users, UserId);
    IndexListing(both, UserId);
    assert Users(MergeSame(a, b)) == both;
  }

  lemma MergeMessageAt(a: Batch, b: Batch, id: nat)
    requires WellFormed(a) && WellFormed(b) && a.fromId == b.fromId
    ensures Get(Messages(MergeSame(a, b)), id) ==
      if id in Messages(b) then Some(MergeMessage(PriorAccess(Messages(a), id), Messages(b)[id]))
      else Get(Messages(a), id)
  {
    MergeDictionary(a, b);
    MergeMessagesAt(Messages(a), b.messages, id);
  }

  lemma MergedFlag(prior: seq<Access>, m: Message, user: nat)
    ensures Get(Index(MergeMessage(prior, m).access, AccessId), user)
         == OrElse(Get(Index(m.access, AccessId), user), Get(Index(prior, AccessId), user))
  {
    MergeMessageWellFormed(prior, m);
  }

  lemma MergeFlagAt(a: Batch, b: Batch, id: nat, user: nat)
    requires WellFormed(a) && WellFormed(b) && a.fromId == b.fromId
    ensures FlagAt(MergeSame(a, b), id, user) == OrElse(FlagAt(b, id, user), FlagAt(a, id, user))
  {
    MergeMessageAt(a, b, id);
    if id in Messages(b) {
      MergedFlag(PriorAccess(Messages(a), id), Messages(b)[id], user);
    }
  }

  /** A merge overlays the incoming observations on the stored ones and loses none. */
  lemma MergeOverlays(a: Batch, b: Batch, id: nat, user: nat)
    requires WellFormed(a) && WellFormed(b) && a.fromId == b.fromId
    ensures UserAt(MergeSame(a, b), id) == OrElse(UserAt(b, id), UserAt(a, id))
    ensures CoreAt(MergeSame(a, b), id) == OrElse(CoreAt(b, id), CoreAt(a, id))
    ensures FlagAt(MergeSame(a, b), id, user) == OrElse(FlagAt(b, id, user), FlagAt(a, id, user))
  {
    MergeUserAt(a, b, id);
    MergeMessageAt(a, b, id);
    MergeFlagAt(a, b, id, user);
  }

  lemma MergeAssociative(a: Batch, b: Batch, c: Batch)
    requires WellFormed(a) && WellFormed(b) && WellFormed(c)
    requires a.fromId == b.fromId == c.fromId
    ensures MergeSame(MergeSame(a, b), c) == MergeSame(a, MergeSame(b, c))
  {
    var l, r := MergeSame(MergeSame(a, b), c), MergeSame(a, MergeSame(b, c));
    MergeWellFormed(a, b);
    MergeWellFormed(b, c);
    MergeWellFormed(MergeSame(a, b), c);
    MergeWellFormed(a, MergeSame(b, c));
    forall id ensures UserAt(l, id) == UserAt(r, id) && CoreAt(l, id) == CoreAt(r, id) {
      AssociativeAt(a, b, c, id, 0);
    }
    forall id, user ensures FlagAt(l, id, user) == FlagAt(r, id, user) {
      AssociativeAt(a, b, c, id, user);
    }
    ObservationsDetermine(l, r);
  }

  lemma AssociativeAt(a: Batch, b: Batch, c: Batch, id: nat, user: nat)
    requires WellFormed(a) && WellFormed(b) && WellFormed(c)
    requires a.fromId == b.fromId == c.fromId
    ensures var l, r := MergeSame(MergeSame(a, b), c), MergeSame(a, MergeSame(b, c));
      && UserAt(l, id) == UserAt(r, id) && CoreAt(l, id) == CoreAt(r, id)
      && FlagAt(l, id, user) == FlagAt(r, id, user)
  {
    MergeWellFormed(a, b);
    MergeWellFormed(b, c);
    MergeOverlays(a, b, id, user);
    MergeOverlays(b, c, id, user);
    MergeOverlays(MergeSame(a, b), c, id, user);
    MergeOverlays(a, MergeSame(b, c), id, user);
  }

  /** Saving the same observations again changes nothing. */
  lemma MergeIdempotent(a: Batch)
    requires WellFormed(a)
    ensures MergeSame(a, a) == a
  {
    MergeWellFormed(a, a);
    var r := MergeSame(a, a);
    forall id ensures UserAt(r, id) == UserAt(a, id) && CoreAt(r, id) == CoreAt(a, id) {
      MergeOverlays(a, a, id, 0);
    }
    forall id, user ensures FlagAt(r, id, user) == FlagAt(a, id, user) {
      MergeOverlays(a, a, id, user);
    }
    ObservationsDetermine(r, a);
  }

  // ----------------------------------------------- folding captures: the observation log

  predicate SameRange(bs: seq<Batch>) {
    && bs != []
    && forall i :: 0 <= i < |bs| ==> WellFormed(bs[i]) && bs[i].fromId == bs[0].fromId
  }

  /** What is stored after the captures in `bs` were saved one after another. */
  function MergeAll(bs: seq<Batch>): Batch
    requires bs != []
  {
    if |bs| == 1 then bs[0] else MergeSame(MergeAll(bs[..|bs| - 1]), bs[|bs| - 1])
  }

  lemma {:induction false} MergeAllWellFormed(bs: seq<Batch>)
    requires SameRange(bs)
    ensures WellFormed(MergeAll(bs)) && MergeAll(bs).fromId == bs[0].fromId
  {
    if |bs| > 1 {
      MergeAllWellFormed(bs[..|bs| - 1]);
      MergeWellFormed(MergeAll(bs[..|bs| - 1]), bs[|bs| - 1]);
    }
  }

  /** The last observation in the log of a user, of a message, and of a user's flags on it. */
  function LastUser(bs: seq<Batch>, id: nat): Option<User> {
    if bs == [] then None
    else OrElse(UserAt(bs[|bs| - 1], id), LastUser(bs[..|bs| - 1], id))
  }

  function LastCore(bs: seq<Batch>, id: nat): Option<Core> {
    if bs == [] then None
    else OrElse(CoreAt(bs[|bs| - 1], id), LastCore(bs[..|bs| - 1], id))
  }

  function LastFlag(bs: seq<Batch>, id: nat, user: nat): Option<Access> {
    if bs == [] then None
    else OrElse(FlagAt(bs[|bs| - 1], id, user), LastFlag(bs[..|bs| - 1], id, user))
  }

  /**
   Folding captures refines the observation log: the common state of a message is the last one
   captured, a user's flags on it are that user's own last observation, and a message, user or
   flag is stored exactly when some capture contained it.
   */
  lemma {:induction false} FoldRefinesLog(bs: seq<Batch>, id: nat, user: nat)
    requires SameRange(bs)
    ensures UserAt(MergeAll(bs), id) == LastUser(bs, id)
    ensures CoreAt(MergeAll(bs), id) == LastCore(bs, id)
    ensures FlagAt(MergeAll(bs), id, user) == LastFlag(bs, id, user)
  {
    var init := bs[..|bs| - 1];
    if |bs| > 1 {
      FoldRefinesLog(init, id, user);
      MergeAllWellFormed(init);
      MergeOverlays(MergeAll(init), bs[|bs| - 1], id, user);
    } else {
      assert init == [];
    }
  }

  /** The last observation is the one in the last capture that has one. */
  lemma {:induction false} LastFlagMeaning(bs: seq<Batch>, id: nat, user: nat, k: nat)
    requires k < |bs| && FlagAt(bs[k], id, user).Some?
    requires forall j :: k < j < |bs| ==> FlagAt(bs[j], id, user).None?
    ensures LastFlag(bs, id, user) == FlagAt(bs[k], id, user)
  {
    if k < |bs| - 1 {
      LastFlagMeaning(bs[..|bs| - 1], id, user, k);
    }
  }
}
