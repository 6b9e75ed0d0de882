/**
 Building a batch from what a provider answered: decoded JSON objects, any of whose fields may be
 missing or of the wrong type (workspace_zulip_bridge/history.py).
 */
module HistoryBuilding {
  import opened Catalogs
  import opened HistoryBatches

  datatype Json =
    | Null
    | Bool(b: bool)
    | Number(n: int)
    | Text(s: string)
    | List(items: seq<Json>)
    | Object(fields: map<string, Json>)

  type Fields = map<string, Json>

  /** A missing field reads as null. */
  function Field(fields: Fields, name: string): Json {
    if name in fields then fields[name] else Null
  }

  function ValidatedId(value: Json): Result<nat> {
    if value.Number? && 0 < value.n <= MAX_ID then Ok(value.n) else Err("invalid_history_id")
  }

  function ValidatedText(value: Json): Result<string> {
    if value.Text? && '\0' !in value.s then Ok(value.s) else Err("invalid_history_text")
  }

  // ------------------------------------------------------------------ user_catalog

  function ParseUser(user: Fields): Result<User> {
    var id := ValidatedId(Field(user, "user_id"));
    if id.Err? then Err(id.error) else
    var name := ValidatedText(Field(user, "full_name"));
    if name.Err? then Err(name.error) else Ok(User(id.value, name.value))
  }

  /** A later entry of the same user replaces an earlier one; the first invalid entry is the error. */
  method UserCatalog(users: seq<Fields>) returns (r: Result<seq<User>>)
    ensures r.Ok? <==> forall i :: 0 <= i < |users| ==> ParseUser(users[i]).Ok?
    ensures r.Ok? ==> Canonical(r.value, UserId)
    ensures r.Ok? ==> forall u :: u in r.value <==> LastEntry(users, u)
    ensures r.Err? ==> exists i :: 0 <= i < |users| && FirstInvalid(users, i, r.error)
  {
    var catalog: map<nat, User> := map[];
    for i := 0 to |users|
      invariant forall j :: 0 <= j < i ==> ParseUser(users[j]).Ok?
      invariant Keyed(catalog, UserId)
      invariant forall u :: LastEntry(users[..i], u) <==> u.id in catalog && catalog[u.id] == u
    {
      var user := ParseUser(users[i]);
      if user.Err? {
        assert FirstInvalid(users, i, user.error);
        return Err(user.error);
      }
      LastEntryExtended(users, i, user.value);
      catalog := catalog[user.value.id := user.value];
    }
    assert users[..|users|] == users;
    ListingCanonical(catalog, UserId);
    ListingEntries(catalog);
    r := Ok(Listing(catalog));
  }

  ghost predicate FirstInvalid(users: seq<Fields>, i: nat, error: string)
    requires i < |users|
  {
    ParseUser(users[i]) == Err(error) && forall j :: 0 <= j < i ==> ParseUser(users[j]).Ok?
  }

  /** `u` is the last entry with its id. */
  ghost predicate LastEntry(users: seq<Fields>, u: User) {
    exists i :: 0 <= i < |users| && IsLast(users, u, i)
  }

  ghost predicate IsLast(users: seq<Fields>, u: User, i: nat)
    requires i < |users|
  {
    ParseUser(users[i]) == Ok(u) &&
    forall j :: i < j < |users| && ParseUser(users[j]).Ok? ==> ParseUser(users[j]).value.id != u.id
  }

  lemma LastEntryExtended(users: seq<Fields>, i: nat, last: User)
    requires i < |users| && ParseUser(users[i]) == Ok(last)
    ensures forall u :: LastEntry(users[..i + 1], u) <==> u == last || (u.id != last.id && LastEntry(users[..i], u))
  {
    var shorter, longer := users[..i], users[..i + 1];
    forall u ensures LastEntry(longer, u) <==> u == last || (u.id != last.id && LastEntry(shorter, u)) {
      if u == last { assert IsLast(longer, u, i); }
      if LastEntry(longer, u) && u != last {
        var j :| 0 <= j < |longer| && IsLast(longer, u, j);
        assert j < i && longer[i] == users[i];
        assert forall x :: 0 <= x < i ==> shorter[x] == longer[x];
        assert IsLast(shorter, u, j);
      }
      if u.id != last.id && LastEntry(shorter, u) {
        var j :| 0 <= j < |shorter| && IsLast(shorter, u, j);
        assert forall x :: 0 <= x < i ==> shorter[x] == longer[x];
        assert IsLast(longer, u, j);
      }
    }
  }

  // ------------------------------------------------------------------ message_snapshot

  predicate AllTexts(items: seq<Json>) {
    forall i :: 0 <= i < |items| ==> items[i].Text?
  }

  predicate AllObjects(items: seq<Json>) {
    forall i :: 0 <= i < |items| ==> items[i].Object?
  }

  /** The validated ids of direct-message participants, or the error. */
  predicate AllPeople(items: seq<Json>) {
    forall i :: 0 <= i < |items| ==> items[i].Object? && ValidatedId(Field(items[i].fields, "id")).Ok?
  }

  function People(items: seq<Json>): set<nat>
    requires AllPeople(items)
  {
    set i | 0 <= i < |items| :: ValidatedId(Field(items[i].fields, "id")).value
  }

  function LocationOf(message: Fields): Result<Location> {
    var kind, recipient := Field(message, "type"), Field(message, "display_recipient");
    if kind == Text("stream") then
      var channel := ValidatedId(Field(message, "stream_id"));
      if channel.Err? then Err(channel.error) else
      var name := ValidatedText(recipient);
      if name.Err? then Err(name.error) else
      var topic := ValidatedText(Field(message, "subject"));
      if topic.Err? then Err(topic.error) else Ok(Channel(channel.value, name.value, topic.value))
    else if kind == Text("private") then
      if !recipient.List? || recipient.items == [] || !AllObjects(recipient.items) then Err("invalid_history_recipients")
      else if !AllPeople(recipient.items) then Err("invalid_history_id")
      else Ok(Direct(Sorted(People(recipient.items))))
    else Err("invalid_history_message_type")
  }

  datatype Reaction = Reaction(key: ReactionKey, name: string)

  function ParseReaction(value: Json): Result<Reaction> {
    if !value.Object? then Err("invalid_history_reaction") else
    var user := ValidatedId(Field(value.fields, "user_id"));
    if user.Err? then Err(user.error) else
    var kind := ValidatedText(Field(value.fields, "reaction_type"));
    if kind.Err? then Err(kind.error) else
    var code := ValidatedText(Field(value.fields, "emoji_code"));
    if code.Err? then Err(code.error) else
    var name := ValidatedText(Field(value.fields, "emoji_name"));
    if name.Err? then Err(name.error) else Ok(Reaction(ReactionKey(user.value, kind.value, code.value), name.value))
  }

  ghost predicate Agree(reactions: seq<Json>, i: nat, j: nat)
    requires i < |reactions| && j < |reactions|
  {
    var a, b := ParseReaction(reactions[i]), ParseReaction(reactions[j]);
    a.Ok? && b.Ok? && a.value.key == b.value.key ==> a == b
  }

  /** Every entry is valid, and no two name the same reaction differently. */
  ghost predicate ValidReactions(reactions: seq<Json>) {
    && (forall i :: 0 <= i < |reactions| ==> ParseReaction(reactions[i]).Ok?)
    && (forall i, j :: 0 <= i < j < |reactions| ==> Agree(reactions, i, j))
  }

  ghost predicate Mentions(reactions: seq<Json>, reaction: Reaction) {
    exists i :: 0 <= i < |reactions| && ParseReaction(reactions[i]) == Ok(reaction)
  }

  /** The dictionary of a valid list of reactions. */
  ghost predicate Itemised(items: map<ReactionKey, string>, reactions: seq<Json>) {
    && ValidReactions(reactions)
    && forall x: Reaction :: Mentions(reactions, x) <==> x.key in items && items[x.key] == x.name
  }

  lemma ReactionAdded(reactions: seq<Json>, i: nat, x: Reaction, items: map<ReactionKey, string>)
    requires i < |reactions| && ParseReaction(reactions[i]) == Ok(x) && Itemised(items, reactions[..i])
    requires x.key in items ==> items[x.key] == x.name
    ensures Itemised(items[x.key := x.name], reactions[..i + 1])
  {
    NoConflict(reactions, i, x, items);
    var shorter, longer := reactions[..i], reactions[..i + 1];
    forall j, k | 0 <= j < k < |longer| ensures Agree(longer, j, k) {
      if k < i { assert Agree(shorter, j, k); } else { assert Agree(reactions, j, i); }
    }
  }

  /** The reactions as one dictionary; duplicates are fine, conflicts are not. */
  method ReactionItems(reactions: seq<Json>) returns (r: Result<map<ReactionKey, string>>)
    ensures r.Ok? <==> ValidReactions(reactions)
    ensures r.Ok? ==> forall x: Reaction :: Mentions(reactions, x) <==> x.key in r.value && r.value[x.key] == x.name
  {
    var items: map<ReactionKey, string> := map[];
    for i := 0 to |reactions|
      invariant Itemised(items, reactions[..i])
    {
      var reaction := ParseReaction(reactions[i]);
      if reaction.Err? { return Err(reaction.error); }
      var x := reaction.value;
      if x.key in items && items[x.key] != x.name {
        ConflictFound(reactions, i, x, Reaction(x.key, items[x.key]));
        return Err("conflicting_history_reaction");
      }
      ReactionAdded(reactions, i, x, items);
      items := items[x.key := x.name];
    }
    assert reactions[..|reactions|] == reactions;
    r := Ok(items);
  }

  lemma ConflictFound(reactions: seq<Json>, i: nat, x: Reaction, y: Reaction)
    requires i < |reactions| && ParseReaction(reactions[i]) == Ok(x)
    requires Mentions(reactions[..i], y) && x.key == y.key && x != y
    ensures !ValidReactions(reactions)
  {
    var j :| 0 <= j < i && ParseReaction(reactions[..i][j]) == Ok(y);
    assert !Agree(reactions, j, i);
  }

  lemma NoConflict(reactions: seq<Json>, i: nat, x: Reaction, items: map<ReactionKey, string>)
    requires i < |reactions| && ParseReaction(reactions[i]) == Ok(x)
    requires forall y: Reaction :: Mentions(reactions[..i], y) <==> y.key in items && items[y.key] == y.name
    requires x.key in items ==> items[x.key] == x.name
    ensures forall j :: 0 <= j < i ==> Agree(reactions, j, i)
    ensures forall y: Reaction :: Mentions(reactions[..i + 1], y) <==> Mentions(reactions[..i], y) || y == x
  {
    var shorter, longer := reactions[..i], reactions[..i + 1];
    forall j | 0 <= j < i ensures Agree(reactions, j, i) {
      var a := ParseReaction(reactions[j]);
      if a.Ok? {
        assert shorter[j] == reactions[j];
        assert Mentions(shorter, a.value);
      }
    }
    forall y: Reaction ensures Mentions(longer, y) <==> Mentions(shorter, y) || y == x {
      if Mentions(shorter, y) {
        var j :| 0 <= j < |shorter| && ParseReaction(shorter[j]) == Ok(y);
        assert longer[j] == shorter[j];
      }
      if y == x { assert longer[i] == reactions[i]; }
      if Mentions(longer, y) {
        var j :| 0 <= j < |longer| && ParseReaction(longer[j]) == Ok(y);
        if j < i { assert shorter[j] == longer[j]; }
      }
    }
  }

  /** The scalar fields of a message, in the order they are validated. */
  predicate ValidScalars(message: Fields, observer: Json) {
    && ValidatedId(Field(message, "id")).Ok? && ValidatedId(Field(message, "sender_id")).Ok?
    && ValidatedId(Field(message, "timestamp")).Ok? && ValidatedText(Field(message, "content")).Ok?
    && ValidatedId(observer).Ok?
  }

  ghost predicate ValidMessage(message: Fields, observer: Json) {
    && Field(message, "flags").List? && AllTexts(Field(message, "flags").items)
    && Field(message, "reactions").List? && ValidReactions(Field(message, "reactions").items)
    && LocationOf(message).Ok? && ValidScalars(message, observer)
  }

  /** `m` is the snapshot of a valid message as this observer sees it. */
  ghost predicate IsSnapshot(message: Fields, observer: Json, m: Message)
    requires ValidMessage(message, observer)
  {
    && m.core.id == Field(message, "id").n && m.core.sender == Field(message, "sender_id").n
    && m.core.sentAt == Field(message, "timestamp").n && m.core.content == Field(message, "content").s
    && LocationOf(message) == Ok(m.core.location)
    && (forall x: Reaction :: Mentions(Field(message, "reactions").items, x) <==>
          x.key in m.core.reactions && m.core.reactions[x.key] == x.name)
    && m.access == [Access(observer.n, Text("read") in Field(message, "flags").items,
                           Text("starred") in Field(message, "flags").items)]
    && m.hash == MessageDigest(m.core, m.access)
  }

  method MessageSnapshot(message: Fields, observer: Json) returns (r: Result<Message>)
    ensures r.Ok? <==> ValidMessage(message, observer)
    ensures r.Ok? ==> IsSnapshot(message, observer, r.value) && WellFormedMessage(r.value)
  {
    var flags, reactions := Field(message, "flags"), Field(message, "reactions");
    if !flags.List? || !AllTexts(flags.items) { return Err("missing_history_user_flags"); }
    if !reactions.List? { return Err("missing_history_reactions"); }
    var location := LocationOf(message);
    if location.Err? { return Err(location.error); }
    var items := ReactionItems(reactions.items);
    if items.Err? { return Err(items.error); }
    var id, sender := ValidatedId(Field(message, "id")), ValidatedId(Field(message, "sender_id"));
    if id.Err? { return Err(id.error); }
    if sender.Err? { return Err(sender.error); }
    var sentAt := ValidatedId(Field(message, "timestamp"));
    if sentAt.Err? { return Err(sentAt.error); }
    var content := ValidatedText(Field(message, "content"));
    if content.Err? { return Err(content.error); }
    var user := ValidatedId(observer);
    if user.Err? { return Err(user.error); }
    r := Ok(Seal(Core(id.value, sender.value, location.value, sentAt.value, content.value, items.value),
                 [Access(user.value, Text("read") in flags.items, Text("starred") in flags.items)]));
  }

  /** A message has one snapshot. */
  lemma SnapshotUnique(message: Fields, observer: Json, a: Message, b: Message)
    requires ValidMessage(message, observer) && IsSnapshot(message, observer, a) && IsSnapshot(message, observer, b)
    ensures a == b
  {
    var raw := Field(message, "reactions").items;
    forall k | k in a.core.reactions ensures k in b.core.reactions && b.core.reactions[k] == a.core.reactions[k] {
      assert Mentions(raw, Reaction(k, a.core.reactions[k]));
    }
    forall k | k in b.core.reactions ensures k in a.core.reactions {
      assert Mentions(raw, Reaction(k, b.core.reactions[k]));
    }
    assert a.core.reactions == b.core.reactions;
  }

  predicate SafeId(n: int) {
    1 <= n <= 0x1F_FFFF_FFFF_FFFF
  }

  predicate SafeText(s: string) {
    forall i :: 0 <= i < |s| ==> s[i] != '\0'
  }

  /** Every number is a positive integer that JSON readers keep exact, every text one PostgreSQL can store. */
  ghost predicate Storable(m: Message) {
    && SafeId(m.core.id) && SafeId(m.core.sender) && SafeId(m.core.sentAt) && SafeText(m.core.content)
    && (match m.core.location
        case Channel(id, name, topic) => SafeId(id) && SafeText(name) && SafeText(topic)
        case Direct(ids) => ids != [] && Ascending(ids) && forall i :: 0 <= i < |ids| ==> SafeId(ids[i]))
    && (forall k :: k in m.core.reactions ==>
          SafeId(k.userId) && SafeText(k.kind) && SafeText(k.code) && SafeText(m.core.reactions[k]))
    && forall i :: 0 <= i < |m.access| ==> SafeId(m.access[i].userId)
  }

  lemma LocationIsStorable(message: Fields)
    requires LocationOf(message).Ok?
    ensures match LocationOf(message).value
      case Channel(id, name, topic) => SafeId(id) && SafeText(name) && SafeText(topic)
      case Direct(ids) => ids != [] && Ascending(ids) && forall i :: 0 <= i < |ids| ==> SafeId(ids[i])
  {
    if LocationOf(message).value.Direct? {
      var people := People(Field(message, "display_recipient").items);
      SortedFacts(people);
      var items := Field(message, "display_recipient").items;
      assert ValidatedId(Field(items[0].fields, "id")).value in people;
      var ids := Sorted(people);
      forall i | 0 <= i < |ids| ensures SafeId(ids[i]) {
        assert ids[i] in ids;
      }
    }
  }

  lemma SnapshotIsStorable(message: Fields, observer: Json, m: Message)
    requires ValidMessage(message, observer) && IsSnapshot(message, observer, m)
    ensures Storable(m)
  {
    LocationIsStorable(message);
    var raw := Field(message, "reactions").items;
    forall k | k in m.core.reactions
      ensures SafeId(k.userId) && SafeText(k.kind) && SafeText(k.code) && SafeText(m.core.reactions[k])
    {
      assert Mentions(raw, Reaction(k, m.core.reactions[k]));
    }
  }

  predicate IsPerson(value: Json, id: nat) {
    value.Object? && Field(value.fields, "id") == Number(id)
  }

  ghost predicate Listed(ids: seq<nat>, value: Json) {
    exists id :: id in ids && IsPerson(value, id)
  }

  ghost predicate Found(people: seq<Json>, id: nat) {
    exists i :: 0 <= i < |people| && IsPerson(people[i], id)
  }

  /** The recipients are exactly the listed people. */
  ghost predicate Lists(people: seq<Json>, ids: seq<nat>) {
    && (forall i :: 0 <= i < |people| ==> Listed(ids, people[i]))
    && (forall id :: id in ids ==> Found(people, id))
  }

  lemma PersonListed(people: seq<Json>, ids: seq<nat>, i: nat)
    requires AllPeople(people) && i < |people| && forall id :: id in People(people) ==> id in ids
    ensures Listed(ids, people[i])
  {
    var id: nat := ValidatedId(Field(people[i].fields, "id")).value;
    assert id in People(people);
    assert id in ids && IsPerson(people[i], id);
  }

  lemma PersonFound(people: seq<Json>, id: nat)
    requires AllPeople(people) && id in People(people)
    ensures Found(people, id)
  {
    var i :| 0 <= i < |people| && ValidatedId(Field(people[i].fields, "id")).value == id;
    assert IsPerson(people[i], id);
  }

  lemma PeopleAreListed(people: seq<Json>, ids: seq<nat>)
    requires AllPeople(people) && forall id :: id in ids <==> id in People(people)
    ensures Lists(people, ids)
  {
    forall i | 0 <= i < |people| ensures Listed(ids, people[i]) {
      PersonListed(people, ids, i);
    }
    forall id | id in ids ensures Found(people, id) {
      PersonFound(people, id);
    }
  }

  /** A channel message is where its stream and subject say, a direct message among exactly its participants. */
  lemma LocationIsWhereItSays(message: Fields)
    requires LocationOf(message).Ok?
    ensures match LocationOf(message).value
      case Channel(id, name, topic) =>
        && Field(message, "type") == Text("stream") && Field(message, "stream_id") == Number(id)
        && Field(message, "display_recipient") == Text(name) && Field(message, "subject") == Text(topic)
      case Direct(ids) =>
        && Field(message, "type") == Text("private") && Field(message, "display_recipient").List?
        && Lists(Field(message, "display_recipient").items, ids)
  {
    if LocationOf(message).value.Direct? {
      var people := Field(message, "display_recipient").items;
      SortedFacts(People(people));
      PeopleAreListed(people, Sorted(People(people)));
    }
  }

  predicate Spells(value: Json, x: Reaction) {
    && value.Object?
    && Field(value.fields, "user_id") == Number(x.key.userId) && Field(value.fields, "reaction_type") == Text(x.key.kind)
    && Field(value.fields, "emoji_code") == Text(x.key.code) && Field(value.fields, "emoji_name") == Text(x.name)
  }

  /** A mentioned reaction is spelled out by one of the raw entries. */
  lemma MentionIsRaw(reactions: seq<Json>, x: Reaction)
    requires Mentions(reactions, x)
    ensures exists i :: 0 <= i < |reactions| && Spells(reactions[i], x)
  {
    var i :| 0 <= i < |reactions| && ParseReaction(reactions[i]) == Ok(x);
    assert Spells(reactions[i], x);
  }

  /** A catalogued user is spelled out by one of the raw entries. */
  lemma UserIsRaw(users: seq<Fields>, u: User)
    requires LastEntry(users, u)
    ensures SafeId(u.id) && SafeText(u.name)
    ensures exists i :: 0 <= i < |users| && Field(users[i], "user_id") == Number(u.id) && Field(users[i], "full_name") == Text(u.name)
  {
    var i :| 0 <= i < |users| && IsLast(users, u, i);
    assert Field(users[i], "user_id") == Number(u.id);
  }

  // ------------------------------------------------------------------ make_batch

  ghost predicate Snapshots(page: seq<Fields>, observer: Json, m: Message) {
    exists i :: 0 <= i < |page| && SnapshotAt(page, observer, i, m)
  }

  ghost predicate SnapshotAt(page: seq<Fields>, observer: Json, i: nat, m: Message)
    requires i < |page|
  {
    ValidMessage(page[i], observer) && IsSnapshot(page[i], observer, m)
  }

  /** Valid and inside the range. */
  ghost predicate Fits(message: Fields, observer: Json, fromId: int, toId: int) {
    ValidMessage(message, observer) && fromId <= Field(message, "id").n <= toId
  }

  /** Two entries with one id have one snapshot. */
  ghost predicate Consistent(page: seq<Fields>, observer: Json, i: nat, j: nat)
    requires i < |page| && j < |page|
  {
    forall a, b :: SnapshotAt(page, observer, i, a) && SnapshotAt(page, observer, j, b) && a.core.id == b.core.id ==> a == b
  }

  ghost predicate ValidPage(page: seq<Fields>, observer: Json, fromId: int, toId: int) {
    && (forall i :: 0 <= i < |page| ==> Fits(page[i], observer, fromId, toId))
    && (forall i, j :: 0 <= i < j < |page| ==> Consistent(page, observer, i, j))
  }

  /** The dictionary holds exactly the snapshots of the page. */
  ghost predicate Holds(messages: map<nat, Message>, page: seq<Fields>, observer: Json) {
    forall m: Message :: Snapshots(page, observer, m) <==> m.core.id in messages && messages[m.core.id] == m
  }

  lemma PageConflict(page: seq<Fields>, observer: Json, i: nat, a: Message, messages: map<nat, Message>, fromId: int, toId: int)
    requires i < |page| && SnapshotAt(page, observer, i, a) && Holds(messages, page[..i], observer) && Keyed(messages, MessageId)
    requires a.core.id in messages && messages[a.core.id] != a
    ensures !ValidPage(page, observer, fromId, toId)
  {
    var b := messages[a.core.id];
    assert Snapshots(page[..i], observer, b);
    var j :| 0 <= j < i && SnapshotAt(page[..i], observer, j, b);
    assert SnapshotAt(page, observer, j, b);
    assert !Consistent(page, observer, j, i);
  }

  lemma PageExtended(page: seq<Fields>, observer: Json, i: nat, a: Message, messages: map<nat, Message>)
    requires i < |page| && SnapshotAt(page, observer, i, a) && Holds(messages, page[..i], observer)
    requires a.core.id in messages ==> messages[a.core.id] == a
    ensures forall j :: 0 <= j < i ==> Consistent(page, observer, j, i)
    ensures Holds(messages[a.core.id := a], page[..i + 1], observer)
  {
    var shorter, longer, after := page[..i], page[..i + 1], messages[a.core.id := a];
    forall j | 0 <= j < i ensures Consistent(page, observer, j, i) {
      forall b, c | SnapshotAt(page, observer, j, b) && SnapshotAt(page, observer, i, c) && b.core.id == c.core.id ensures b == c {
        SnapshotUnique(page[i], observer, a, c);
        assert SnapshotAt(shorter, observer, j, b);
        assert Snapshots(shorter, observer, b);
      }
    }
    forall m: Message ensures Snapshots(longer, observer, m) <==> m.core.id in after && after[m.core.id] == m {
      if Snapshots(longer, observer, m) {
        var j :| 0 <= j < |longer| && SnapshotAt(longer, observer, j, m);
        if j == i { SnapshotUnique(page[i], observer, a, m); } else { assert SnapshotAt(shorter, observer, j, m); }
      }
      if m == a { assert SnapshotAt(longer, observer, i, m); }
      if Snapshots(shorter, observer, m) {
        var j :| 0 <= j < |shorter| && SnapshotAt(shorter, observer, j, m);
        assert SnapshotAt(longer, observer, j, m);
      }
    }
  }

  /** The dictionary built from a valid page. */
  ghost predicate Collected(messages: map<nat, Message>, page: seq<Fields>, observer: Json, fromId: int, toId: int) {
    && ValidPage(page, observer, fromId, toId)
    && Keyed(messages, MessageId) && Holds(messages, page, observer)
    && forall id :: id in messages ==> WellFormedMessage(messages[id]) && fromId <= id <= toId
  }

  lemma CollectedExtended(page: seq<Fields>, observer: Json, i: nat, a: Message, messages: map<nat, Message>, fromId: int, toId: int)
    requires i < |page| && SnapshotAt(page, observer, i, a) && WellFormedMessage(a) && fromId <= a.core.id <= toId
    requires Collected(messages, page[..i], observer, fromId, toId)
    requires a.core.id in messages ==> messages[a.core.id] == a
    ensures Collected(messages[a.core.id := a], page[..i + 1], observer, fromId, toId)
  {
    PageExtended(page, observer, i, a, messages);
    ValidPageExtended(page, observer, i, fromId, toId);
  }

  lemma ValidPageExtended(page: seq<Fields>, observer: Json, i: nat, fromId: int, toId: int)
    requires i < |page| && ValidPage(page[..i], observer, fromId, toId) && Fits(page[i], observer, fromId, toId)
    requires forall j :: 0 <= j < i ==> Consistent(page, observer, j, i)
    ensures ValidPage(page[..i + 1], observer, fromId, toId)
  {
    var shorter, longer := page[..i], page[..i + 1];
    forall j | 0 <= j < |longer| ensures Fits(longer[j], observer, fromId, toId) {
      if j < i { assert Fits(shorter[j], observer, fromId, toId); }
    }
    forall j, k | 0 <= j < k < |longer| ensures Consistent(longer, observer, j, k) {
      SameEntriesConsistent(longer, if k < i then shorter else page, observer, j, k);
    }
  }

  lemma SameEntriesConsistent(page: seq<Fields>, other: seq<Fields>, observer: Json, j: nat, k: nat)
    requires j < |page| && k < |page| && j < |other| && k < |other| && page[j] == other[j] && page[k] == other[k]
    requires Consistent(other, observer, j, k)
    ensures Consistent(page, observer, j, k)
  {
    forall a, b | SnapshotAt(page, observer, j, a) && SnapshotAt(page, observer, k, b) && a.core.id == b.core.id ensures a == b {
      assert SnapshotAt(other, observer, j, a) && SnapshotAt(other, observer, k, b);
    }
  }

  method PageMessages(fromId: int, toId: int, page: seq<Fields>, observer: Json) returns (r: Result<map<nat, Message>>)
    ensures r.Ok? <==> ValidPage(page, observer, fromId, toId)
    ensures r.Ok? ==> Collected(r.value, page, observer, fromId, toId)
  {
    var messages: map<nat, Message> := map[];
    for i := 0 to |page|
      invariant Collected(messages, page[..i], observer, fromId, toId)
    {
      var message := MessageSnapshot(page[i], observer);
      if message.Err? {
        assert !Fits(page[i], observer, fromId, toId);
        return Err(message.error);
      }
      var m := message.value;
      assert SnapshotAt(page, observer, i, m);
      if !(fromId <= m.core.id <= toId) {
        assert !Fits(page[i], observer, fromId, toId);
        return Err("history_message_outside_range");
      }
      if m.core.id in messages && messages[m.core.id] != m {
        PageConflict(page, observer, i, m, messages, fromId, toId);
        return Err("conflicting_history_message");
      }
      CollectedExtended(page, observer, i, m, messages, fromId, toId);
      messages := messages[m.core.id := m];
    }
    assert page[..|page|] == page;
    r := Ok(messages);
  }

  lemma BuiltBatch(fromId: nat, toId: nat, users: seq<User>, messages: map<nat, Message>)
    requires AlignedRange(fromId, toId) && Canonical(users, UserId) && Keyed(messages, MessageId)
    requires forall id :: id in messages ==> WellFormedMessage(messages[id]) && fromId <= id <= toId
    ensures WellFormed(SealBatch(fromId, toId, users, Listing(messages)))
    ensures forall m :: m in Listing(messages) <==> m.core.id in messages && messages[m.core.id] == m
  {
    ListingCanonical(messages, MessageId);
    ListingEntries(messages);
  }

  /**
   A batch is built exactly when its range is aligned, every message is valid, in range and
   consistent with its duplicates, and every user is valid. It is then well formed and holds
   exactly the snapshots of the page and the last entry of each user.
   */
  method MakeBatch(fromId: int, toId: int, page: seq<Fields>, users: seq<Fields>, observer: Json) returns (r: Result<Batch>)
    ensures r.Ok? <==>
      && AlignedRange(fromId, toId) && ValidPage(page, observer, fromId, toId)
      && forall i :: 0 <= i < |users| ==> ParseUser(users[i]).Ok?
    ensures r.Ok? ==> WellFormed(r.value) && r.value.fromId == fromId && r.value.toId == toId
    ensures r.Ok? ==> forall m :: m in r.value.messages <==> Snapshots(page, observer, m)
    ensures r.Ok? ==> forall u :: u in r.value.users <==> LastEntry(users, u)
  {
    if fromId < 1 || (fromId - 1) % BATCH_SIZE != 0 { return Err("invalid_history_range"); }
    if toId != fromId + BATCH_SIZE - 1 { return Err("invalid_history_range"); }
    var messages := PageMessages(fromId, toId, page, observer);
    if messages.Err? { return Err(messages.error); }
    var catalog := UserCatalog(users);
    if catalog.Err? { return Err(catalog.error); }
    BuiltBatch(fromId, toId, catalog.value, messages.value);
    r := Ok(SealBatch(fromId, toId, catalog.value, Listing(messages.value)));
  }
}
