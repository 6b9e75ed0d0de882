/**
 Canonical chat keys and event keys (workspace_zulip_bridge/provider_protocol.py).
 */
module ProviderKeys {
  import opened Catalogs
  import opened Decimal

  // ------------------------------------------------------------------ strings

  /** The position of the first `c`, or the length. */
  function Find(s: string, c: char): (i: nat)
    ensures i <= |s| && (i < |s| ==> s[i] == c)
  {
    if s == [] || s[0] == c then 0 else 1 + Find(s[1..], c)
  }

  function Split(s: string, c: char): seq<string> {
    var i := Find(s, c);
    if i == |s| then [s] else [s[..i]] + Split(s[i + 1..], c)
  }

  function Join(parts: seq<string>, c: char): string {
    if parts == [] then []
    else if |parts| == 1 then parts[0]
    else parts[0] + [c] + Join(parts[1..], c)
  }

  predicate Free(s: string, c: char) {
    forall i :: 0 <= i < |s| ==> s[i] != c
  }

  /** The first part of a text ends at the separator, however the rest goes on. */
  lemma {:induction false} FindAfter(s: string, c: char, rest: string)
    requires Free(s, c)
    ensures Find(s + [c] + rest, c) == |s| && Find(s, c) == |s|
  {
    if s != [] {
      FindAfter(s[1..], c, rest);
      assert (s + [c] + rest)[1..] == s[1..] + [c] + rest;
    }
  }

  lemma {:induction false} SplitJoin(parts: seq<string>, c: char)
    requires parts != [] && forall i :: 0 <= i < |parts| ==> Free(parts[i], c)
    ensures Split(Join(parts, c), c) == parts
    decreases |parts|
  {
    if |parts| == 1 {
      FindAfter(parts[0], c, []);
      assert parts == [parts[0]];
    } else {
      var rest := Join(parts[1..], c);
      var s := parts[0] + [c] + rest;
      FindAfter(parts[0], c, rest);
      SplitJoin(parts[1..], c);
      assert s[..|parts[0]|] == parts[0] && s[|parts[0]| + 1..] == rest;
      assert parts == [parts[0]] + parts[1..];
    }
  }

  predicate StartsWith(s: string, prefix: string) {
    |prefix| <= |s| && s[..|prefix|] == prefix
  }

  // ------------------------------------------------------------------ sets of participants

  lemma SomeElement(s: set<int>)
    requires s != {}
    ensures exists x :: x in s
  {
    if forall x :: x !in s { assert false; }
  }

  lemma {:induction false} SmallestExists(s: set<int>, x: int)
    requires x in s
    ensures exists m :: m in s && forall y :: y in s ==> m <= y
    decreases |s|
  {
    var rest := s - {x};
    if rest == {} {
      assert forall y :: y in s ==> y == x || y in rest;
      assert forall y :: y in s ==> x <= y;
    } else {
      SomeElement(rest);
      var z :| z in rest;
      SmallestExists(rest, z);
      var m :| m in rest && forall y :: y in rest ==> m <= y;
      var least := if m < x then m else x;
      forall y | y in s ensures least <= y {
        assert y == x || y in rest;
      }
    }
  }

  function Smallest(s: set<int>): (m: int)
    requires s != {}
    ensures m in s && forall x :: x in s ==> m <= x
  {
    assert exists m :: m in s && forall x :: x in s ==> m <= x by {
      SomeElement(s);
      var x :| x in s;
      SmallestExists(s, x);
    }
    var m :| m in s && forall x :: x in s ==> m <= x;
    m
  }

  function InOrder(s: set<int>): seq<int> {
    if s == {} then [] else
    var m := Smallest(s);
    [m] + InOrder(s - {m})
  }

  /** Participants are printed in ascending order. */
  lemma {:induction false} InOrderRises(s: set<int>)
    ensures forall i, j :: 0 <= i < j < |InOrder(s)| ==> InOrder(s)[i] < InOrder(s)[j]
  {
    if s != {} {
      var m := Smallest(s);
      InOrderRises(s - {m});
      InOrderElements(s - {m});
      var rest := InOrder(s - {m});
      forall j | 0 <= j < |rest| ensures m < rest[j] {
        assert rest[j] in rest;
        assert rest[j] in s - {m};
      }
    }
  }

  lemma {:induction false} InOrderElements(s: set<int>)
    ensures |InOrder(s)| == |s| && forall x :: x in InOrder(s) <==> x in s
  {
    if s != {} { InOrderElements(s - {Smallest(s)}); }
  }

  // ------------------------------------------------------------------ direct_conversation_key

  const DIRECT_V1 := "direct-conversation:v1:"

  function Texts(ids: seq<int>): seq<string> {
    seq(|ids|, i requires 0 <= i < |ids| => Print(ids[i]))
  }

  /** The canonical serialization of a set of participants. */
  function Format(ids: set<int>): string {
    DIRECT_V1 + (Digits(|ids|) + [':'] + Join(Texts(InOrder(ids)), ','))
  }

  /** A count, a colon and that many identifiers. */
  function CountedIdentifiers(s: string): Result<seq<string>> {
    var colon := Find(s, ':');
    var values := if colon < |s| then Split(s[colon + 1..], ',') else [];
    if Digits(|values|) != s[..colon] then Err("Provider direct-conversation key is invalid") else Ok(values)
  }

  /** The identifier texts of a key that names participants. */
  function Identifiers(key: string): Result<seq<string>> {
    if StartsWith(key, DIRECT_V1) then CountedIdentifiers(key[|DIRECT_V1|..])
    else if StartsWith(key, "direct:") then Ok(Split(key[7..], ','))
    else if StartsWith(key, "group_direct:") then Ok(Split(key[13..], ','))
    else Err("Provider chat key is invalid")
  }

  /** The numbers of the non-empty texts; one unreadable text is an error. */
  function Numbers(values: seq<string>): Result<set<int>> {
    if values == [] then Ok({}) else
    var before := Numbers(values[..|values| - 1]);
    var last := values[|values| - 1];
    if before.Err? || last == [] then before
    else if Read(last).None? then Err("invalid literal for int()")
    else Ok(before.value + {Read(last).value})
  }

  function Participants(key: string): Result<set<int>> {
    var values := Identifiers(key);
    if values.Err? then Err(values.error) else Numbers(values.value)
  }

  predicate FixedPoint(key: string) {
    StartsWith(key, "channel:") || key == "account"
  }

  /** `owner` is the account's own provider user, when it is known. */
  function DirectKey(owner: Option<int>, key: string): Result<string> {
    if FixedPoint(key) then Ok(key) else
    var ids := Participants(key);
    if ids.Err? then Err(ids.error) else
    var all := ids.value + if owner.Some? then {owner.value} else {};
    if all == {} then Err("Provider direct-conversation participants are missing") else Ok(Format(all))
  }

  method DirectConversationKey(owner: Option<int>, key: string) returns (r: Result<string>)
    ensures r == DirectKey(owner, key)
  {
    if StartsWith(key, "channel:") || key == "account" { return Ok(key); }
    var values := Identifiers(key);
    if values.Err? { return Err(values.error); }
    var ids: set<int> := {};
    for i := 0 to |values.value|
      invariant Numbers(values.value[..i]) == Ok(ids)
    {
      assert values.value[..i + 1][..i] == values.value[..i];
      var value := values.value[i];
      if value != [] {
        if Read(value).None? {
          NumbersFail(values.value, i);
          return Err("invalid literal for int()");
        }
        ids := ids + {Read(value).value};
      }
    }
    assert values.value[..|values.value|] == values.value;
    if owner.Some? { ids := ids + {owner.value}; }
    if ids == {} { return Err("Provider direct-conversation participants are missing"); }
    return Ok(Format(ids));
  }

  lemma {:induction false} NumbersFail(values: seq<string>, i: nat)
    requires i < |values| && Numbers(values[..i]).Ok? && values[i] != [] && Read(values[i]).None?
    ensures Numbers(values) == Err("invalid literal for int()")
    decreases |values|
  {
    if i == |values| - 1 {
      assert values[..i] == values[..|values| - 1];
    } else {
      var init := values[..|values| - 1];
      assert init[..i] == values[..i];
      NumbersFail(init, i);
    }
  }

  // ------------------------------------------------------------------ what the keys mean

  lemma PrintFree(n: int, c: char)
    requires c == ',' || c == ':'
    ensures Free(Print(n), c)
  {
    PrintRoundTrip(n);
  }

  function Elements(ids: seq<int>): set<int> {
    set x | x in ids
  }

  lemma {:induction false} NumbersOfTexts(ids: seq<int>)
    ensures Numbers(Texts(ids)) == Ok(Elements(ids))
  {
    if ids != [] {
      var init, last := ids[..|ids| - 1], ids[|ids| - 1];
      NumbersOfTexts(init);
      PrintRoundTrip(last);
      assert Texts(ids)[..|ids| - 1] == Texts(init);
      assert ids == init + [last];
      assert Elements(ids) == Elements(init) + {last};
      assert Texts(ids)[|ids| - 1] == Print(last);
    } else {
      assert Texts(ids) == [] && Elements(ids) == {};
    }
  }

  lemma CountedParts(count: string, list: string, values: seq<string>)
    requires Free(count, ':') && values == Split(list, ',') && Digits(|values|) == count
    ensures CountedIdentifiers(count + [':'] + list) == Ok(values)
  {
    var s := count + [':'] + list;
    FindAfter(count, ':', list);
    assert s[|count| + 1..] == list && s[..|count|] == count;
  }

  lemma CountedRoundTrip(texts: seq<string>)
    requires texts != [] && forall i :: 0 <= i < |texts| ==> Free(texts[i], ',')
    ensures CountedIdentifiers(Digits(|texts|) + [':'] + Join(texts, ',')) == Ok(texts)
  {
    SplitJoin(texts, ',');
    CountFree(|texts|);
    CountedParts(Digits(|texts|), Join(texts, ','), texts);
  }

  lemma AfterPrefix(rest: string)
    ensures Identifiers(DIRECT_V1 + rest) == CountedIdentifiers(rest)
  {
    var key := DIRECT_V1 + rest;
    assert key[..|DIRECT_V1|] == DIRECT_V1 && key[|DIRECT_V1|..] == rest;
  }

  /** The texts of a canonical key are those of its participants in order. */
  lemma FormatIdentifiers(ids: set<int>)
    requires ids != {}
    ensures Identifiers(Format(ids)) == Ok(Texts(InOrder(ids)))
  {
    var order := InOrder(ids);
    InOrderElements(ids);
    var texts := Texts(order);
    forall i | 0 <= i < |texts| ensures Free(texts[i], ',') { PrintFree(order[i], ','); }
    CountedRoundTrip(texts);
    AfterPrefix(Digits(|ids|) + [':'] + Join(texts, ','));
  }

  lemma FormatIsDirect(ids: set<int>)
    ensures !FixedPoint(Format(ids))
  {
    assert Format(ids)[..7] == DIRECT_V1[..7];
    assert Format(ids)[0] == 'd';
  }

  /** A canonical key names exactly the participants it was made from. */
  lemma FormatRoundTrip(ids: set<int>)
    requires ids != {}
    ensures Participants(Format(ids)) == Ok(ids) && !FixedPoint(Format(ids))
  {
    FormatIsDirect(ids);
    FormatIdentifiers(ids);
    InOrderElements(ids);
    NumbersOfTexts(InOrder(ids));
    assert Elements(InOrder(ids)) == ids;
  }

  lemma CountFree(n: nat)
    ensures Free(Digits(n), ':')
  {
    DigitsRoundTrip(n);
  }

  /** Two canonical keys are equal exactly when the participants are. */
  lemma FormatInjective(a: set<int>, b: set<int>)
    requires a != {} && b != {}
    ensures Format(a) == Format(b) <==> a == b
  {
    FormatRoundTrip(a);
    FormatRoundTrip(b);
  }

  lemma TextsParse(ids: seq<int>)
    requires ids != []
    ensures Split(Join(Texts(ids), ','), ',') == Texts(ids) && Numbers(Texts(ids)) == Ok(Elements(ids))
  {
    forall i | 0 <= i < |ids| ensures Free(Texts(ids)[i], ',') { PrintFree(ids[i], ','); }
    SplitJoin(Texts(ids), ',');
    NumbersOfTexts(ids);
  }

  /** The older spellings name the participants they list, in any order and with repetitions. */
  lemma OlderSpellings(ids: seq<int>)
    requires ids != []
    ensures Participants("direct:" + Join(Texts(ids), ',')) == Ok(Elements(ids))
    ensures Participants("group_direct:" + Join(Texts(ids), ',')) == Ok(Elements(ids))
  {
    var list := Join(Texts(ids), ',');
    TextsParse(ids);
    var direct, group := "direct:" + list, "group_direct:" + list;
    assert direct[7..] == list && group[13..] == list;
    assert direct[6] == ':' && DIRECT_V1[6] == '-';
    assert direct[..7] == "direct:" && group[..13] == "group_direct:" && group[0] == 'g';
    assert |direct| >= |DIRECT_V1| ==> direct[..|DIRECT_V1|][6] == ':';
  }

  lemma KeyOfParticipants(owner: Option<int>, key: string, ids: set<int>)
    requires !FixedPoint(key) && Participants(key) == Ok(ids) && ids != {}
    ensures DirectKey(owner, key) == Ok(Format(ids + if owner.Some? then {owner.value} else {}))
  {
  }

  lemma SpellingsAreDirect(list: string)
    ensures !FixedPoint("direct:" + list) && !FixedPoint("group_direct:" + list)
  {
    assert ("direct:" + list)[0] == 'd' && ("group_direct:" + list)[0] == 'g';
  }

  /** So every spelling of one conversation has the same canonical key. */
  lemma SpellingsAgree(owner: Option<int>, ids: seq<int>)
    requires ids != []
    ensures var key := Format(Elements(ids) + if owner.Some? then {owner.value} else {});
      && DirectKey(owner, "direct:" + Join(Texts(ids), ',')) == Ok(key)
      && DirectKey(owner, "group_direct:" + Join(Texts(ids), ',')) == Ok(key)
      && DirectKey(owner, Format(Elements(ids))) == Ok(key)
  {
    OlderSpellings(ids);
    assert ids[0] in Elements(ids);
    FormatRoundTrip(Elements(ids));
    SpellingsAreDirect(Join(Texts(ids), ','));
    KeyOfParticipants(owner, "direct:" + Join(Texts(ids), ','), Elements(ids));
    KeyOfParticipants(owner, "group_direct:" + Join(Texts(ids), ','), Elements(ids));
    KeyOfParticipants(owner, Format(Elements(ids)), Elements(ids));
  }

  /** A canonical spelling whose count is wrong is refused. */
  lemma WrongCountRefused(owner: Option<int>, count: string, list: string)
    requires Free(count, ':') && count != Digits(|Split(list, ',')|)
    ensures DirectKey(owner, DIRECT_V1 + (count + [':'] + list)).Err?
  {
    var s := count + [':'] + list;
    FindAfter(count, ':', list);
    assert s[|count| + 1..] == list && s[..|count|] == count;
    AfterPrefix(s);
    var key := DIRECT_V1 + s;
    assert key[0] == DIRECT_V1[0] && key[1] == DIRECT_V1[1];
  }

  predicate Direct(owner: Option<int>, key: string) {
    !FixedPoint(key) && DirectKey(owner, key).Ok?
  }

  function All(owner: Option<int>, key: string): set<int>
    requires Direct(owner, key)
  {
    Participants(key).value + if owner.Some? then {owner.value} else {}
  }

  /** Canonicalising twice is canonicalising once. */
  lemma DirectKeyIdempotent(owner: Option<int>, key: string)
    requires DirectKey(owner, key).Ok?
    ensures DirectKey(owner, DirectKey(owner, key).value) == DirectKey(owner, key)
  {
    if !FixedPoint(key) {
      var all := All(owner, key);
      FormatRoundTrip(all);
      assert all + (if owner.Some? then {owner.value} else {}) == all;
    }
  }

  /** Direct keys agree exactly when participants plus owner agree as sets. */
  lemma DirectKeysAgree(owner1: Option<int>, key1: string, owner2: Option<int>, key2: string)
    requires Direct(owner1, key1) && Direct(owner2, key2)
    ensures DirectKey(owner1, key1) == DirectKey(owner2, key2) <==> All(owner1, key1) == All(owner2, key2)
  {
    FormatInjective(All(owner1, key1), All(owner2, key2));
  }

  lemma {:induction false} EmptyIgnored(before: seq<string>, after: seq<string>)
    ensures Numbers(before + [[]] + after) == Numbers(before + after)
  {
    if after == [] {
      assert before + [[]] + after == before + [[]] && before + after == before;
      assert (before + [[]])[..|before|] == before;
    } else {
      var init, last := after[..|after| - 1], after[|after| - 1];
      EmptyIgnored(before, init);
      assert (before + [[]] + after)[..|before| + |after|] == before + [[]] + init;
      assert (before + after)[..|before| + |after| - 1] == before + init;
    }
  }

  /** Channels and the account itself are their own keys, whoever asks. */
  lemma FixedPoints(owner: Option<int>, name: string)
    ensures DirectKey(owner, "account") == Ok("account")
    ensures DirectKey(owner, "channel:" + name) == Ok("channel:" + name)
  {
    assert ("channel:" + name)[..8] == "channel:";
  }

  /** Channel and account keys stay as they are and never equal a direct key. */
  lemma FixedPointsNeverCollide(owner1: Option<int>, key1: string, owner2: Option<int>, key2: string)
    requires FixedPoint(key1) && Direct(owner2, key2)
    ensures DirectKey(owner1, key1) == Ok(key1) && DirectKey(owner1, key1) != DirectKey(owner2, key2)
  {
    FormatRoundTrip(All(owner2, key2));
  }

  // ------------------------------------------------------------------ provider_event_key

  /** The bytes of a character in UTF-8. */
  function Encode(c: char): seq<int> {
    var n := c as int;
    if n < 0x80 then [n]
    else if n < 0x800 then [0xC0 + n / 64, 0x80 + n % 64]
    else if n < 0x1_0000 then [0xE0 + n / 64 / 64, 0x80 + n / 64 % 64, 0x80 + n % 64]
    else [0xF0 + n / 64 / 64 / 64, 0x80 + n / 64 / 64 % 64, 0x80 + n / 64 % 64, 0x80 + n % 64]
  }

  /** The first byte says how many follow; each of those carries six bits. */
  function Decode(b: seq<int>): Option<int> {
    if |b| == 1 && b[0] < 0x80 then Some(b[0])
    else if |b| == 2 && 0xC0 <= b[0] < 0xE0 then Some((b[0] - 0xC0) * 64 + (b[1] - 0x80))
    else if |b| == 3 && 0xE0 <= b[0] < 0xF0 then Some(((b[0] - 0xE0) * 64 + (b[1] - 0x80)) * 64 + (b[2] - 0x80))
    else if |b| == 4 && 0xF0 <= b[0] < 0xF8 then
      Some((((b[0] - 0xF0) * 64 + (b[1] - 0x80)) * 64 + (b[2] - 0x80)) * 64 + (b[3] - 0x80))
    else None
  }

  lemma EncodeRoundTrip(c: char)
    ensures Decode(Encode(c)) == Some(c as int)
    ensures forall i :: 0 <= i < |Encode(c)| ==> 0 <= Encode(c)[i] < 256
    ensures forall i :: 1 <= i < |Encode(c)| ==> 0x80 <= Encode(c)[i] < 0xC0
  {
  }

  /** The length of a text in UTF-8 bytes. */
  function Utf8Length(s: string): nat {
    if s == [] then 0 else Utf8Length(s[..|s| - 1]) + |Encode(s[|s| - 1])|
  }

  const EVENT_V1 := "provider-event:v1:"

  function EventKey(kind: string, objectKind: string, id: string, digest: string): string {
    EVENT_V1 + (kind + [':'] + (objectKind + [':'] + (Digits(Utf8Length(id)) + [':'] + (id + [':'] + digest))))
  }

  lemma {:induction false} LongerIsLonger(s: string, n: nat)
    requires n < |s|
    ensures Utf8Length(s[..n]) < Utf8Length(s)
  {
    if n < |s| - 1 {
      LongerIsLonger(s[..|s| - 1], n);
      assert s[..|s| - 1][..n] == s[..n];
    }
  }

  /** Texts whose first parts are free of the separator are equal part by part. */
  lemma SameParts(a: string, b: string, c: char, restA: string, restB: string)
    requires Free(a, c) && Free(b, c) && a + [c] + restA == b + [c] + restB
    ensures a == b && restA == restB
  {
    FindAfter(a, c, restA);
    FindAfter(b, c, restB);
    assert (a + [c] + restA)[..|a|] == a && (b + [c] + restB)[..|b|] == b;
    assert (a + [c] + restA)[|a| + 1..] == restA && (b + [c] + restB)[|b| + 1..] == restB;
  }

  /** A measured text may contain the separator: its byte length says where it ends. */
  lemma SameMeasured(a: string, b: string, restA: string, restB: string)
    requires Utf8Length(a) == Utf8Length(b) && a + [':'] + restA == b + [':'] + restB
    ensures a == b && restA == restB
  {
    var whole := a + [':'] + restA;
    assert whole[..|a|] == a && whole[..|b|] == b;
    if |a| < |b| {
      assert b[..|a|] == whole[..|a|];
      LongerIsLonger(b, |a|);
    } else if |b| < |a| {
      assert a[..|b|] == whole[..|b|];
      LongerIsLonger(a, |b|);
    }
    assert whole[|a| + 1..] == restA && whole[|b| + 1..] == restB;
  }

  /** Colon-free kinds decode, whatever characters the id contains. */
  lemma FreeKindsDecode(kind1: string, object1: string, id1: string, digest1: string,
                        kind2: string, object2: string, id2: string, digest2: string)
    requires Free(kind1, ':') && Free(object1, ':') && Free(kind2, ':') && Free(object2, ':')
    requires EventKey(kind1, object1, id1, digest1) == EventKey(kind2, object2, id2, digest2)
    ensures kind1 == kind2 && object1 == object2 && id1 == id2 && digest1 == digest2
  {
    var measured1, measured2 := id1 + [':'] + digest1, id2 + [':'] + digest2;
    var n1, n2 := Utf8Length(id1), Utf8Length(id2);
    var sized1, sized2 := Digits(n1) + [':'] + measured1, Digits(n2) + [':'] + measured2;
    var rest1, rest2 := object1 + [':'] + sized1, object2 + [':'] + sized2;
    assert EventKey(kind1, object1, id1, digest1)[|EVENT_V1|..] == kind1 + [':'] + rest1;
    assert EventKey(kind2, object2, id2, digest2)[|EVENT_V1|..] == kind2 + [':'] + rest2;
    SameParts(kind1, kind2, ':', rest1, rest2);
    SameParts(object1, object2, ':', sized1, sized2);
    CountFree(n1);
    CountFree(n2);
    SameParts(Digits(n1), Digits(n2), ':', measured1, measured2);
    DigitsRoundTrip(n1);
    DigitsRoundTrip(n2);
    SameMeasured(id1, id2, digest1, digest2);
  }

  /** The event kinds the bridge emits, and what each is about. */
  const KINDS: set<string> := {
    "identity.upsert", "stream.upsert", "stream.delete", "topic.upsert", "topic.delete", "message.upsert",
    "message.delete", "reaction.upsert", "reaction.delete", "read_state.set", "stream.notification.update",
    "topic.notification.update"}

  const OBJECT_KINDS: set<string> :=
    {"user", "channel", "conversation", "topic", "message", "reaction", "read-state"}

  lemma KindsAreFree(kind: string, objectKind: string)
    requires kind in KINDS && objectKind in OBJECT_KINDS
    ensures Free(kind, ':') && Free(objectKind, ':')
  {
  }

  /** An emitted event key determines its kind, object and digest, for every id. */
  lemma EventKeyDecodes(kind1: string, object1: string, id1: string, digest1: string,
                        kind2: string, object2: string, id2: string, digest2: string)
    requires kind1 in KINDS && object1 in OBJECT_KINDS && kind2 in KINDS && object2 in OBJECT_KINDS
    requires EventKey(kind1, object1, id1, digest1) == EventKey(kind2, object2, id2, digest2)
    ensures kind1 == kind2 && object1 == object2 && id1 == id2 && digest1 == digest2
  {
    KindsAreFree(kind1, object1);
    KindsAreFree(kind2, object2);
    FreeKindsDecode(kind1, object1, id1, digest1, kind2, object2, id2, digest2);
  }

  /** The two kinds as they stand in the key. */
  function Header(kind: string, objectKind: string): string {
    kind + [':'] + objectKind
  }

  lemma SameTail(a: string, b: string, tail: string)
    ensures a + tail == b + tail <==> a == b
  {
    if a + tail == b + tail {
      assert |a| == |b|;
      assert (a + tail)[..|a|] == a && (b + tail)[..|b|] == b;
    }
  }

  /** For one id and digest, keys agree exactly when the headers do. */
  lemma HeadersDecide(kind1: string, object1: string, kind2: string, object2: string, id: string, digest: string)
    ensures EventKey(kind1, object1, id, digest) == EventKey(kind2, object2, id, digest)
      <==> Header(kind1, object1) == Header(kind2, object2)
  {
    var tail := [':'] + (Digits(Utf8Length(id)) + [':'] + (id + [':'] + digest));
    assert EventKey(kind1, object1, id, digest) == EVENT_V1 + (Header(kind1, object1) + tail);
    assert EventKey(kind2, object2, id, digest) == EVENT_V1 + (Header(kind2, object2) + tail);
    SameTail(Header(kind1, object1), Header(kind2, object2), tail);
    assert (EVENT_V1 + (Header(kind1, object1) + tail))[|EVENT_V1|..] == Header(kind1, object1) + tail;
    assert (EVENT_V1 + (Header(kind2, object2) + tail))[|EVENT_V1|..] == Header(kind2, object2) + tail;
  }

  ghost predicate Shares(kind: string, objectKind: string, kind2: string, objectKind2: string) {
    && (kind != kind2 || objectKind != objectKind2)
    && forall id, digest :: EventKey(kind, objectKind, id, digest) == EventKey(kind2, objectKind2, id, digest)
  }

  lemma SharesHeader(kind: string, objectKind: string, kind2: string, objectKind2: string)
    requires kind != kind2 && Header(kind, objectKind) == Header(kind2, objectKind2)
    ensures Shares(kind, objectKind, kind2, objectKind2)
  {
    forall id, digest ensures EventKey(kind, objectKind, id, digest) == EventKey(kind2, objectKind2, id, digest) {
      HeadersDecide(kind, objectKind, kind2, objectKind2, id, digest);
    }
  }

  lemma ColonShared(kind: string, objectKind: string)
    requires !(Free(kind, ':') && Free(objectKind, ':'))
    ensures exists kind2, objectKind2 :: Shares(kind, objectKind, kind2, objectKind2)
  {
    if i :| 0 <= i < |kind| && kind[i] == ':' {
      assert kind == kind[..i] + [':'] + kind[i + 1..];
      SharesHeader(kind, objectKind, kind[..i], kind[i + 1..] + [':'] + objectKind);
    } else {
      var i :| 0 <= i < |objectKind| && objectKind[i] == ':';
      assert objectKind == objectKind[..i] + [':'] + objectKind[i + 1..];
      var kind2 := kind + [':'] + objectKind[..i];
      assert |kind2| != |kind|;
      SharesHeader(kind, objectKind, kind2, objectKind[i + 1..]);
    }
  }

  lemma HeaderFree(a: string, b: string, a2: string, b2: string)
    requires Free(a, ':') && Free(b, ':') && Header(a, b) == Header(a2, b2)
    ensures a == a2 && b == b2
  {
    var h := Header(a, b);
    assert forall i :: 0 <= i < |h| && h[i] == ':' ==> i == |a|;
    assert h[|a2|] == ':';
    assert h[..|a|] == a && Header(a2, b2)[..|a2|] == a2;
    assert h[|a| + 1..] == b && Header(a2, b2)[|a2| + 1..] == b2;
  }

  /** Exactly the kinds with a colon share all their keys with other kinds. */
  lemma KindsMustBeFree(kind: string, objectKind: string)
    ensures (exists kind2, objectKind2 :: Shares(kind, objectKind, kind2, objectKind2))
      <==> !(Free(kind, ':') && Free(objectKind, ':'))
  {
    if !(Free(kind, ':') && Free(objectKind, ':')) {
      ColonShared(kind, objectKind);
    } else {
      forall kind2, objectKind2 ensures !Shares(kind, objectKind, kind2, objectKind2) {
        HeadersDecide(kind, objectKind, kind2, objectKind2, "", "");
        if Header(kind, objectKind) == Header(kind2, objectKind2) { HeaderFree(kind, objectKind, kind2, objectKind2); }
        assert Shares(kind, objectKind, kind2, objectKind2) ==>
          EventKey(kind, objectKind, "", "") == EventKey(kind2, objectKind2, "", "");
      }
    }
  }
}
