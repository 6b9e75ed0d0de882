/**
 Ordered delivery of provider events with isolation of rejected records by bisection
 (workspace_zulip_bridge/service.py, _flush_provider_events_locked and
 _apply_provider_event_records).

 The provider API, the store and the account registry answer arbitrarily: each answer may depend
 on everything that happened before. `log` records the calls and the effects on the outbox.
 */
module ProviderDelivery {
  import opened Catalogs

  datatype Record = Record(id: nat, priority: nat)

  /** The flush that was asked for, or the live flush nested between its rejections. */
  datatype Lane = Outer | Nested

  /** `Failed` stands for transport errors, retryable errors and malformed responses. */
  datatype Outcome = Applied | Rejected | Failed

  /** What becomes of a fetched record before delivery. */
  datatype Preparation = Skipped | WithoutEvent | WithCommand | Unprepared

  datatype Entry =
    | Called(lane: Lane, batch: seq<Record>, outcome: Outcome)
    | Accepted(lane: Lane, record: Record)
    | Quarantined(lane: Lane, record: Record)
    | Completed(lane: Lane, record: Record)
    | Released(lane: Lane, records: seq<Record>)

  datatype World = World(
    api: (seq<Entry>, seq<Record>) -> Outcome,
    quarantine: (seq<Entry>, Record) -> bool,
    accept: (seq<Entry>, Record) -> bool,
    prepare: (seq<Entry>, Record) -> Preparation,
    outbox: seq<Entry> -> seq<Record>,
    livePending: seq<Entry> -> bool,
    liveLimit: nat)

  // ------------------------------------------------------------------ reading the log

  /**
   The API calls of a lane, and in order the records it settled either way, those accepted, those
   completed without an event and those released again.
   */
  datatype Tally = Tally(
    calls: nat, settled: seq<Record>, accepted: seq<Record>, completed: seq<Record>, released: seq<Record>)

  function Add(t: Tally, e: Entry, lane: Lane): Tally {
    if e.lane != lane then t
    else match e
      case Called(_, _, _) => t.(calls := t.calls + 1)
      case Accepted(_, record) => t.(settled := t.settled + [record], accepted := t.accepted + [record])
      case Quarantined(_, record) => t.(settled := t.settled + [record])
      case Completed(_, record) => t.(completed := t.completed + [record])
      case Released(_, records) => t.(released := t.released + records)
  }

  function TallyOf(log: seq<Entry>, lane: Lane): Tally {
    if log == [] then Tally(0, [], [], [], [])
    else Add(TallyOf(log[..|log| - 1], lane), log[|log| - 1], lane)
  }

  lemma TallyAppend(log: seq<Entry>, e: Entry, lane: Lane)
    ensures TallyOf(log + [e], lane) == Add(TallyOf(log, lane), e, lane)
  {
    assert (log + [e])[..|log|] == log;
  }

  /** Each quarantine answers the rejection of that record alone, each acceptance an applied call. */
  ghost predicate JustifiedAt(log: seq<Entry>, i: nat)
    requires i < |log|
  {
    match log[i]
    case Quarantined(lane, record) => i > 0 && log[i - 1] == Called(lane, [record], Rejected)
    case Accepted(lane, record) => AppliedBefore(log, lane, record, i)
    case _ => true
  }

  ghost predicate AppliedBefore(log: seq<Entry>, lane: Lane, record: Record, i: nat)
    requires i <= |log|
  {
    exists m, batch :: 0 <= m < i && log[m] == Called(lane, batch, Applied) && record in batch
  }

  /** Nested entries concern live records only. */
  ghost predicate LiveWhenNested(e: Entry) {
    e.lane == Nested && (e.Accepted? || e.Quarantined? || e.Completed?) ==> e.record.priority == 0
  }

  ghost predicate Justified(log: seq<Entry>) {
    forall i {:trigger JustifiedAt(log, i)} :: 0 <= i < |log| ==> JustifiedAt(log, i) && LiveWhenNested(log[i])
  }

  lemma JustifiedAppend(log: seq<Entry>, e: Entry)
    requires Justified(log) && LiveWhenNested(e)
    requires e.Quarantined? ==> log != [] && log[|log| - 1] == Called(e.lane, [e.record], Rejected)
    requires e.Accepted? ==> AppliedBefore(log, e.lane, e.record, |log|)
    ensures Justified(log + [e])
  {
    var more := log + [e];
    forall i | 0 <= i < |more| ensures JustifiedAt(more, i) && LiveWhenNested(more[i]) {
      if i < |log| {
        assert JustifiedAt(log, i) && more[i] == log[i];
        if log[i].Accepted? { StillApplied(log, e, log[i].lane, log[i].record, i); }
      } else if e.Accepted? {
        StillApplied(log, e, e.lane, e.record, i);
      }
    }
  }

  lemma StillApplied(log: seq<Entry>, e: Entry, lane: Lane, record: Record, i: nat)
    requires i <= |log| && AppliedBefore(log, lane, record, i)
    ensures AppliedBefore(log + [e], lane, record, i)
  {
    var m, batch :| 0 <= m < i && log[m] == Called(lane, batch, Applied) && record in batch;
    assert (log + [e])[m] == log[m];
  }

  // ------------------------------------------------------------------ what a delivery achieves

  /**
   Success settles exactly the given records in order and counts the acceptances; failure has
   settled the first ones. Either way at most 2n - 1 calls were made.
   */
  ghost predicate Delivered(before: Tally, records: seq<Record>, r: Result<nat>, after: Tally) {
    && after.calls <= before.calls + 2 * |records| - 1
    && after.completed == before.completed && after.released == before.released
    && before.settled <= after.settled && before.accepted <= after.accepted
    && match r
       case Ok(count) => after.settled == before.settled + records && |after.accepted| == |before.accepted| + count
       case Err(_) => after.settled <= before.settled + records
  }

  /** Accepting settles all records of an applied call, or the first ones when the store fails. */
  ghost predicate Stored(before: Tally, records: seq<Record>, stored: bool, after: Tally) {
    && after.calls == before.calls && after.completed == before.completed && after.released == before.released
    && before.settled <= after.settled && before.accepted <= after.accepted
    && if stored then after.settled == before.settled + records && after.accepted == before.accepted + records
       else after.settled <= before.settled + records
  }

  lemma StoredPrefix(before: Tally, records: seq<Record>, i: nat, after: Tally)
    requires i <= |records| && Stored(before, records[..i], true, after)
    ensures Stored(before, records, false, after)
  {
    assert records == records[..i] + records[i..];
    assert before.settled + records == before.settled + records[..i] + records[i..];
  }

  /** The same for a batch whose own call is already counted. */
  ghost predicate SettledAfterCall(before: Tally, records: seq<Record>, r: Result<nat>, after: Tally) {
    && after.calls <= before.calls + 2 * |records| - 2
    && after.completed == before.completed && after.released == before.released
    && before.settled <= after.settled && before.accepted <= after.accepted
    && match r
       case Ok(count) => after.settled == before.settled + records && |after.accepted| == |before.accepted| + count
       case Err(_) => after.settled <= before.settled + records
  }

  ghost predicate AcceptsGood(before: Tally, records: seq<Record>, bad: set<Record>, r: Result<nat>, after: Tally) {
    r.Ok? && after.accepted == before.accepted + Good(records, bad)
  }

  lemma AfterCall(before: Tally, records: seq<Record>, r: Result<nat>, after: Tally)
    requires SettledAfterCall(before.(calls := before.calls + 1), records, r, after)
    ensures Delivered(before, records, r, after)
  {
  }

  lemma FirstHalf(before: Tally, first: seq<Record>, second: seq<Record>, left: Result<nat>, after: Tally)
    requires left.Err? && second != [] && Delivered(before, first, left, after)
    ensures SettledAfterCall(before, first + second, left, after)
  {
    assert before.settled + first <= before.settled + (first + second);
  }

  lemma BothHalves(before: Tally, first: seq<Record>, second: seq<Record>, left: Result<nat>, halfway: Tally,
                   right: Result<nat>, after: Tally)
    requires left.Ok? && Delivered(before, first, left, halfway) && Delivered(halfway, second, right, after)
    ensures SettledAfterCall(before, first + second, if right.Err? then right else Ok(left.value + right.value), after)
  {
    assert before.settled + first + second == before.settled + (first + second);
  }

  lemma GoodHalves(before: Tally, first: seq<Record>, second: seq<Record>, bad: set<Record>, left: Result<nat>, halfway: Tally,
                   right: Result<nat>, after: Tally)
    requires AcceptsGood(before, first, bad, left, halfway) && AcceptsGood(halfway, second, bad, right, after)
    ensures AcceptsGood(before, first + second, bad, Ok(left.value + right.value), after)
  {
    GoodSplit(first, second, bad);
  }

  ghost function AnswerFor(batch: seq<Record>, bad: set<Record>): Outcome {
    if exists r :: r in batch && r in bad then Rejected else Applied
  }

  /** An API that rejects exactly the batches containing a bad record, and a working store. */
  ghost predicate RejectsExactly(w: World, bad: set<Record>) {
    && (forall log, batch :: w.api(log, batch) == AnswerFor(batch, bad))
    && (forall log, record :: w.quarantine(log, record)) && (forall log, record :: w.accept(log, record))
    && (forall log, record :: w.prepare(log, record) != Unprepared)
  }

  function Good(records: seq<Record>, bad: set<Record>): seq<Record> {
    if records == [] then []
    else Good(records[..|records| - 1], bad) + if records[|records| - 1] in bad then [] else [records[|records| - 1]]
  }

  lemma {:induction false} GoodSplit(a: seq<Record>, b: seq<Record>, bad: set<Record>)
    ensures Good(a + b, bad) == Good(a, bad) + Good(b, bad)
  {
    if b == [] {
      assert a + b == a;
    } else {
      GoodSplit(a, b[..|b| - 1], bad);
      assert (a + b)[..|a + b| - 1] == a + b[..|b| - 1];
    }
  }

  lemma {:induction false} AllGood(records: seq<Record>, bad: set<Record>)
    requires forall r :: r in records ==> r !in bad
    ensures Good(records, bad) == records
  {
    if records != [] { AllGood(records[..|records| - 1], bad); }
  }

  function Within(records: seq<Record>, lowest: nat, highest: nat): seq<Record> {
    if records == [] then [] else
    var last := records[|records| - 1];
    Within(records[..|records| - 1], lowest, highest) + if lowest <= last.priority <= highest then [last] else []
  }

  /** The pending records of a priority range, oldest first. */
  function Fetch(w: World, log: seq<Entry>, lowest: nat, highest: nat, limit: nat): seq<Record> {
    var all := Within(w.outbox(log), lowest, highest);
    if |all| > limit then all[..limit] else all
  }

  lemma {:induction false} WithinRange(records: seq<Record>, lowest: nat, highest: nat)
    ensures forall r :: r in Within(records, lowest, highest) ==> lowest <= r.priority <= highest
  {
    if records != [] { WithinRange(records[..|records| - 1], lowest, highest); }
  }

  /** The fetched records that are prepared in a given way. */
  function Chosen(w: World, log: seq<Entry>, records: seq<Record>, kind: Preparation): seq<Record> {
    if records == [] then [] else
    var last := records[|records| - 1];
    Chosen(w, log, records[..|records| - 1], kind) + if w.prepare(log, last) == kind then [last] else []
  }

  lemma {:induction false} ChosenFrom(w: World, log: seq<Entry>, records: seq<Record>, kind: Preparation)
    ensures forall r :: r in Chosen(w, log, records, kind) ==> r in records
  {
    if records != [] { ChosenFrom(w, log, records[..|records| - 1], kind); }
  }

  /** Preparing some record fails. */
  predicate Stops(w: World, log: seq<Entry>, records: seq<Record>) {
    exists i :: 0 <= i < |records| && w.prepare(log, records[i]) == Unprepared
  }

  /** The records marked as submitting: all that are not skipped, up to the first that fails. */
  function Submitted(w: World, log: seq<Entry>, records: seq<Record>): seq<Record> {
    if records == [] then [] else
    var init, last := records[..|records| - 1], records[|records| - 1];
    if Stops(w, log, init) || w.prepare(log, last) == Skipped then Submitted(w, log, init)
    else Submitted(w, log, init) + [last]
  }

  lemma {:induction false} SubmittedStops(w: World, log: seq<Entry>, records: seq<Record>, i: nat)
    requires i < |records| && w.prepare(log, records[i]) == Unprepared
    ensures Submitted(w, log, records) == Submitted(w, log, records[..i + 1])
    decreases |records|
  {
    var init := records[..|records| - 1];
    if i < |init| {
      assert init[i] == records[i];
      SubmittedStops(w, log, init, i);
      assert init[..i + 1] == records[..i + 1];
    } else {
      assert records[..i + 1] == records;
    }
  }

  /** When nothing fails, the submitted records are those with a command and those without an event. */
  lemma {:induction false} SubmittedSplits(w: World, log: seq<Entry>, records: seq<Record>)
    requires !Stops(w, log, records)
    ensures multiset(Submitted(w, log, records)) ==
      multiset(Chosen(w, log, records, WithCommand)) + multiset(Chosen(w, log, records, WithoutEvent))
  {
    if records != [] {
      var init, last := records[..|records| - 1], records[|records| - 1];
      assert forall i :: 0 <= i < |init| ==> init[i] == records[i];
      assert !Stops(w, log, init);
      SubmittedSplits(w, log, init);
      assert w.prepare(log, records[|records| - 1]) != Unprepared;
    }
  }

  /** A record is submitted exactly when it is reached and not skipped. */
  lemma {:induction false} SubmittedExact(w: World, log: seq<Entry>, records: seq<Record>, r: Record)
    ensures r in Submitted(w, log, records) <==> exists i :: 0 <= i < |records| && Reached(w, log, records, r, i)
  {
    if records != [] {
      var init, last := records[..|records| - 1], records[|records| - 1];
      SubmittedExact(w, log, init, r);
      forall i | 0 <= i < |init| ensures Reached(w, log, records, r, i) <==> Reached(w, log, init, r, i) {
        assert records[..i] == init[..i] && records[i] == init[i];
      }
      assert records[..|init|] == init;
      assert Reached(w, log, records, r, |init|) <==> last == r && w.prepare(log, last) != Skipped && !Stops(w, log, init);
    }
  }

  predicate Reached(w: World, log: seq<Entry>, records: seq<Record>, r: Record, i: nat)
    requires i < |records|
  {
    records[i] == r && w.prepare(log, r) != Skipped && !Stops(w, log, records[..i])
  }

  lemma {:induction false} WithinExact(records: seq<Record>, lowest: nat, highest: nat, r: Record)
    ensures r in Within(records, lowest, highest) <==> r in records && lowest <= r.priority <= highest
    ensures |Within(records, lowest, highest)| <= |records|
  {
    if records != [] {
      WithinExact(records[..|records| - 1], lowest, highest, r);
      assert records == records[..|records| - 1] + [records[|records| - 1]];
    }
  }

  /** A flush fetches the oldest records of its range: all of them, or as many as its limit. */
  lemma FetchExact(w: World, log: seq<Entry>, lowest: nat, highest: nat, limit: nat)
    ensures var all, fetched := Within(w.outbox(log), lowest, highest), Fetch(w, log, lowest, highest, limit);
      && fetched <= all && |fetched| == (if |all| <= limit then |all| else limit)
      && forall r :: r in fetched ==> r in w.outbox(log) && lowest <= r.priority <= highest
  {
    var fetched := Fetch(w, log, lowest, highest, limit);
    forall r | r in fetched ensures r in w.outbox(log) && lowest <= r.priority <= highest {
      WithinExact(w.outbox(log), lowest, highest, r);
    }
  }

  /**
   Success settles every record with a command and completes every one without an event. A failure
   while events are unsettled releases everything that was submitted; one while storing a completion
   comes after all events were settled and releases nothing.
   */
  ghost predicate Flushed(before: Tally, events: seq<Record>, completed: seq<Record>, submitted: seq<Record>,
                          r: Result<nat>, after: Tally)
  {
    match r
    case Ok(count) =>
      && after.settled == before.settled + events && after.completed == before.completed + completed
      && after.released == before.released && count == |completed| + |after.accepted| - |before.accepted|
    case Err(_) =>
      || (after.settled <= before.settled + events && after.completed == before.completed
          && after.released == before.released + submitted)
      || (after.settled == before.settled + events && after.released == before.released
          && before.completed <= after.completed < before.completed + completed)
  }

  function Other(lane: Lane): Lane {
    if lane == Outer then Nested else Outer
  }

  // ------------------------------------------------------------------ the service

  class Service {
    const world: World
    var log: seq<Entry>

    constructor (world: World)
      ensures this.world == world && log == []
    {
      this.world := world;
      log := [];
    }

    /** Nested deliveries carry live records only. */
    ghost predicate Eligible(lane: Lane, records: seq<Record>) {
      lane == Nested ==> forall r :: r in records ==> r.priority == 0
    }

    method Note(e: Entry)
      requires Justified(log) && LiveWhenNested(e)
      requires e.Quarantined? ==> log != [] && log[|log| - 1] == Called(e.lane, [e.record], Rejected)
      requires e.Accepted? ==> AppliedBefore(log, e.lane, e.record, |log|)
      modifies this`log
      ensures log == old(log) + [e] && Justified(log)
      ensures forall lane :: TallyOf(log, lane) == Add(TallyOf(old(log), lane), e, lane)
    {
      JustifiedAppend(log, e);
      TallyAppend(log, e, Outer);
      TallyAppend(log, e, Nested);
      log := log + [e];
    }

    /** The records of an applied call are committed in order, until the store fails. */
    method Accept(lane: Lane, records: seq<Record>) returns (stored: bool)
      requires Justified(log) && Eligible(lane, records)
      requires log != [] && log[|log| - 1] == Called(lane, records, Applied)
      modifies this`log
      ensures Justified(log) && old(log) <= log
      ensures TallyOf(log, Other(lane)) == TallyOf(old(log), Other(lane))
      ensures Stored(TallyOf(old(log), lane), records, stored, TallyOf(log, lane))
      ensures (forall log, record :: world.accept(log, record)) ==> stored
    {
      ghost var call := |log| - 1;
      ghost var before := TallyOf(log, lane);
      for i := 0 to |records|
        invariant Justified(log) && old(log) <= log && log[call] == Called(lane, records, Applied)
        invariant TallyOf(log, Other(lane)) == TallyOf(old(log), Other(lane))
        invariant Stored(before, records[..i], true, TallyOf(log, lane))
      {
        assert records[..i + 1] == records[..i] + [records[i]];
        if !world.accept(log, records[i]) {
          StoredPrefix(before, records, i, TallyOf(log, lane));
          return false;
        }
        assert AppliedBefore(log, lane, records[i], |log|);
        Note(Accepted(lane, records[i]));
      }
      assert records[..|records|] == records;
      stored := true;
    }

    /**
     Apply in order, isolating only permanently rejected records. With `live`, ready live records
     are flushed before each half of a rejected batch.
     */
    method Apply(lane: Lane, records: seq<Record>, live: bool, ghost bad: set<Record>) returns (r: Result<nat>)
      requires records != [] && Justified(log) && Eligible(lane, records) && (live ==> lane == Outer)
      modifies this`log
      ensures Justified(log) && old(log) <= log
      ensures Delivered(TallyOf(old(log), lane), records, r, TallyOf(log, lane))
      ensures !live ==> TallyOf(log, Other(lane)) == TallyOf(old(log), Other(lane))
      ensures RejectsExactly(world, bad) ==> AcceptsGood(TallyOf(old(log), lane), records, bad, r, TallyOf(log, lane))
      decreases live, 0, |records|, 2
    {
      var outcome := world.api(log, records);
      Note(Called(lane, records, outcome));
      r := Settle(lane, records, outcome, live, bad);
      AfterCall(TallyOf(old(log), lane), records, r, TallyOf(log, lane));
    }

    /** What follows the answer to the call for a whole batch. */
    method Settle(lane: Lane, records: seq<Record>, outcome: Outcome, live: bool, ghost bad: set<Record>) returns (r: Result<nat>)
      requires records != [] && Justified(log) && Eligible(lane, records) && (live ==> lane == Outer)
      requires log != [] && log[|log| - 1] == Called(lane, records, outcome)
      modifies this`log
      ensures Justified(log) && old(log) <= log
      ensures SettledAfterCall(TallyOf(old(log), lane), records, r, TallyOf(log, lane))
      ensures !live ==> TallyOf(log, Other(lane)) == TallyOf(old(log), Other(lane))
      ensures RejectsExactly(world, bad) && outcome == AnswerFor(records, bad) ==>
        AcceptsGood(TallyOf(old(log), lane), records, bad, r, TallyOf(log, lane))
      decreases live, 0, |records|, 1
    {
      if outcome == Failed {
        r := Err("retryable");
      } else if outcome == Applied {
        r := Commit(lane, records, bad);
      } else if |records| == 1 {
        r := Isolate(lane, records[0], bad);
        assert records == [records[0]];
      } else {
        r := Bisect(lane, records, live, bad);
      }
    }

    method Commit(lane: Lane, records: seq<Record>, ghost bad: set<Record>) returns (r: Result<nat>)
      requires records != [] && Justified(log) && Eligible(lane, records)
      requires log != [] && log[|log| - 1] == Called(lane, records, Applied)
      modifies this`log
      ensures Justified(log) && old(log) <= log
      ensures TallyOf(log, Other(lane)) == TallyOf(old(log), Other(lane))
      ensures SettledAfterCall(TallyOf(old(log), lane), records, r, TallyOf(log, lane))
      ensures RejectsExactly(world, bad) && (forall x :: x in records ==> x !in bad) ==>
        AcceptsGood(TallyOf(old(log), lane), records, bad, r, TallyOf(log, lane))
    {
      var stored := Accept(lane, records);
      r := if stored then Ok(|records|) else Err("result_not_stored");
      if forall x :: x in records ==> x !in bad { AllGood(records, bad); }
    }

    /** A record that was rejected alone is quarantined, or the delivery stops. */
    method Isolate(lane: Lane, record: Record, ghost bad: set<Record>) returns (r: Result<nat>)
      requires Justified(log) && Eligible(lane, [record])
      requires log != [] && log[|log| - 1] == Called(lane, [record], Rejected)
      modifies this`log
      ensures Justified(log) && old(log) <= log
      ensures TallyOf(log, Other(lane)) == TallyOf(old(log), Other(lane))
      ensures SettledAfterCall(TallyOf(old(log), lane), [record], r, TallyOf(log, lane))
      ensures RejectsExactly(world, bad) && record in bad ==>
        AcceptsGood(TallyOf(old(log), lane), [record], bad, r, TallyOf(log, lane))
    {
      r := Err("not_quarantined");
      if world.quarantine(log, record) {
        assert record in [record];
        Note(Quarantined(lane, record));
        r := Ok(0);
      }
    }

    /** Deliver the two halves of a rejected batch, the first before the second. */
    method Bisect(lane: Lane, records: seq<Record>, live: bool, ghost bad: set<Record>) returns (r: Result<nat>)
      requires |records| > 1 && Justified(log) && Eligible(lane, records) && (live ==> lane == Outer)
      modifies this`log
      ensures Justified(log) && old(log) <= log
      ensures SettledAfterCall(TallyOf(old(log), lane), records, r, TallyOf(log, lane))
      ensures !live ==> TallyOf(log, Other(lane)) == TallyOf(old(log), Other(lane))
      ensures RejectsExactly(world, bad) ==> AcceptsGood(TallyOf(old(log), lane), records, bad, r, TallyOf(log, lane))
      decreases live, 0, |records|, 0
    {
      ghost var before := TallyOf(log, lane);
      var midpoint := |records| / 2;
      var first, second := records[..midpoint], records[midpoint..];
      assert records == first + second;
      var left := ApplyAfterLive(lane, first, live, bad);
      ghost var halfway := TallyOf(log, lane);
      if left.Err? {
        FirstHalf(before, first, second, left, halfway);
        return left;
      }
      var right := ApplyAfterLive(lane, second, live, bad);
      r := if right.Err? then right else Ok(left.value + right.value);
      BothHalves(before, first, second, left, halfway, right, TallyOf(log, lane));
      if RejectsExactly(world, bad) { GoodHalves(before, first, second, bad, left, halfway, right, TallyOf(log, lane)); }
    }

    method ApplyAfterLive(lane: Lane, records: seq<Record>, live: bool, ghost bad: set<Record>) returns (r: Result<nat>)
      requires records != [] && Justified(log) && Eligible(lane, records) && (live ==> lane == Outer)
      modifies this`log
      ensures Justified(log) && old(log) <= log
      ensures Delivered(TallyOf(old(log), lane), records, r, TallyOf(log, lane))
      ensures !live ==> TallyOf(log, Other(lane)) == TallyOf(old(log), Other(lane))
      ensures RejectsExactly(world, bad) ==> AcceptsGood(TallyOf(old(log), lane), records, bad, r, TallyOf(log, lane))
      decreases live, 0, |records|, 3
    {
      if live && world.livePending(log) {
        var flushed := Flush(Nested, 0, 0, world.liveLimit, false, bad);
        if flushed.Err? { return flushed; }
      }
      r := Apply(lane, records, live, bad);
    }

    /**
     Fetch, prepare and deliver the pending records of a priority range: every record marked as
     submitting is settled, completed or released, unless storing a completion fails.
     */
    method Flush(lane: Lane, lowest: nat, highest: nat, limit: nat, live: bool, ghost bad: set<Record>) returns (r: Result<nat>)
      requires Justified(log) && (live ==> lane == Outer) && (lane == Nested ==> highest == 0)
      modifies this`log
      ensures Justified(log) && old(log) <= log
      ensures !live ==> TallyOf(log, Other(lane)) == TallyOf(old(log), Other(lane))
      ensures RejectsExactly(world, bad) ==> r.Ok?
      ensures var records := Fetch(world, old(log), lowest, highest, limit);
        Flushed(TallyOf(old(log), lane), Chosen(world, old(log), records, WithCommand),
                Chosen(world, old(log), records, WithoutEvent), Submitted(world, old(log), records), r, TallyOf(log, lane))
      decreases live, 1
    {
      var records := Fetch(world, log, lowest, highest, limit);
      WithinRange(world.outbox(log), lowest, highest);
      var ok, events, completed, submitting := Prepare(records);
      if ok {
        ChosenFrom(world, log, records, WithCommand);
        ChosenFrom(world, log, records, WithoutEvent);
        r := Deliver(lane, events, completed, submitting, live, bad);
      } else {
        Note(Released(lane, submitting));
        r := Err("unprepared");
      }
    }

    /** Sort the fetched records into those with a command and those that need no event. */
    method Prepare(records: seq<Record>) returns (ok: bool, events: seq<Record>, completed: seq<Record>, submitting: seq<Record>)
      ensures ok <==> !Stops(world, log, records)
      ensures submitting == Submitted(world, log, records)
      ensures ok ==> events == Chosen(world, log, records, WithCommand) && completed == Chosen(world, log, records, WithoutEvent)
    {
      ok, events, completed, submitting := true, [], [], [];
      for i := 0 to |records|
        invariant ok && events == Chosen(world, log, records[..i], WithCommand)
        invariant completed == Chosen(world, log, records[..i], WithoutEvent)
        invariant !Stops(world, log, records[..i]) && submitting == Submitted(world, log, records[..i])
      {
        assert records[..i + 1][..i] == records[..i];
        var prepared := world.prepare(log, records[i]);
        if prepared == Skipped { continue; }
        submitting := submitting + [records[i]];
        if prepared == Unprepared {
          SubmittedStops(world, log, records, i);
          ok := false;
          return;
        }
        if prepared == WithoutEvent {
          completed := completed + [records[i]];
        } else {
          events := events + [records[i]];
        }
      }
      assert records[..|records|] == records;
    }

    method Deliver(lane: Lane, events: seq<Record>, completed: seq<Record>, submitting: seq<Record>, live: bool, ghost bad: set<Record>)
      returns (r: Result<nat>)
      requires Justified(log) && (live ==> lane == Outer) && Eligible(lane, events) && Eligible(lane, completed)
      modifies this`log
      ensures Justified(log) && old(log) <= log
      ensures !live ==> TallyOf(log, Other(lane)) == TallyOf(old(log), Other(lane))
      ensures RejectsExactly(world, bad) ==> r.Ok?
      ensures Flushed(TallyOf(old(log), lane), events, completed, submitting, r, TallyOf(log, lane))
      decreases live, 0, |events|, 4
    {
      var committed := 0;
      if events != [] {
        r := Apply(lane, events, live, bad);
        if r.Err? {
          Note(Released(lane, submitting));
          return;
        }
        committed := r.value;
      }
      r := Ok(|completed| + committed);
      var stored := Finish(lane, completed);
      if !stored { r := Err("result_not_stored"); }
    }

    /** Commit the records that need no event, in order, until the store fails. */
    method Finish(lane: Lane, completed: seq<Record>) returns (stored: bool)
      requires Justified(log) && Eligible(lane, completed)
      modifies this`log
      ensures Justified(log) && old(log) <= log
      ensures TallyOf(log, Other(lane)) == TallyOf(old(log), Other(lane))
      ensures var before, after := TallyOf(old(log), lane), TallyOf(log, lane);
        && after == before.(completed := after.completed)
        && if stored then after.completed == before.completed + completed
           else before.completed <= after.completed < before.completed + completed
      ensures (forall log, record :: world.accept(log, record)) ==> stored
    {
      ghost var before := TallyOf(log, lane);
      for i := 0 to |completed|
        invariant Justified(log) && old(log) <= log
        invariant TallyOf(log, Other(lane)) == TallyOf(old(log), Other(lane))
        invariant TallyOf(log, lane) == before.(completed := before.completed + completed[..i])
      {
        if !world.accept(log, completed[i]) {
          ProperPrefix(before.completed, completed, i);
          return false;
        }
        Note(Completed(lane, completed[i]));
        assert completed[..i + 1] == completed[..i] + [completed[i]];
      }
      assert completed[..|completed|] == completed;
      stored := true;
    }
  }

  lemma ProperPrefix(before: seq<Record>, records: seq<Record>, i: nat)
    requires i < |records|
    ensures before <= before + records[..i] < before + records
  {
    assert before + records == before + records[..i] + records[i..];
  }
}
