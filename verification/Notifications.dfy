/**
 Convergence of topic notification settings (workspace_zulip_bridge/converter.py,
 _user_topic_records). Event times are in microseconds, provider timestamps in whole seconds.
 */
module Notifications {
  import opened Catalogs

  datatype Mode = Default | Mute | Unmute | Follow

  function ModeOf(policy: int): Option<Mode> {
    if policy == 0 then Some(Default) else if policy == 1 then Some(Mute)
    else if policy == 2 then Some(Unmute) else if policy == 3 then Some(Follow) else None
  }

  /** The policy number the bridge sends for a mode. */
  function PolicyOf(mode: Mode): int {
    match mode
    case Default => 0
    case Mute => 1
    case Unmute => 2
    case Follow => 3
  }

  /** What the bridge reads back is what it sends, and no other number means anything. */
  lemma ModeRoundTrip(policy: int, mode: Mode)
    ensures ModeOf(policy) == Some(mode) <==> policy == PolicyOf(mode)
  {
  }

  datatype Event = Event(policy: int, time: int, lastUpdated: Option<int>)

  /** What is stored with the topic mapping; older rows may lack the provider timestamp. */
  datatype Metadata = Metadata(mode: Option<Mode>, provider: Option<int>, updatedAt: Option<int>)

  /** A timestamp in whole seconds, truncated toward zero. */
  function Seconds(time: int): int {
    if time >= 0 then time / 1_000_000 else -((-time) / 1_000_000)
  }

  function ProviderTime(e: Event): int {
    if e.lastUpdated.Some? then e.lastUpdated.value else Seconds(e.time)
  }

  /** The provider timestamp a row stands for. */
  function Known(m: Metadata): Option<int> {
    if m.provider.Some? then m.provider
    else if m.updatedAt.Some? then Some(Seconds(m.updatedAt.value)) else None
  }

  predicate Stale(m: Metadata, mode: Mode, provider: int) {
    || (Known(m).Some? && Known(m).value > provider)
    || (Known(m) == Some(provider) && m.mode == Some(mode))
  }

  function LogicalTime(m: Metadata, time: int): int {
    if m.updatedAt.Some? && time <= m.updatedAt.value then m.updatedAt.value + 1 else time
  }

  /** The row after an event, and the update time emitted with it, if any. */
  function Step(m: Metadata, e: Event): (Metadata, Option<int>) {
    var mode := ModeOf(e.policy);
    if mode.None? || Stale(m, mode.value, ProviderTime(e)) then (m, None)
    else
      var at := LogicalTime(m, e.time);
      (Metadata(mode, Some(ProviderTime(e)), Some(at)), Some(at))
  }

  class Topic {
    var metadata: Metadata

    /** Apply one provider event; an unknown policy is an error and changes nothing. */
    method Apply(e: Event) returns (r: Result<Option<int>>)
      modifies this
      ensures r.Err? <==> ModeOf(e.policy).None?
      ensures metadata == Step(old(metadata), e).0
      ensures r.Ok? ==> r.value == Step(old(metadata), e).1
    {
      var mode := ModeOf(e.policy);
      if mode.None? { return Err("invalid_notification_setting"); }
      var provider := if e.lastUpdated.Some? then e.lastUpdated.value else Seconds(e.time);
      var previous := metadata.provider;
      if previous.None? && metadata.updatedAt.Some? {
        previous := Some(Seconds(metadata.updatedAt.value));
      }
      if (previous.Some? && previous.value > provider) || (previous == Some(provider) && metadata.mode == mode) {
        return Ok(None);
      }
      var time := e.time;
      if metadata.updatedAt.Some? && time <= metadata.updatedAt.value {
        time := metadata.updatedAt.value + 1;
      }
      metadata := Metadata(mode, Some(provider), Some(time));
      return Ok(Some(time));
    }
  }

  // ------------------------------------------------------------------ whole histories

  function Run(m: Metadata, events: seq<Event>): Metadata {
    if events == [] then m else Step(Run(m, events[..|events| - 1]), events[|events| - 1]).0
  }

  /** The update times emitted along the way. */
  function Emitted(m: Metadata, events: seq<Event>): seq<int> {
    if events == [] then [] else
    var out := Step(Run(m, events[..|events| - 1]), events[|events| - 1]).1;
    Emitted(m, events[..|events| - 1]) + if out.Some? then [out.value] else []
  }

  predicate Valid(e: Event) {
    ModeOf(e.policy).Some?
  }

  /** The last-arriving event among those with the greatest provider timestamp. */
  predicate Winner(events: seq<Event>, i: nat)
    requires i < |events|
  {
    && Valid(events[i])
    && (forall j :: 0 <= j < |events| && Valid(events[j]) ==> ProviderTime(events[j]) <= ProviderTime(events[i]))
    && (forall j :: i < j < |events| && Valid(events[j]) ==> ProviderTime(events[j]) < ProviderTime(events[i]))
  }

  /** No event reached what was already stored. */
  predicate AllOlder(m: Metadata, events: seq<Event>) {
    forall j :: 0 <= j < |events| && Valid(events[j]) ==> Known(m).Some? && ProviderTime(events[j]) < Known(m).value
  }

  /** The stored setting is decided by the greatest timestamp, ties by arrival. */
  ghost predicate Converged(m: Metadata, events: seq<Event>, now: Metadata) {
    if AllOlder(m, events) then now == m
    else exists i :: 0 <= i < |events| && Decides(m, events, now, i)
  }

  ghost predicate Decides(m: Metadata, events: seq<Event>, now: Metadata, i: nat)
    requires i < |events|
  {
    && Winner(events, i) && now.mode == ModeOf(events[i].policy) && Known(now) == Some(ProviderTime(events[i]))
    && (Known(m).Some? ==> Known(m).value <= ProviderTime(events[i]))
  }

  lemma OlderChangesNothing(m: Metadata, init: seq<Event>, e: Event, now: Metadata)
    requires Converged(m, init, now)
    requires !Valid(e) || (Known(now).Some? && ProviderTime(e) < Known(now).value)
    ensures Converged(m, init + [e], now)
  {
    var events := init + [e];
    if AllOlder(m, init) {
      assert forall j :: 0 <= j < |init| ==> events[j] == init[j];
      assert AllOlder(m, events);
    } else {
      var i :| 0 <= i < |init| && Decides(m, init, now, i);
      assert events[i] == init[i];
      assert Winner(events, i);
      assert Decides(m, events, now, i);
      if AllOlder(m, events) { assert Valid(events[i]); }
    }
  }

  lemma NewestDecides(m: Metadata, init: seq<Event>, e: Event, before: Metadata, now: Metadata)
    requires Converged(m, init, before) && Valid(e)
    requires Known(before).Some? ==> Known(before).value <= ProviderTime(e)
    requires now.mode == ModeOf(e.policy) && Known(now) == Some(ProviderTime(e))
    ensures Converged(m, init + [e], now)
  {
    var events := init + [e];
    assert events[|init|] == e;
    if AllOlder(m, init) {
      assert forall j :: 0 <= j < |init| && Valid(init[j]) ==> ProviderTime(init[j]) < ProviderTime(e);
    } else {
      var i :| 0 <= i < |init| && Decides(m, init, before, i);
    }
    assert Winner(events, |init|);
    assert Decides(m, events, now, |init|);
    assert !AllOlder(m, events);
  }

  /**
   For every history of events and every row to start from, the stored mode is that of the
   last-arriving event among those with the greatest provider timestamp, unless all are older.
   */
  lemma {:induction false} SettingConverges(m: Metadata, events: seq<Event>)
    ensures Converged(m, events, Run(m, events))
  {
    if events != [] {
      var init, e := events[..|events| - 1], events[|events| - 1];
      var before := Run(m, init);
      SettingConverges(m, init);
      assert events == init + [e];
      if !Valid(e) || (Known(before).Some? && ProviderTime(e) < Known(before).value) {
        OlderChangesNothing(m, init, e, before);
      } else {
        NewestDecides(m, init, e, before, Run(m, events));
      }
    }
  }

  predicate Rising(times: seq<int>) {
    forall i, j :: 0 <= i < j < |times| ==> times[i] < times[j]
  }

  /** Emitted update times strictly increase, even when event times do not. */
  lemma {:induction false} EmittedTimesRise(m: Metadata, events: seq<Event>)
    ensures Rising(Emitted(m, events))
    ensures Emitted(m, events) != [] ==>
      Run(m, events).updatedAt == Some(Emitted(m, events)[|Emitted(m, events)| - 1])
    ensures Emitted(m, events) == [] ==> Run(m, events) == m
    ensures m.updatedAt.Some? && Emitted(m, events) != [] ==> m.updatedAt.value < Emitted(m, events)[0]
  {
    if events != [] {
      EmittedTimesRise(m, events[..|events| - 1]);
    }
  }

  /**
   An event is taken exactly when its policy is known and it is newer than the stored provider time,
   or as new with another mode. Rows written before that time was stored stand for their update time.
   */
  lemma TakenIff(m: Metadata, e: Event)
    ensures Step(m, e).1.Some? <==>
      && 0 <= e.policy <= 3
      && var provider := if e.lastUpdated.Some? then e.lastUpdated.value else Seconds(e.time);
         || (m.provider.None? && m.updatedAt.None?)
         || (m.provider.Some? && (m.provider.value < provider || (m.provider.value == provider && m.mode != ModeOf(e.policy))))
         || (m.provider.None? && m.updatedAt.Some?
             && (Seconds(m.updatedAt.value) < provider || (Seconds(m.updatedAt.value) == provider && m.mode != ModeOf(e.policy))))
  {
  }

  /** A taken event is stamped with its own time, or one microsecond after the last stamp if it is not later. */
  lemma StampIs(m: Metadata, e: Event)
    requires Step(m, e).1.Some?
    ensures var (now, at) := Step(m, e);
      && now.updatedAt == at && now.mode == ModeOf(e.policy)
      && now.provider == Some(if e.lastUpdated.Some? then e.lastUpdated.value else Seconds(e.time))
      && (m.updatedAt.None? || m.updatedAt.value < e.time ==> at == Some(e.time))
      && (m.updatedAt.Some? && e.time <= m.updatedAt.value ==> at == Some(m.updatedAt.value + 1))
  {
  }

  /** Whole seconds, truncated toward zero. */
  lemma SecondsTruncate(time: int)
    ensures time >= 0 ==> Seconds(time) * 1_000_000 <= time < (Seconds(time) + 1) * 1_000_000
    ensures time < 0 ==> (Seconds(time) - 1) * 1_000_000 < time <= Seconds(time) * 1_000_000
  {
  }

  /** An event older than what is stored emits nothing and changes nothing. */
  lemma StaleIsSilent(m: Metadata, events: seq<Event>, e: Event)
    requires var now := Run(m, events); Known(now).Some? && ProviderTime(e) < Known(now).value
    ensures Run(m, events + [e]) == Run(m, events) && Emitted(m, events + [e]) == Emitted(m, events)
  {
    assert (events + [e])[..|events|] == events;
  }
}
