/**
 Admission back-pressure of the history publisher
 (workspace_zulip_bridge/history_delivery.py, HistoryPublisher).

 A round is one call of the publisher; its inputs are what the clock, the store and the backend
 answered. Rounds never overlap, because the publisher holds its lock.
 */
module Admission {
  import opened Catalogs
  import HistoryTables
  import HistoryDelivery

  const COOLDOWN: int := 5
  const COOLDOWN_MAX: int := 60
  const PROBE_INTERVAL: real := 60.0

  /** The publisher's own fields. */
  datatype Settings = Settings(supported: bool, probeAfter: real, admissionAfter: real, probeDue: bool)

  /** How a batch may be claimed. */
  datatype Mode = ActiveOnly | PreferAdmission | ActiveFirst

  /** What the claim returned: nothing, an oversized scope, a new batch, or a registered one. */
  datatype Item = NoItem | Oversized | Unregistered | Registered

  datatype JobStatus = JobFailed | JobSuperseded | JobComplete | JobWorking

  /** A decoded receipt state; its uuid may be malformed. */
  datatype JobState = JobState(uuidValid: bool, status: JobStatus)

  datatype Response =
    | TransportError
    | Response(code: int, busy: bool, retryAfter: Option<int>, state: Option<JobState>)

  datatype Probe = Unreachable | Answered(schemaSupported: bool)

  datatype Round = Round(
    started: real, probe: Probe, chosen: real, item: Item, current: bool,
    sent: real, response: Response, received: real)

  /** What a round did, in order. */
  datatype Action =
    | Asked(at: real, answer: bool)  // whether the backend supports history imports
    | Claimed(mode: Mode, at: real)
    | Posted(at: real)
    | BusyUntil(deadline: real)
    | Polled(mode: Mode)       // a successful poll of a registered receipt
    | ReceiptEnded

  function RetryAfter(header: Option<int>): int {
    var delay := if header.Some? then header.value else COOLDOWN;
    if delay < 1 then 1 else if delay > COOLDOWN_MAX then COOLDOWN_MAX else delay
  }

  function ModeOf(p: Settings, now: real): Mode {
    if now < p.admissionAfter then ActiveOnly else if p.probeDue then PreferAdmission else ActiveFirst
  }

  // ------------------------------------------------------------------ one round

  predicate Probing(p: Settings, r: Round) {
    !p.supported && r.started >= p.probeAfter
  }

  function Probed(p: Settings, r: Round): Settings {
    if !Probing(p, r) then p
    else p.(probeAfter := r.started + PROBE_INTERVAL, supported := r.probe == Answered(true))
  }

  function Posting(p: Settings, r: Round): (Settings, seq<Action>) {
    var posted := [Posted(r.sent)];
    if r.response.Response? && r.response.code == 429 && r.response.busy then
      var deadline := r.received + RetryAfter(r.response.retryAfter) as real;
      (p.(admissionAfter := deadline), posted + [BusyUntil(deadline)])
    else (p, posted)
  }

  predicate Ends(state: JobState) {
    state.uuidValid && state.status != JobWorking
  }

  function Polling(p: Settings, r: Round, mode: Mode): (Settings, seq<Action>) {
    if r.response.TransportError? then (p, [])
    else if r.response.code == 404 || r.response.code == 409 then
      (p.(admissionAfter := 0.0, probeDue := true), [ReceiptEnded])
    else if !(200 <= r.response.code < 300) || r.response.state.None? then (p, [])
    else if Ends(r.response.state.value) then
      (p.(admissionAfter := 0.0, probeDue := true), [Polled(mode), ReceiptEnded])
    else (p.(probeDue := true), [Polled(mode)])
  }

  function Publishing(p: Settings, r: Round, mode: Mode): (Settings, seq<Action>) {
    if !r.current then (p, [])
    else match r.item
      case NoItem => (p, [])
      case Oversized => (p, [])
      case Unregistered => Posting(p, r)
      case Registered => Polling(p, r, mode)
  }

  function Asking(p: Settings, r: Round): seq<Action> {
    if Probing(p, r) then [Asked(r.started, r.probe == Answered(true))] else []
  }

  function Step(p: Settings, r: Round): (Settings, seq<Action>) {
    var probed := Probed(p, r);
    if !probed.supported then (probed, Asking(p, r)) else
    var mode := ModeOf(probed, r.chosen);
    var chosen := if mode == PreferAdmission then probed.(probeDue := false) else probed;
    var (after, actions) := Publishing(chosen, r, mode);
    (after, Asking(p, r) + ([Claimed(mode, r.chosen)] + actions))
  }

  /** The clock does not go back, and an active-only claim never returns an unregistered batch. */
  predicate Possible(p: Settings, now: real, r: Round) {
    && now <= r.started <= r.chosen <= r.sent <= r.received
    && (r.item == Unregistered ==> ModeOf(Probed(p, r), r.chosen) != ActiveOnly)
  }

  /** The store guarantees the latter: during a cooldown a claim without a receipt is dropped. */
  lemma ActiveOnlyClaimIsRegistered(db: HistoryTables.Db, bk: HistoryTables.BatchKey, lease: HistoryTables.Uuid)
    requires bk in db.batches && bk.scope in db.scopes
    ensures var item := HistoryDelivery.ClaimItem(db, bk, lease, false); item.Some? ==> item.value.receipt.Some?
  {
  }

  class Publisher {
    var supported: bool
    var probeAfter: real
    var admissionAfter: real
    var probeDue: bool

    constructor ()
      ensures Fields() == Settings(false, 0.0, 0.0, false)
    {
      supported, probeAfter, admissionAfter, probeDue := false, 0.0, 0.0, false;
    }

    function Fields(): Settings
      reads this
    {
      Settings(supported, probeAfter, admissionAfter, probeDue)
    }

    method RunOnce(r: Round) returns (actions: seq<Action>)
      modifies this
      ensures (Fields(), actions) == Step(old(Fields()), r)
    {
      actions := [];
      if !supported {
        if r.started < probeAfter { return; }
        probeAfter := r.started + PROBE_INTERVAL;
        supported := r.probe.Answered? && r.probe.schemaSupported;
        actions := [Asked(r.started, supported)];
        if !supported { return; }
      }
      var mode := ActiveFirst;
      if r.chosen < admissionAfter {
        mode := ActiveOnly;
      } else if probeDue {
        probeDue := false;
        mode := PreferAdmission;
      }
      var more := [];
      if r.current && (r.item == Unregistered || r.item == Registered) {
        more := Publish(r, mode);
      }
      actions := actions + ([Claimed(mode, r.chosen)] + more);
    }

    method Publish(r: Round, mode: Mode) returns (actions: seq<Action>)
      requires r.current && (r.item == Unregistered || r.item == Registered)
      modifies this`admissionAfter, this`probeDue
      ensures (Fields(), actions) == Publishing(old(Fields()), r, mode)
    {
      var registered := r.item == Registered;
      actions := if registered then [] else [Posted(r.sent)];
      if r.response.TransportError? { return; }
      if registered && r.response.code in {404, 409} {
        admissionAfter, probeDue := 0.0, true;
        actions := [ReceiptEnded];
        return;
      }
      if !registered && r.response.code == 429 && r.response.busy {
        admissionAfter := r.received + RetryAfter(r.response.retryAfter) as real;
        actions := actions + [BusyUntil(admissionAfter)];
        return;
      }
      if !(200 <= r.response.code < 300) || r.response.state.None? { return; }
      var state := r.response.state.value;
      if registered {
        probeDue := true;
        actions := [Polled(mode)];
        if state.uuidValid && state.status != JobWorking {
          admissionAfter := 0.0;
          actions := [Polled(mode), ReceiptEnded];
        }
      }
    }
  }

  // ------------------------------------------------------------------ all runs

  datatype World = World(fields: Settings, now: real, log: seq<Action>)

  function After(w: World, r: Round): World {
    var (fields, actions) := Step(w.fields, r);
    World(fields, r.received, w.log + actions)
  }

  predicate PossibleRun(w: World, rounds: seq<Round>)
    decreases |rounds|
  {
    rounds == [] || (Possible(w.fields, w.now, rounds[0]) && PossibleRun(After(w, rounds[0]), rounds[1..]))
  }

  function Rounds(w: World, rounds: seq<Round>): World
    decreases |rounds|
  {
    if rounds == [] then w else Rounds(After(w, rounds[0]), rounds[1..])
  }

  const START: World := World(Settings(false, 0.0, 0.0, false), 0.0, [])

  ghost predicate EndedBetween(log: seq<Action>, i: nat, j: nat) {
    exists m :: i < m < j && m < |log| && log[m] == ReceiptEnded
  }

  ghost predicate ProbedBetween(log: seq<Action>, i: nat, j: nat) {
    exists m :: i < m < j && m < |log| && log[m].Claimed? && log[m].mode == PreferAdmission
  }

  /** No admission before the deadline of a busy answer, unless a receipt ended in between. */
  ghost predicate CooldownKept(log: seq<Action>) {
    forall i, j :: 0 <= i < j < |log| && log[i].BusyUntil? && log[j].Posted? && !EndedBetween(log, i, j) ==>
      log[j].at >= log[i].deadline
  }

  /** Two successful polls, the later outside a cooldown, have an admission probe between them. */
  ghost predicate ProbesAlternate(log: seq<Action>) {
    forall i, j :: 0 <= i < j < |log| && log[i].Polled? && log[j].Polled? && log[j].mode != ActiveOnly ==>
      ProbedBetween(log, i, j)
  }

  /** A busy answer whose deadline `d` still holds at position `j`. */
  ghost predicate Holding(log: seq<Action>, j: nat, d: real) {
    exists i :: 0 <= i < j && i < |log| && log[i] == BusyUntil(d) && !EndedBetween(log, i, j)
  }

  /** A poll or an ended receipt not yet followed by an admission probe at position `j`. */
  ghost predicate Owed(log: seq<Action>, j: nat) {
    exists i :: 0 <= i < j && i < |log| && (log[i].Polled? || log[i] == ReceiptEnded) && !ProbedBetween(log, i, j)
  }

  /** Admissions are held back only before the deadline of a busy answer that still holds. */
  ghost predicate CooldownsCaused(log: seq<Action>) {
    forall j :: 0 <= j < |log| && log[j].Claimed? && log[j].mode == ActiveOnly ==>
      exists d :: log[j].at < d && Holding(log, j, d)
  }

  /** Active receipts give up their turn only once for each poll or end that came before. */
  ghost predicate ProbesCaused(log: seq<Action>) {
    forall j :: 0 <= j < |log| && log[j].Claimed? && log[j].mode == PreferAdmission ==> Owed(log, j)
  }

  /** The backend is asked at most once a minute, and nothing is claimed before it agreed. */
  ghost predicate AsksSpaced(log: seq<Action>) {
    && (forall i, j :: 0 <= i < j < |log| && log[i].Asked? && log[j].Asked? ==> log[i].at + 60.0 <= log[j].at)
    && (forall j :: 0 <= j < |log| && log[j].Claimed? ==> AgreedBefore(log, j))
  }

  ghost predicate AgreedBefore(log: seq<Action>, j: nat) {
    exists i :: 0 <= i < j && i < |log| && log[i].Asked? && log[i].answer
  }

  /** Where the fields come from. */
  ghost predicate Caused(w: World) {
    && CooldownsCaused(w.log) && ProbesCaused(w.log) && AsksSpaced(w.log) && 0.0 <= w.now
    && (w.fields.admissionAfter > 0.0 ==> Holding(w.log, |w.log|, w.fields.admissionAfter))
    && (w.fields.probeDue ==> Owed(w.log, |w.log|))
    && (w.fields.supported ==> AgreedBefore(w.log, |w.log|))
    && (forall i :: 0 <= i < |w.log| && w.log[i].Asked? ==> w.log[i].at + 60.0 <= w.fields.probeAfter)
  }

  lemma HoldingKept(log: seq<Action>, x: Action, j: nat, d: real)
    requires j <= |log|
    ensures Holding(log + [x], j, d) <==> Holding(log, j, d)
    ensures Holding(log, |log|, d) && x != ReceiptEnded ==> Holding(log + [x], |log| + 1, d)
    ensures x == BusyUntil(d) ==> Holding(log + [x], |log| + 1, d)
  {
    var more := log + [x];
    forall i | 0 <= i < j ensures more[i] == log[i] && (EndedBetween(more, i, j) <==> EndedBetween(log, i, j)) {
      BetweenKept(log, x, i, j);
    }
    if i :| 0 <= i < |log| && log[i] == BusyUntil(d) && !EndedBetween(log, i, |log|) {
      BetweenKept(log, x, i, |log|);
      assert more[i] == log[i];
    }
    if x == BusyUntil(d) { assert more[|log|] == x && !EndedBetween(more, |log|, |log| + 1); }
  }

  lemma OwedKept(log: seq<Action>, x: Action, j: nat)
    requires j <= |log|
    ensures Owed(log + [x], j) <==> Owed(log, j)
    ensures Owed(log, |log|) && !(x.Claimed? && x.mode == PreferAdmission) ==> Owed(log + [x], |log| + 1)
    ensures x.Polled? || x == ReceiptEnded ==> Owed(log + [x], |log| + 1)
  {
    var more := log + [x];
    forall i | 0 <= i < j ensures more[i] == log[i] && (ProbedBetween(more, i, j) <==> ProbedBetween(log, i, j)) {
      BetweenKept(log, x, i, j);
    }
    if i :| 0 <= i < |log| && (log[i].Polled? || log[i] == ReceiptEnded) && !ProbedBetween(log, i, |log|) {
      BetweenKept(log, x, i, |log|);
      assert more[i] == log[i];
    }
    if x.Polled? || x == ReceiptEnded { assert more[|log|] == x && !ProbedBetween(more, |log|, |log| + 1); }
  }

  lemma AgreedKept(log: seq<Action>, x: Action, j: nat)
    requires j <= |log|
    ensures AgreedBefore(log, j) ==> AgreedBefore(log + [x], j)
    ensures AgreedBefore(log, |log|) || (x.Asked? && x.answer) ==> AgreedBefore(log + [x], |log| + 1)
  {
    var more := log + [x];
    if i :| 0 <= i < j && log[i].Asked? && log[i].answer { assert more[i] == log[i]; }
    if i :| 0 <= i < |log| && log[i].Asked? && log[i].answer { assert more[i] == log[i]; }
    assert more[|log|] == x;
  }

  /** An action whose cause is in the fields before it, and whose trace is in the fields after it. */
  ghost predicate Founded(w: World, x: Action, next: World) {
    && next.log == w.log + [x] && w.now <= next.now
    && match x
       case Asked(at, answer) =>
         && w.fields.probeAfter <= at && !w.fields.supported
         && next.fields == w.fields.(probeAfter := at + 60.0, supported := answer)
       case Claimed(mode, at) =>
         && w.fields.supported && next.fields == w.fields.(probeDue := mode != PreferAdmission && w.fields.probeDue)
         && 0.0 <= at && (mode == ActiveOnly ==> at < w.fields.admissionAfter) && (mode == PreferAdmission ==> w.fields.probeDue)
       case Posted(at) => next.fields == w.fields
       case BusyUntil(deadline) => next.fields == w.fields.(admissionAfter := deadline)
       case Polled(mode) => next.fields == w.fields.(probeDue := true)
       case ReceiptEnded => next.fields == w.fields.(admissionAfter := 0.0, probeDue := true)
  }

  lemma CooldownCauseKept(w: World, x: Action, next: World)
    requires Caused(w) && Founded(w, x, next)
    ensures CooldownsCaused(next.log)
    ensures next.fields.admissionAfter > 0.0 ==> Holding(next.log, |next.log|, next.fields.admissionAfter)
  {
    forall j | 0 <= j < |next.log| && next.log[j].Claimed? && next.log[j].mode == ActiveOnly
      ensures exists d :: next.log[j].at < d && Holding(next.log, j, d)
    {
      if j < |w.log| {
        assert next.log[j] == w.log[j];
        var d :| w.log[j].at < d && Holding(w.log, j, d);
        HoldingKept(w.log, x, j, d);
      } else {
        HoldingKept(w.log, x, j, w.fields.admissionAfter);
      }
    }
    HoldingKept(w.log, x, |w.log|, next.fields.admissionAfter);
  }

  lemma ProbeCauseKept(w: World, x: Action, next: World)
    requires Caused(w) && Founded(w, x, next)
    ensures ProbesCaused(next.log) && (next.fields.probeDue ==> Owed(next.log, |next.log|))
  {
    forall j | 0 <= j < |next.log| && next.log[j].Claimed? && next.log[j].mode == PreferAdmission ensures Owed(next.log, j) {
      OwedKept(w.log, x, j);
    }
    OwedKept(w.log, x, |w.log|);
  }

  lemma AsksKept(w: World, x: Action, next: World)
    requires Caused(w) && Founded(w, x, next)
    ensures AsksSpaced(next.log) && (next.fields.supported ==> AgreedBefore(next.log, |next.log|))
    ensures forall i :: 0 <= i < |next.log| && next.log[i].Asked? ==> next.log[i].at + 60.0 <= next.fields.probeAfter
  {
    forall j | 0 <= j < |next.log| && next.log[j].Claimed? ensures AgreedBefore(next.log, j) {
      AgreedKept(w.log, x, j);
    }
    AgreedKept(w.log, x, |w.log|);
  }

  lemma CauseKept(w: World, x: Action, next: World)
    requires Caused(w) && Founded(w, x, next)
    ensures Caused(next)
  {
    CooldownCauseKept(w, x, next);
    ProbeCauseKept(w, x, next);
    AsksKept(w, x, next);
  }

  /** What the fields remember of the log: the last deadline and whether a probe is owed. */
  ghost predicate Remembers(w: World) {
    && CooldownKept(w.log) && ProbesAlternate(w.log)
    && (forall i :: 0 <= i < |w.log| && w.log[i].BusyUntil? && !EndedBetween(w.log, i, |w.log|) ==>
          w.log[i].deadline <= w.fields.admissionAfter || w.log[i].deadline <= w.now)
    && (forall i :: 0 <= i < |w.log| && w.log[i].Polled? && !ProbedBetween(w.log, i, |w.log|) ==> w.fields.probeDue)
  }

  /** An action keeps what the fields remember if it fits them. */
  ghost predicate Admissible(w: World, x: Action, next: World) {
    && next.log == w.log + [x] && w.now <= next.now
    && match x
       case Asked(_, _) => next.fields.admissionAfter == w.fields.admissionAfter && next.fields.probeDue == w.fields.probeDue
       case Claimed(mode, at) =>
         next.fields.admissionAfter == w.fields.admissionAfter && (mode == PreferAdmission || next.fields.probeDue == w.fields.probeDue)
       case Posted(at) => at >= w.fields.admissionAfter && at >= w.now && next.fields == w.fields
       case BusyUntil(deadline) =>
         next.fields == w.fields.(admissionAfter := deadline) && w.fields.admissionAfter <= next.now
       case Polled(mode) =>
         next.fields == w.fields.(probeDue := true) && (mode != ActiveOnly ==> !w.fields.probeDue)
       case ReceiptEnded => next.fields.probeDue
  }

  lemma BetweenKept(log: seq<Action>, x: Action, i: nat, j: nat)
    requires i < j <= |log|
    ensures EndedBetween(log + [x], i, j) <==> EndedBetween(log, i, j)
    ensures ProbedBetween(log + [x], i, j) <==> ProbedBetween(log, i, j)
    ensures EndedBetween(log + [x], i, |log| + 1) <==> EndedBetween(log, i, |log|) || x == ReceiptEnded
    ensures ProbedBetween(log + [x], i, |log| + 1) <==> ProbedBetween(log, i, |log|) || (x.Claimed? && x.mode == PreferAdmission)
  {
    var more := log + [x];
    assert more[|log|] == x && forall m :: 0 <= m < |log| ==> more[m] == log[m];
    if m :| i < m < j && log[m] == ReceiptEnded { assert more[m] == ReceiptEnded; }
    if m :| i < m < j && log[m].Claimed? && log[m].mode == PreferAdmission { assert more[m].Claimed?; }
    if m :| i < m < |log| && log[m] == ReceiptEnded { assert more[m] == ReceiptEnded; }
    if m :| i < m < |log| && log[m].Claimed? && log[m].mode == PreferAdmission { assert more[m].Claimed?; }
    assert x == ReceiptEnded ==> more[|log|] == ReceiptEnded;
    assert x.Claimed? ==> more[|log|].Claimed?;
  }

  lemma CooldownExtended(w: World, x: Action, next: World)
    requires Remembers(w) && Admissible(w, x, next)
    ensures CooldownKept(next.log)
  {
    var log := next.log;
    forall i, j | 0 <= i < j < |log| && log[i].BusyUntil? && log[j].Posted? && !EndedBetween(log, i, j)
      ensures log[j].at >= log[i].deadline
    {
      BetweenKept(w.log, x, i, j);
    }
  }

  lemma ProbesExtended(w: World, x: Action, next: World)
    requires Remembers(w) && Admissible(w, x, next)
    ensures ProbesAlternate(next.log)
  {
    var log := next.log;
    forall i, j | 0 <= i < j < |log| && log[i].Polled? && log[j].Polled? && log[j].mode != ActiveOnly
      ensures ProbedBetween(log, i, j)
    {
      BetweenKept(w.log, x, i, j);
    }
  }

  lemma ActionRemembered(w: World, x: Action, next: World)
    requires Remembers(w) && Admissible(w, x, next)
    ensures Remembers(next)
  {
    CooldownExtended(w, x, next);
    ProbesExtended(w, x, next);
    var log := next.log;
    forall i | 0 <= i < |log| && log[i].BusyUntil? && !EndedBetween(log, i, |log|)
      ensures log[i].deadline <= next.fields.admissionAfter || log[i].deadline <= next.now
    {
      if i < |w.log| { BetweenKept(w.log, x, i, |w.log|); }
    }
    forall i | 0 <= i < |log| && log[i].Polled? && !ProbedBetween(log, i, |log|) ensures next.fields.probeDue {
      if i < |w.log| { BetweenKept(w.log, x, i, |w.log|); }
    }
  }

  /** Time passing and the capability probe add nothing to the log. */
  lemma QuietRemembered(w: World, next: World)
    requires Remembers(w) && next.log == w.log && w.now <= next.now
    requires next.fields.admissionAfter == w.fields.admissionAfter && next.fields.probeDue == w.fields.probeDue
    ensures Remembers(next)
  {
  }

  lemma QuietCaused(w: World, next: World)
    requires Caused(w) && next.log == w.log && w.now <= next.now && next.fields == w.fields
    ensures Caused(next)
  {
  }

  lemma PostingRemembered(w: World, r: Round)
    requires Caused(w) && Remembers(w) && w.fields.admissionAfter <= r.sent && w.now <= r.sent <= r.received
    ensures var (fields, actions) := Posting(w.fields, r);
      Remembers(World(fields, r.received, w.log + actions)) && Caused(World(fields, r.received, w.log + actions))
  {
    var (fields, actions) := Posting(w.fields, r);
    var posted := World(w.fields, r.received, w.log + [Posted(r.sent)]);
    ActionRemembered(w, Posted(r.sent), posted);
    CauseKept(w, Posted(r.sent), posted);
    if |actions| == 2 {
      var done := World(fields, r.received, posted.log + [actions[1]]);
      ActionRemembered(posted, actions[1], done);
      CauseKept(posted, actions[1], done);
      assert done.log == w.log + actions;
    }
  }

  lemma PollingRemembered(w: World, r: Round, mode: Mode)
    requires Caused(w) && Remembers(w) && w.now <= r.received && (mode != ActiveOnly ==> !w.fields.probeDue)
    ensures var (fields, actions) := Polling(w.fields, r, mode);
      Remembers(World(fields, r.received, w.log + actions)) && Caused(World(fields, r.received, w.log + actions))
  {
    var (fields, actions) := Polling(w.fields, r, mode);
    var done := World(fields, r.received, w.log + actions);
    if actions == [] {
      assert done.log == w.log;
      QuietRemembered(w, done);
      QuietCaused(w, done);
    } else if |actions| == 1 {
      ActionRemembered(w, actions[0], done);
      CauseKept(w, actions[0], done);
    } else {
      var polled := World(w.fields.(probeDue := true), r.received, w.log + [Polled(mode)]);
      ActionRemembered(w, Polled(mode), polled);
      CauseKept(w, Polled(mode), polled);
      assert done.log == polled.log + [ReceiptEnded];
      ActionRemembered(polled, ReceiptEnded, done);
      CauseKept(polled, ReceiptEnded, done);
    }
  }

  lemma AskingRemembered(w: World, r: Round)
    requires Caused(w) && Remembers(w) && Possible(w.fields, w.now, r)
    ensures var ready := World(Probed(w.fields, r), r.chosen, w.log + Asking(w.fields, r)); Remembers(ready) && Caused(ready)
  {
    var ready := World(Probed(w.fields, r), r.chosen, w.log + Asking(w.fields, r));
    if Probing(w.fields, r) {
      ActionRemembered(w, Asking(w.fields, r)[0], ready);
      CauseKept(w, Asking(w.fields, r)[0], ready);
    } else {
      assert ready.log == w.log;
      QuietRemembered(w, ready);
      QuietCaused(w, ready);
    }
  }

  lemma ClaimingRemembered(ready: World, r: Round)
    requires Caused(ready) && Remembers(ready) && ready.fields.supported && ready.now == r.chosen
    ensures var mode := ModeOf(ready.fields, r.chosen);
      var chosen := if mode == PreferAdmission then ready.fields.(probeDue := false) else ready.fields;
      var claimed := World(chosen, r.chosen, ready.log + [Claimed(mode, r.chosen)]);
      Remembers(claimed) && Caused(claimed)
  {
    var mode := ModeOf(ready.fields, r.chosen);
    var chosen := if mode == PreferAdmission then ready.fields.(probeDue := false) else ready.fields;
    var claimed := World(chosen, r.chosen, ready.log + [Claimed(mode, r.chosen)]);
    ActionRemembered(ready, Claimed(mode, r.chosen), claimed);
    CauseKept(ready, Claimed(mode, r.chosen), claimed);
  }

  lemma PublishingRemembered(claimed: World, r: Round, mode: Mode)
    requires Caused(claimed) && Remembers(claimed) && claimed.now == r.chosen <= r.sent <= r.received
    requires r.item == Unregistered ==> claimed.fields.admissionAfter <= r.sent
    requires mode != ActiveOnly ==> !claimed.fields.probeDue
    ensures var (fields, actions) := Publishing(claimed.fields, r, mode);
      Remembers(World(fields, r.received, claimed.log + actions)) && Caused(World(fields, r.received, claimed.log + actions))
  {
    var (fields, actions) := Publishing(claimed.fields, r, mode);
    if r.current && r.item == Unregistered {
      PostingRemembered(claimed, r);
    } else if r.current && r.item == Registered {
      PollingRemembered(claimed, r, mode);
    } else {
      assert claimed.log + actions == claimed.log;
      QuietRemembered(claimed, World(fields, r.received, claimed.log + actions));
      QuietCaused(claimed, World(fields, r.received, claimed.log + actions));
    }
  }

  /** A round of a supported publisher, claim first. */
  lemma SupportedRound(w: World, r: Round, ready: World, claimed: World)
    requires ready == World(Probed(w.fields, r), r.chosen, w.log + Asking(w.fields, r)) && ready.fields.supported
    requires var mode := ModeOf(ready.fields, r.chosen);
      claimed == World(if mode == PreferAdmission then ready.fields.(probeDue := false) else ready.fields, r.chosen,
                       ready.log + [Claimed(mode, r.chosen)])
    ensures var (fields, actions) := Publishing(claimed.fields, r, ModeOf(ready.fields, r.chosen));
      After(w, r) == World(fields, r.received, claimed.log + actions)
  {
    var (fields, actions) := Publishing(claimed.fields, r, ModeOf(ready.fields, r.chosen));
    assert w.log + (Asking(w.fields, r) + ([Claimed(ModeOf(ready.fields, r.chosen), r.chosen)] + actions)) == claimed.log + actions;
  }

  ghost predicate Accounted(w: World) {
    Caused(w) && Remembers(w)
  }

  lemma SupportedRemembered(w: World, r: Round, ready: World)
    requires Accounted(ready) && Possible(w.fields, w.now, r)
    requires ready == World(Probed(w.fields, r), r.chosen, w.log + Asking(w.fields, r)) && ready.fields.supported
    ensures Accounted(After(w, r))
  {
    var mode := ModeOf(ready.fields, r.chosen);
    var claimed := World(if mode == PreferAdmission then ready.fields.(probeDue := false) else ready.fields, r.chosen,
                         ready.log + [Claimed(mode, r.chosen)]);
    ClaimingRemembered(ready, r);
    PublishingRemembered(claimed, r, mode);
    SupportedRound(w, r, ready, claimed);
  }

  lemma RoundRemembered(w: World, r: Round)
    requires Accounted(w) && Possible(w.fields, w.now, r)
    ensures Accounted(After(w, r))
  {
    var ready := World(Probed(w.fields, r), r.chosen, w.log + Asking(w.fields, r));
    AskingRemembered(w, r);
    if !ready.fields.supported {
      QuietRemembered(ready, After(w, r));
      QuietCaused(ready, After(w, r));
    } else {
      SupportedRemembered(w, r, ready);
    }
  }

  lemma {:induction false} RoundsRemembered(w: World, rounds: seq<Round>)
    requires Accounted(w) && PossibleRun(w, rounds)
    ensures Accounted(Rounds(w, rounds))
    decreases |rounds|
  {
    if rounds != [] {
      RoundRemembered(w, rounds[0]);
      RoundsRemembered(After(w, rounds[0]), rounds[1..]);
    }
  }

  /**
   Over every run of the publisher: after a busy answer nothing is admitted before its deadline
   unless an existing receipt ended meanwhile, and active receipts cannot monopolise the publisher.
   */
  lemma BackPressure(rounds: seq<Round>)
    requires PossibleRun(START, rounds)
    ensures CooldownKept(Rounds(START, rounds).log) && ProbesAlternate(Rounds(START, rounds).log)
  {
    RoundsRemembered(START, rounds);
  }

  /**
   And no more than that: admissions are held back only by a busy answer that still holds, active
   receipts lose their turn only to a probe that is owed, and the backend is asked at most once a
   minute until it agrees.
   */
  lemma NoUndueRestraint(rounds: seq<Round>)
    requires PossibleRun(START, rounds)
    ensures var log := Rounds(START, rounds).log; CooldownsCaused(log) && ProbesCaused(log) && AsksSpaced(log)
  {
    RoundsRemembered(START, rounds);
  }

  /** An admission is refused for a while exactly by the backend's busy answer. */
  lemma BusyIff(p: Settings, r: Round)
    ensures Posting(p, r).0 != p || |Posting(p, r).1| > 1 ==> r.response.Response? && r.response.code == 429 && r.response.busy
    ensures r.response.Response? && r.response.code == 429 && r.response.busy ==>
      |Posting(p, r).1| == 2 && Posting(p, r).1[1] == BusyUntil(Posting(p, r).0.admissionAfter)
  {
  }

  /** A receipt ends when the backend does not know it any more or reports it failed, superseded or complete. */
  lemma EndedIff(p: Settings, r: Round, mode: Mode)
    ensures ReceiptEnded in Polling(p, r, mode).1 <==>
      && r.response.Response?
      && (|| r.response.code in {404, 409}
          || (&& 200 <= r.response.code < 300 && r.response.state.Some? && r.response.state.value.uuidValid
              && r.response.state.value.status in {JobFailed, JobSuperseded, JobComplete}))
    ensures Polled(mode) in Polling(p, r, mode).1 <==>
      r.response.Response? && 200 <= r.response.code < 300 && r.response.state.Some?
  {
  }

  /** The delay the backend asks for is honoured between one and sixty seconds; five if it asks for none. */
  lemma CooldownLength(p: Settings, r: Round)
    requires Posting(p, r).1 != [Posted(r.sent)]
    ensures var delay := Posting(p, r).0.admissionAfter - r.received; var asked := r.response.retryAfter;
      && (asked.None? ==> delay == 5.0)
      && (asked.Some? && 1 <= asked.value <= 60 ==> delay == asked.value as real)
      && (asked.Some? && asked.value < 1 ==> delay == 1.0) && (asked.Some? && asked.value > 60 ==> delay == 60.0)
  {
  }
}
