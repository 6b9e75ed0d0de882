/**
 Sending operations whose outcome may stay unknown, and reconciling them
 (workspace_zulip_bridge/scheduler.py and the operation columns it drives in storage.py).

 One operation is followed through its columns. Workers act on what they read when they claimed
 it, and may act late; a lease only says who may claim next.
 */
module Scheduler {
  import opened Catalogs

  const DELAYS: seq<int> := [5, 15, 30]
  const MAX_AUTO_RESENDS: nat := 1

  datatype Phase = Pending | Running | Uncertain | Committed | Rejected | Expired | Cancelled

  datatype Operation = Operation(
    state: Phase, attempted: bool, checks: nat, resends: nat, manual: bool, due: int, lease: Option<nat>,
    since: int,     // history variable: when the operation last became uncertain
    reaped: bool)   // history variable: whether a reap made it so

  predicate Terminal(p: Phase) {
    p in {Committed, Rejected, Expired, Cancelled}
  }

  /** How an operation ends. */
  type Ending = p: Phase | Terminal(p) witness Committed

  const NEW: Operation := Operation(Pending, false, 0, 0, false, 0, None, 0, false)

  // ------------------------------------------------------------------ store transitions

  function Claim(op: Operation, lease: nat): Operation {
    op.(state := Running, lease := Some(lease))
  }

  function RecordAttempt(op: Operation): Operation {
    if op.state == Running then op.(attempted := true) else op
  }

  /** The statement has no guard on the state. */
  function MarkUncertain(op: Operation, now: int): Operation {
    op.(state := Uncertain, checks := 0, due := now + DELAYS[0], lease := None, since := now, reaped := false)
  }

  /** Neither has this one. */
  function Retry(op: Operation): Operation {
    op.(state := Pending, lease := None)
  }

  function Complete(op: Operation, outcome: Ending): Operation {
    if op.state == Running || op.state == Uncertain then op.(state := outcome, lease := None) else op
  }

  /** A worker died: with any evidence of a send the operation must be reconciled. */
  function Reap(op: Operation, now: int): Operation {
    if op.state != Running then op
    else if op.attempted then
      op.(state := Uncertain, checks := 0, due := now, lease := None, since := now, reaped := true)
    else op.(state := Pending, lease := None)
  }

  function Defer(op: Operation, now: int): Operation {
    if op.state == Uncertain then op.(due := now + 5, lease := None) else op
  }

  function ScheduleCheck(op: Operation, now: int, gap: int): Operation {
    if op.state == Uncertain then op.(checks := op.checks + 1, due := now + gap, lease := None) else op
  }

  function ScheduleResend(op: Operation): Operation {
    if op.state == Uncertain && op.resends == 0 then op.(state := Pending, resends := op.resends + 1, lease := None) else op
  }

  function RequireManual(op: Operation): Operation {
    if op.state == Uncertain then op.(state := Rejected, manual := true, lease := None) else op
  }

  // ------------------------------------------------------------------ workers

  /** What a claim returned. */
  datatype Item = Item(lease: nat, sending: bool, attempted: bool, checks: nat, resends: nat)

  datatype SendOutcome = Ambiguous | RetryableError | Finished(ending: Ending)

  datatype Evidence = Match | NoMatch | ProviderRetryable | ProviderFailed

  function Sent(op: Operation, outcome: SendOutcome, now: int): Operation {
    match outcome
    case Ambiguous => MarkUncertain(op, now)
    case RetryableError => Retry(op)
    case Finished(end) => Complete(op, end)
  }

  /** One reconciliation with the evidence found. */
  function Checked(op: Operation, item: Item, evidence: Evidence, now: int): Operation {
    if !item.attempted then RequireManual(op)
    else match evidence
      case ProviderRetryable => Defer(op, now)
      case ProviderFailed => RequireManual(op)
      case Match => Complete(op, Committed)
      case NoMatch =>
        var next := item.checks + 1;
        if next < |DELAYS| then ScheduleCheck(op, now, DELAYS[next] - DELAYS[next - 1])
        else if item.resends < MAX_AUTO_RESENDS then ScheduleResend(op)
        else RequireManual(op)
  }

  predicate Checkable(op: Operation, now: int) {
    op.state == Uncertain && !op.manual && op.due <= now
  }

  class Worker {
    var op: Operation

    /** Claim and send once; `correlated` says whether the adapter prepared a traceable send. */
    method RunOnce(lease: nat, correlated: bool, outcome: SendOutcome, now: int) returns (worked: bool)
      modifies this
      ensures worked <==> old(op).state == Pending
      ensures op == if !worked then old(op) else
        Sent(if correlated then RecordAttempt(Claim(old(op), lease)) else Claim(old(op), lease), outcome, now)
    {
      worked := op.state == Pending;
      if worked {
        op := Claim(op, lease);
        if correlated { op := RecordAttempt(op); }
        match outcome
        case Ambiguous => op := MarkUncertain(op, now);
        case RetryableError => op := Retry(op);
        case Finished(end) => op := Complete(op, end);
      }
    }

    /** Claim an uncertain operation and reconcile it once. */
    method ReconcileOnce(lease: nat, evidence: Evidence, now: int) returns (worked: bool)
      modifies this
      ensures worked <==> Checkable(old(op), now)
      ensures op == if !worked then old(op) else
        Checked(old(op).(lease := Some(lease)), Item(lease, false, old(op).attempted, old(op).checks, old(op).resends), evidence, now)
    {
      worked := Checkable(op, now);
      if !worked { return; }
      op := op.(lease := Some(lease));
      if !op.attempted {
        op := RequireManual(op);
      } else if evidence == ProviderRetryable {
        op := Defer(op, now);
      } else if evidence == ProviderFailed {
        op := RequireManual(op);
      } else if evidence == Match {
        op := Complete(op, Committed);
      } else {
        var next := op.checks + 1;
        if next < |DELAYS| {
          op := ScheduleCheck(op, now, DELAYS[next] - DELAYS[next - 1]);
        } else if op.resends < MAX_AUTO_RESENDS {
          op := ScheduleResend(op);
        } else {
          op := RequireManual(op);
        }
      }
    }

    /** The provider echoed the send's local id. */
    method ReconcileLocalEcho() returns (found: bool)
      modifies this
      ensures found <==> old(op).state == Uncertain
      ensures op == if found then Complete(old(op), Committed) else old(op)
    {
      found := op.state == Uncertain;
      if found { op := Complete(op, Committed); }
    }
  }

  // ------------------------------------------------------------------ runs

  /**
   The operation, the claims whose workers have not finished, and what is known of the sends made
   under each claim, named by its lease. All but the first four fields are history variables.
   */
  datatype World = World(
    op: Operation, items: set<Item>, leases: nat, now: int,
    open: set<nat>,       // sends begun and not known to have succeeded or failed
    reported: set<nat>,   // sends whose outcome the adapter reported as unknown
    vanished: set<nat>)   // sends whose claim was reaped and that were never answered

  /** The sends of an operation whose outcome is unknown. */
  function AmbiguousSends(w: World): set<nat> {
    w.reported + w.vanished
  }

  datatype Event =
    | ClaimSend
    | Attempt(item: Item)
    | Send(item: Item, outcome: SendOutcome)
    | ReapExpired
    | ClaimCheck
    | Check(item: Item, evidence: Evidence)
    | Echo
    | Wait(seconds: nat)

  function ItemOf(w: World, sending: bool): Item {
    Item(w.leases, sending, w.op.attempted, w.op.checks, w.op.resends)
  }

  /** Only a send that was begun can have an unknown outcome. */
  predicate Answers(w: World, item: Item, outcome: SendOutcome) {
    item in w.items && item.sending && (outcome == Ambiguous ==> item.lease in w.open)
  }

  /** A worker finishes with the outcome of its send. */
  function AnswerSend(w: World, item: Item, outcome: SendOutcome): World {
    var unknown := outcome == Ambiguous;
    World(Sent(w.op, outcome, w.now), w.items - {item}, w.leases, w.now,
          if unknown then w.open else w.open - {item.lease},
          if unknown then w.reported + {item.lease} else w.reported - {item.lease},
          w.vanished - {item.lease})
  }

  /** Reaping the claim of a send that has begun leaves that send unanswered. */
  function ReapClaim(w: World): World {
    var gone := w.op.state == Running && w.op.lease.Some? && w.op.lease.value in w.open;
    w.(op := Reap(w.op, w.now), vanished := if gone then w.vanished + {w.op.lease.value} else w.vanished)
  }

  function Next(w: World, e: Event): World {
    match e
    case ClaimSend =>
      if w.op.state != Pending then w
      else w.(op := Claim(w.op, w.leases), items := w.items + {ItemOf(w, true)}, leases := w.leases + 1)
    case Attempt(item) =>
      // The worker goes on to send whether or not its statement found the row running.
      if item in w.items && item.sending then w.(op := RecordAttempt(w.op), open := w.open + {item.lease}) else w
    case Send(item, outcome) => if Answers(w, item, outcome) then AnswerSend(w, item, outcome) else w
    case ReapExpired => ReapClaim(w)
    case ClaimCheck =>
      if !Checkable(w.op, w.now) then w
      else w.(op := w.op.(lease := Some(w.leases)), items := w.items + {ItemOf(w, false)}, leases := w.leases + 1)
    case Check(item, evidence) =>
      if item in w.items && !item.sending
      then w.(op := Checked(w.op, item, evidence, w.now), items := w.items - {item}) else w
    case Echo => w.(op := if w.op.state == Uncertain then Complete(w.op, Committed) else w.op)
    case Wait(seconds) => w.(now := w.now + seconds)
  }

  function Run(w: World, events: seq<Event>): World
    decreases |events|
  {
    if events == [] then w else Run(Next(w, events[0]), events[1..])
  }

  lemma {:induction false} RunAppend(w: World, events: seq<Event>, more: seq<Event>)
    ensures Run(w, events + more) == Run(Run(w, events), more)
    ensures Unclaimed(w, events + more) == Unclaimed(w, events) + Unclaimed(Run(w, events), more)
    decreases |events|
  {
    if events == [] {
      assert events + more == more;
    } else {
      RunAppend(Next(w, events[0]), events[1..], more);
      assert (events + more)[1..] == events[1..] + more;
    }
  }

  const START: World := World(NEW, {}, 0, 0, {}, {}, {})

  // ------------------------------------------------------------------ ambiguous sends are bounded

  /** The worker of `item` no longer holds the claim. */
  predicate Lost(w: World, item: Item) {
    item in w.items && item.sending && w.op.lease != Some(item.lease)
  }

  /**
   A worker that has lost its claim without having begun a send begins one after all, or puts the
   row, which has moved on, back into the ordinary queue. Both statements could test the claim.
   */
  predicate ActsUnclaimed(w: World, e: Event) {
    match e
    case Attempt(item) => Lost(w, item) && item.lease !in w.open
    case Send(item, outcome) =>
      outcome == RetryableError && Lost(w, item) && item.lease !in w.open && w.op.state != Pending
    case _ => false
  }

  /** How often this happens along a run. */
  function Unclaimed(w: World, events: seq<Event>): nat
    decreases |events|
  {
    if events == [] then 0
    else (if ActsUnclaimed(w, events[0]) then 1 else 0) + Unclaimed(Next(w, events[0]), events[1..])
  }

  /** The open sends other than the one the current claim is for. */
  function Others(w: World): set<nat> {
    if w.op.state == Running && w.op.lease.Some? then w.open - {w.op.lease.value} else w.open
  }

  /** Leases are fresh, a running row has its holder, and a recorded attempt is evidence. */
  ghost predicate Held(w: World) {
    && AmbiguousSends(w) <= w.open
    && w.op.resends <= MAX_AUTO_RESENDS
    && (forall l :: l in w.open ==> l < w.leases) && (forall i :: i in w.items ==> i.lease < w.leases)
    && (w.op.state == Running ==> w.op.lease.Some?)
    && (w.op.state == Running && w.op.lease.value in w.open ==> w.op.attempted)
    && (forall i :: i in w.items && i.sending && w.op.lease == Some(i.lease) ==> w.op.state == Running)
    && (w.op.lease.Some? ==> w.op.lease.value < w.leases)
  }

  /** Every open send but one is paid for by a resend or by an unclaimed act. */
  ghost predicate Paid(w: World, unclaimed: nat) {
    |Others(w)| <= w.op.resends + unclaimed + if w.op.state == Pending || w.op.state == Running then 0 else 1
  }

  lemma AnswerHeld(w: World, item: Item, outcome: SendOutcome)
    requires Held(w) && Answers(w, item, outcome)
    ensures Held(AnswerSend(w, item, outcome))
  {
  }

  lemma CheckHeld(w: World, item: Item, evidence: Evidence)
    requires Held(w)
    ensures Held(Next(w, Check(item, evidence)))
  {
    CheckedCases(w.op, item, evidence, w.now);
  }

  lemma HeldKept(w: World, e: Event)
    requires Held(w)
    ensures Held(Next(w, e))
  {
    match e
    case Send(item, outcome) => if Answers(w, item, outcome) { AnswerHeld(w, item, outcome); }
    case Check(item, evidence) => CheckHeld(w, item, evidence);
    case _ =>
  }

  lemma SetSizes(s: set<nat>, x: nat)
    ensures |s - {x}| <= |s| <= |s - {x}| + 1
    ensures x in s ==> |s - {x}| == |s| - 1
    ensures x !in s ==> s - {x} == s
    ensures |s + {x}| <= |s| + 1
  {
    if x in s { assert s + {x} == s; }
  }

  lemma Subset(small: set<nat>, large: set<nat>)
    requires small <= large
    ensures |small| <= |large|
  {
    assert large == small + (large - small);
  }

  lemma OthersSize(w: World)
    ensures |Others(w)| <= |w.open| <= |Others(w)| + 1
    ensures w.op.state != Running ==> Others(w) == w.open
  {
    if w.op.lease.Some? { SetSizes(w.open, w.op.lease.value); }
  }

  lemma AttemptPaid(w: World, item: Item, c: nat)
    requires Held(w) && Paid(w, c)
    ensures Paid(Next(w, Attempt(item)), c + if ActsUnclaimed(w, Attempt(item)) then 1 else 0)
  {
    var t := Next(w, Attempt(item));
    if item in w.items && item.sending {
      if w.op.lease == Some(item.lease) {
        assert Others(t) == Others(w);
      } else if item.lease in w.open {
        assert t.open == w.open;
      } else {
        SetSizes(Others(w), item.lease);
        Subset(Others(t), Others(w) + {item.lease});
      }
    }
  }

  lemma AmbiguousPaid(w: World, item: Item, c: nat)
    requires Held(w) && Paid(w, c) && Answers(w, item, Ambiguous)
    ensures Paid(AnswerSend(w, item, Ambiguous), c)
  {
    OthersSize(w);
    OthersSize(AnswerSend(w, item, Ambiguous));
  }

  lemma RetryPaid(w: World, item: Item, c: nat)
    requires Held(w) && Paid(w, c) && Answers(w, item, RetryableError)
    ensures Paid(AnswerSend(w, item, RetryableError), c + if ActsUnclaimed(w, Send(item, RetryableError)) then 1 else 0)
  {
    OthersSize(w);
    OthersSize(AnswerSend(w, item, RetryableError));
    SetSizes(w.open, item.lease);
  }

  lemma FinishedPaid(w: World, item: Item, end: Ending, c: nat)
    requires Held(w) && Paid(w, c) && Answers(w, item, Finished(end))
    ensures Paid(AnswerSend(w, item, Finished(end)), c)
  {
    OthersSize(w);
    OthersSize(AnswerSend(w, item, Finished(end)));
    SetSizes(w.open, item.lease);
  }

  lemma ReapPaid(w: World, c: nat)
    requires Held(w) && Paid(w, c)
    ensures Paid(ReapClaim(w), c)
  {
    OthersSize(w);
    OthersSize(ReapClaim(w));
    if w.op.lease.Some? { SetSizes(w.open, w.op.lease.value); }
  }

  lemma ClaimPaid(w: World, c: nat)
    requires Held(w) && Paid(w, c)
    ensures Paid(Next(w, ClaimSend), c)
  {
    SetSizes(w.open, w.leases);
  }

  /** What a reconciliation can do to a row. */
  lemma CheckedCases(op: Operation, item: Item, evidence: Evidence, now: int)
    ensures var d := Checked(op, item, evidence, now);
      || d == op
      || (Terminal(d.state) && d.resends == op.resends && d.lease.None?)
      || (op.state == Uncertain && d.state == Uncertain && d.resends == op.resends && d.lease.None?)
      || (op.state == Uncertain && d.state == Pending && d.resends == op.resends + 1 <= MAX_AUTO_RESENDS && d.lease.None?)
  {
  }

  lemma CheckPaid(w: World, item: Item, evidence: Evidence, c: nat)
    requires Held(w) && Paid(w, c)
    ensures Paid(Next(w, Check(item, evidence)), c)
  {
    CheckedCases(w.op, item, evidence, w.now);
    OthersSize(w);
    OthersSize(Next(w, Check(item, evidence)));
  }

  lemma QuietPaid(w: World, e: Event, c: nat)
    requires Held(w) && Paid(w, c) && (e.ClaimCheck? || e.Echo? || e.Wait?)
    ensures Paid(Next(w, e), c)
  {
  }

  ghost predicate Counted(w: World, unclaimed: nat) {
    Held(w) && Paid(w, unclaimed)
  }

  /** The accounts change by one at most, and only for an unclaimed act. */
  lemma StepCounted(w: World, e: Event, c: nat)
    requires Counted(w, c)
    ensures Counted(Next(w, e), c + if ActsUnclaimed(w, e) then 1 else 0)
  {
    HeldKept(w, e);
    match e
    case Attempt(item) => AttemptPaid(w, item, c);
    case Send(item, outcome) =>
      if Answers(w, item, outcome) {
        match outcome
        case Ambiguous => AmbiguousPaid(w, item, c);
        case RetryableError => RetryPaid(w, item, c);
        case Finished(end) => FinishedPaid(w, item, end, c);
      }
    case ReapExpired => ReapPaid(w, c);
    case ClaimSend => ClaimPaid(w, c);
    case Check(item, evidence) => CheckPaid(w, item, evidence, c);
    case _ => QuietPaid(w, e, c);
  }

  lemma {:induction false} RunCounted(w: World, events: seq<Event>, c: nat)
    requires Counted(w, c)
    ensures Counted(Run(w, events), c + Unclaimed(w, events))
    decreases |events|
  {
    if events != [] {
      StepCounted(w, events[0], c);
      RunCounted(Next(w, events[0]), events[1..], c + if ActsUnclaimed(w, events[0]) then 1 else 0);
    }
  }

  /**
   In every run at all, however late workers act and whatever the provider answers, at most
   1 + MAX_AUTO_RESENDS sends of an operation are ambiguous, plus one for each unclaimed act.
   */
  lemma AmbiguousSendsBounded(events: seq<Event>)
    ensures |AmbiguousSends(Run(START, events))| <= 1 + MAX_AUTO_RESENDS + Unclaimed(START, events)
  {
    RunCounted(START, events, 0);
    var w := Run(START, events);
    Subset(AmbiguousSends(w), w.open);
    OthersSize(w);
  }

  // ------------------------------------------------------------------ and the bound is exact

  /** `n` workers claimed one after the other, stalled before recording an attempt, and were reaped. */
  function Stalled(n: nat): set<Item> {
    set i | 0 <= i < n :: Item(i, true, false, 0, 0)
  }

  lemma Run1(w: World, a: Event)
    ensures Run(w, [a]) == Next(w, a) && Unclaimed(w, [a]) == if ActsUnclaimed(w, a) then 1 else 0
  {
    assert [a][1..] == [];
    assert Run(Next(w, a), []) == Next(w, a);
  }

  lemma Run3(w: World, a: Event, b: Event, c: Event)
    ensures Run(w, [a, b, c]) == Next(Next(Next(w, a), b), c)
    ensures !ActsUnclaimed(w, a) && !ActsUnclaimed(Next(w, a), b) && !ActsUnclaimed(Next(Next(w, a), b), c) ==>
      Unclaimed(w, [a, b, c]) == 0
  {
    Run1(Next(Next(w, a), b), c);
    assert [b, c][1..] == [c] && [a, b, c][1..] == [b, c];
    assert Run(Next(w, a), [b, c]) == Run(Next(Next(w, a), b), [c]);
    assert Unclaimed(Next(w, a), [b, c]) ==
      (if ActsUnclaimed(Next(w, a), b) then 1 else 0) + Unclaimed(Next(Next(w, a), b), [c]);
  }

  lemma {:induction false} StallWorkers(n: nat) returns (events: seq<Event>)
    ensures Run(START, events) == START.(items := Stalled(n), leases := n) && Unclaimed(START, events) == 0
  {
    if n == 0 {
      events := [];
      assert Stalled(0) == {};
    } else {
      var before := StallWorkers(n - 1);
      var w := Run(START, before);
      events := before + [ClaimSend, ReapExpired, Wait(0)];
      RunAppend(START, before, [ClaimSend, ReapExpired, Wait(0)]);
      Run3(w, ClaimSend, ReapExpired, Wait(0));
      assert w.items + {Item(n - 1, true, false, 0, 0)} == Stalled(n);
      assert Next(Next(Next(w, ClaimSend), ReapExpired), Wait(0)) == START.(items := Stalled(n), leases := n);
    }
  }

  /** One claim whose send ends with an unknown outcome. */
  lemma AmbiguousClaim(w: World) returns (events: seq<Event>)
    requires Held(w) && w.op.state == Pending
    ensures var t := Run(w, events);
      && Unclaimed(w, events) == 0 && Held(t)
      && t.op == MarkUncertain(w.op, w.now).(attempted := true) && t.items == w.items && t.now == w.now
      && t.reported == w.reported + {w.leases} && t.open == w.open + {w.leases}
  {
    var item := ItemOf(w, true);
    events := [ClaimSend, Attempt(item), Send(item, Ambiguous)];
    Run3(w, ClaimSend, Attempt(item), Send(item, Ambiguous));
    var a := Next(w, ClaimSend);
    var b := Next(a, Attempt(item));
    HeldKept(w, ClaimSend);
    HeldKept(a, Attempt(item));
    HeldKept(b, Send(item, Ambiguous));
    assert item !in w.items;
    assert (w.items + {item}) - {item} == w.items;
  }

  /** One reconciliation that finds nothing, as soon as it is due. */
  lemma EmptyCheck(w: World) returns (events: seq<Event>)
    requires Held(w) && w.op.state == Uncertain && w.op.attempted && !w.op.manual && w.now <= w.op.due
    ensures var t := Run(w, events); var found := Item(w.leases, false, true, w.op.checks, w.op.resends);
      && Unclaimed(w, events) == 0 && Held(t) && t.items == w.items && t.reported == w.reported && t.open == w.open
      && t.now == w.op.due
      && t.op == Checked(w.op.(lease := Some(w.leases)), found, NoMatch, w.op.due)
  {
    var item := ItemOf(w, false);
    var wait := Wait(w.op.due - w.now);
    events := [wait, ClaimCheck, Check(item, NoMatch)];
    Run3(w, wait, ClaimCheck, Check(item, NoMatch));
    var a := Next(w, wait);
    var b := Next(a, ClaimCheck);
    HeldKept(w, wait);
    HeldKept(a, ClaimCheck);
    HeldKept(b, Check(item, NoMatch));
    assert item !in w.items;
    assert (w.items + {item}) - {item} == w.items;
  }

  /** Three empty checks spend the resend. */
  lemma EmptyChecks(w: World) returns (events: seq<Event>)
    requires Held(w) && w.op.state == Uncertain && w.op.attempted && !w.op.manual && w.now <= w.op.due
    requires w.op.checks == 0 && w.op.resends == 0
    ensures var t := Run(w, events);
      && Unclaimed(w, events) == 0 && Held(t) && t.items == w.items && t.reported == w.reported && t.open == w.open
      && t.op.state == Pending && t.op.resends == 1
  {
    var first := EmptyCheck(w);
    var second := EmptyCheck(Run(w, first));
    var third := EmptyCheck(Run(Run(w, first), second));
    RunAppend(w, first, second);
    RunAppend(w, first + second, third);
    events := first + second + third;
  }

  /** The allowance itself is used up by two ambiguous sends with a resend between them. */
  lemma TwoAmbiguous(w: World) returns (events: seq<Event>)
    requires Held(w) && w.op.state == Pending && w.op.resends == 0 && !w.op.manual
    ensures var t := Run(w, events);
      && Unclaimed(w, events) == 0 && Held(t) && t.items == w.items && t.op.state == Uncertain && t.op.lease.None?
      && exists a, b :: w.leases <= a < b && t.reported == w.reported + {a, b} && t.open == w.open + {a, b}
  {
    var first := AmbiguousClaim(w);
    var a := Run(w, first);
    var checks := EmptyChecks(a);
    var b := Run(a, checks);
    assert w.leases < b.leases by { LeasesGrow(w, first); LeasesGrow(a, checks); }
    var second := AmbiguousClaim(b);
    RunAppend(w, first, checks);
    RunAppend(w, first + checks, second);
    events := first + checks + second;
    assert Run(w, events).reported == w.reported + {w.leases, b.leases};
    assert Run(w, events).open == w.open + {w.leases, b.leases};
  }

  lemma {:induction false} LeasesGrow(w: World, events: seq<Event>)
    ensures w.leases <= Run(w, events).leases
    decreases |events|
  {
    if events != [] { LeasesGrow(Next(w, events[0]), events[1..]); }
  }

  lemma Run2(w: World, a: Event, b: Event)
    ensures Run(w, [a, b]) == Next(Next(w, a), b)
    ensures Unclaimed(w, [a, b]) == (if ActsUnclaimed(w, a) then 1 else 0) + if ActsUnclaimed(Next(w, a), b) then 1 else 0
  {
    Run1(Next(w, a), b);
    assert [a, b][1..] == [b];
  }

  /** Each stalled worker that goes on to send adds one ambiguous send to an uncertain row. */
  lemma {:induction false} LateSends(w: World, n: nat) returns (events: seq<Event>)
    requires Held(w) && w.op.state == Uncertain && Stalled(n) <= w.items
    requires forall i: nat :: i < n ==> i !in w.open && w.op.lease != Some(i)
    ensures var t := Run(w, events);
      && Unclaimed(w, events) == n && Held(t) && t.op.state == Uncertain
      && t.reported == w.reported + First(n)
    decreases n
  {
    if n == 0 {
      events := [];
    } else {
      var item := Item(n - 1, true, false, 0, 0);
      assert item in Stalled(n);
      var a, b := Next(w, Attempt(item)), Next(Next(w, Attempt(item)), Send(item, Ambiguous));
      Run2(w, Attempt(item), Send(item, Ambiguous));
      HeldKept(w, Attempt(item));
      HeldKept(a, Send(item, Ambiguous));
      forall x | x in Stalled(n - 1) ensures x in b.items { assert x in Stalled(n); }
      var rest := LateSends(b, n - 1);
      events := [Attempt(item), Send(item, Ambiguous)] + rest;
      RunAppend(w, [Attempt(item), Send(item, Ambiguous)], rest);
    }
  }

  function First(n: nat): set<nat> {
    if n == 0 then {} else First(n - 1) + {n - 1}
  }

  lemma {:induction false} FirstSize(n: nat)
    ensures |First(n)| == n && forall i :: i in First(n) ==> i < n
  {
    if n > 0 { FirstSize(n - 1); }
  }

  lemma DisjointSize(a: nat, b: nat, n: nat)
    requires n <= a < b
    ensures |{a, b} + First(n)| == 2 + n
  {
    FirstSize(n);
    assert {a, b} !! First(n);
  }

  /** For every number of unclaimed acts the bound is reached, by reported outcomes alone. */
  lemma BoundIsTight(n: nat) returns (events: seq<Event>)
    ensures Unclaimed(START, events) == n
    ensures |Run(START, events).reported| == 1 + MAX_AUTO_RESENDS + n && Run(START, events).op.state == Uncertain
  {
    var stall := StallWorkers(n);
    var w := Run(START, stall);
    StalledHeld(n);
    var rest := TwoThenLate(w, n);
    RunAppend(START, stall, rest);
    events := stall + rest;
  }

  lemma StalledHeld(n: nat)
    ensures Held(START.(items := Stalled(n), leases := n))
  {
  }

  lemma TwoThenLate(w: World, n: nat) returns (events: seq<Event>)
    requires Held(w) && w.op == NEW && w.items == Stalled(n) && w.leases == n && w.open == {}
    ensures Unclaimed(w, events) == n && Run(w, events).op.state == Uncertain
    ensures |Run(w, events).reported| == 1 + MAX_AUTO_RESENDS + n
  {
    var two := TwoAmbiguous(w);
    var t := Run(w, two);
    var a, b :| w.leases <= a < b && t.reported == w.reported + {a, b} && t.open == w.open + {a, b};
    assert w.reported == {};
    var late := LateSends(t, n);
    RunAppend(w, two, late);
    events := two + late;
    assert Run(w, events).reported == {a, b} + First(n);
    DisjointSize(a, b, n);
  }

  /**
   So the bound holds for all runs with at most `n` unclaimed acts exactly when there are none: the
   guard both statements lack, that the worker still holds its claim, is what the bound rests on.
   */
  lemma BoundedIffClaimed(n: nat)
    ensures (forall events :: Unclaimed(START, events) <= n ==> |AmbiguousSends(Run(START, events))| <= 1 + MAX_AUTO_RESENDS)
      <==> n == 0
  {
    if n == 0 {
      forall events | Unclaimed(START, events) <= n ensures |AmbiguousSends(Run(START, events))| <= 1 + MAX_AUTO_RESENDS {
        AmbiguousSendsBounded(events);
      }
    } else {
      var events := BoundIsTight(1);
      Subset(Run(START, events).reported, AmbiguousSends(Run(START, events)));
      assert !(Unclaimed(START, events) <= n ==> |AmbiguousSends(Run(START, events))| <= 1 + MAX_AUTO_RESENDS);
    }
  }

  /** A stalled worker fails to prepare after another's send became ambiguous. */
  lemma LateReturn(w: World, late: Item) returns (events: seq<Event>)
    requires Held(w) && w.op.state == Pending && late in w.items && late.sending && late.lease !in w.open
    ensures var t := Run(w, events);
      && Unclaimed(w, events) == 1 && Held(t) && t.op.state == Pending && t.op.resends == w.op.resends
      && t.op.manual == w.op.manual && t.reported == (w.reported + {w.leases}) - {late.lease}
  {
    var first := AmbiguousClaim(w);
    var a, e := Run(w, first), Send(late, RetryableError);
    Run1(a, e);
    HeldKept(a, e);
    RunAppend(w, first, [e]);
    events := first + [e];
  }

  /** A single unclaimed return to the queue breaks it too. */
  lemma UnclaimedReturnBreaksBound() returns (events: seq<Event>)
    ensures Unclaimed(START, events) == 1 && |Run(START, events).reported| == 3
  {
    var stall := StallWorkers(1);
    var w := Run(START, stall);
    var late := Item(0, true, false, 0, 0);
    assert late in Stalled(1);
    var back := LateReturn(w, late);
    var b := Run(w, back);
    LeasesGrow(w, back);
    var two := TwoAmbiguous(b);
    RunAppend(START, stall, back);
    RunAppend(START, stall + back, two);
    events := stall + back + two;
    ThreeReported(b, Run(b, two));
  }

  lemma ThreeReported(b: World, t: World)
    requires Held(b) && b.reported == {1}
    requires exists x, y :: b.leases <= x < y && t.reported == b.reported + {x, y} && t.open == b.open + {x, y}
    ensures |t.reported| == 3
  {
    var x, y :| b.leases <= x < y && t.reported == b.reported + {x, y} && t.open == b.open + {x, y};
    assert 1 in b.open;
  }

  // ------------------------------------------------------------------ what the columns keep

  /** A terminal state is left exactly by a late worker's unguarded statement. */
  lemma TerminalIsFinalIff(w: World, e: Event)
    requires Terminal(w.op.state)
    ensures Next(w, e).op.state == w.op.state <==>
      !(e.Send? && Answers(w, e.item, e.outcome) && !e.outcome.Finished?)
  {
  }

  /** A worker answers a check it claimed. */
  predicate Checks(w: World, e: Event) {
    e.Check? && e.item in w.items && !e.item.sending
  }

  /** The event that commits an operation which was not committed. */
  predicate Commits(w: World, e: Event) {
    || (e.Send? && Answers(w, e.item, e.outcome) && e.outcome == Finished(Committed)
        && (w.op.state == Running || w.op.state == Uncertain))
    || (Checks(w, e) && e.item.attempted && e.evidence == Match && (w.op.state == Running || w.op.state == Uncertain))
    || (e.Echo? && w.op.state == Uncertain)
  }

  /** The event that hands an operation over for manual reconciliation. */
  predicate HandsOver(w: World, e: Event) {
    && Checks(w, e) && w.op.state == Uncertain
    && (|| !e.item.attempted
        || e.evidence == ProviderFailed
        || (e.evidence == NoMatch && e.item.checks + 1 >= |DELAYS| && e.item.resends >= MAX_AUTO_RESENDS))
  }

  /** The event that ends an operation in another way. */
  predicate Ends(w: World, e: Event, ending: Ending) {
    e.Send? && Answers(w, e.item, e.outcome) && e.outcome == Finished(ending) && (w.op.state == Running || w.op.state == Uncertain)
  }

  /** An operation becomes committed exactly by a committing event. */
  lemma CommittedIff(w: World, e: Event)
    requires w.op.state != Committed
    ensures Next(w, e).op.state == Committed <==> Commits(w, e)
  {
  }

  /** It is handed over exactly by such a check, and is then rejected. */
  lemma HandedOverIff(w: World, e: Event)
    requires !w.op.manual
    ensures Next(w, e).op.manual <==> HandsOver(w, e)
    ensures Next(w, e).op.manual ==> Next(w, e).op.state == Rejected
  {
  }

  /** Every other ending is the one its send reported. */
  lemma EndedIff(w: World, e: Event, ending: Ending)
    requires w.op.state != ending && ending != Committed
    ensures Next(w, e).op.state == ending <==> Ends(w, e, ending) || (ending == Rejected && HandsOver(w, e))
  {
  }

  /** A late worker's unguarded statement takes the row out of its terminal state. */
  predicate Leaves(w: World, e: Event) {
    e.Send? && Answers(w, e.item, e.outcome) && !e.outcome.Finished?
  }

  /** Committed by event `i` and left alone since. */
  ghost predicate CommittedAt(w: World, events: seq<Event>, i: nat)
    requires i < |events|
  {
    && Commits(Run(w, events[..i]), events[i])
    && forall j {:trigger events[..j]} :: i < j < |events| ==> !Leaves(Run(w, events[..j]), events[j])
  }

  lemma RunStep(w: World, events: seq<Event>, i: nat)
    requires i < |events|
    ensures Run(w, events[..i + 1]) == Next(Run(w, events[..i]), events[i])
  {
    RunAppend(w, events[..i], [events[i]]);
    Run1(Run(w, events[..i]), events[i]);
    assert events[..i + 1] == events[..i] + [events[i]];
  }

  /**
   Over whole runs: an operation ends up committed exactly when some event committed it and no late
   write has reopened it since.
   */
  lemma {:induction false} CommittedRunIff(w: World, events: seq<Event>)
    requires w.op.state != Committed
    ensures Run(w, events).op.state == Committed <==> exists i :: 0 <= i < |events| && CommittedAt(w, events, i)
    decreases |events|
  {
    if events != [] {
      var n := |events| - 1;
      var init := events[..n];
      CommittedRunIff(w, init);
      RunStep(w, events, n);
      assert events[..n + 1] == events;
      var before := Run(w, init);
      if before.op.state == Committed { TerminalIsFinalIff(before, events[n]); } else { CommittedIff(before, events[n]); }
      CommittedExtends(w, events);
    }
  }

  lemma CommittedExtends(w: World, events: seq<Event>)
    requires events != []
    ensures var n := |events| - 1; var before := Run(w, events[..n]);
      (exists i :: 0 <= i < |events| && CommittedAt(w, events, i)) <==>
        || Commits(before, events[n])
        || ((exists i :: 0 <= i < n && CommittedAt(w, events[..n], i)) && !Leaves(before, events[n]))
  {
    var n := |events| - 1;
    var init := events[..n];
    forall i | 0 <= i < n ensures CommittedAt(w, events, i) <==> CommittedAt(w, init, i) && !Leaves(Run(w, init), events[n]) {
      assert events[..i] == init[..i] && events[i] == init[i] && events[..n] == init;
      forall j | i < j < n ensures events[..j] == init[..j] && events[j] == init[j] {}
    }
    assert CommittedAt(w, events, n) <==> Commits(Run(w, init), events[n]);
  }

  /** And it is handed over exactly when some check handed it over. */
  lemma {:induction false} HandedOverRunIff(w: World, events: seq<Event>)
    requires !w.op.manual
    ensures Run(w, events).op.manual <==> exists i :: 0 <= i < |events| && FirstHandedOver(w, events, i)
    decreases |events|
  {
    if events != [] {
      var n := |events| - 1;
      var init := events[..n];
      HandedOverRunIff(w, init);
      RunStep(w, events, n);
      assert events[..n + 1] == events;
      forall i | 0 <= i < n ensures FirstHandedOver(w, events, i) <==> FirstHandedOver(w, init, i) {
        assert events[..i] == init[..i] && events[i] == init[i];
      }
      if Run(w, init).op.manual {
        ManualStays(Run(w, init), events[n]);
        var i :| 0 <= i < |init| && FirstHandedOver(w, init, i);
        assert FirstHandedOver(w, events, i);
      } else {
        HandedOverIff(Run(w, init), events[n]);
        assert FirstHandedOver(w, events, n) <==> HandsOver(Run(w, init), events[n]);
      }
    }
  }

  predicate FirstHandedOver(w: World, events: seq<Event>, i: nat)
    requires i < |events|
  {
    !Run(w, events[..i]).op.manual && HandsOver(Run(w, events[..i]), events[i])
  }

  lemma ManualStays(w: World, e: Event)
    requires w.op.manual
    ensures Next(w, e).op.manual
  {
  }

  /** What makes an operation uncertain, and the fresh schedule it then has. */
  lemma UncertainIff(w: World, e: Event)
    requires w.op.state != Uncertain
    ensures Next(w, e).op.state == Uncertain <==>
      || (e.Send? && Answers(w, e.item, e.outcome) && e.outcome == Ambiguous)
      || (e.ReapExpired? && w.op.state == Running && w.op.attempted)
    ensures Next(w, e).op.state == Uncertain ==>
      var d := Next(w, e).op;
      && d.checks == 0 && d.since == w.now && d.lease.None? && (d.reaped <==> e.ReapExpired?)
      && d.due == (if e.ReapExpired? then w.now else w.now + 5)
  {
  }

  /** A check is handed out exactly for an uncertain operation that is due and not handed over. */
  lemma CheckClaimedIff(w: World)
    ensures Next(w, ClaimCheck) != w <==> w.op.state == Uncertain && !w.op.manual && w.op.due <= w.now
    ensures Next(w, ClaimCheck) != w ==>
      && Next(w, ClaimCheck).op == w.op.(lease := Some(w.leases))
      && Item(w.leases, false, w.op.attempted, w.op.checks, w.op.resends) in Next(w, ClaimCheck).items
  {
  }

  /** A provider that cannot be asked now costs five seconds and nothing else. */
  lemma RetryableCheckOnlyWaits(w: World, item: Item)
    requires item in w.items && !item.sending && item.attempted && w.op.state == Uncertain
    ensures Next(w, Check(item, ProviderRetryable)).op == w.op.(due := w.now + 5, lease := None)
  {
  }

  /**
   A row goes back to the queue by spending a resend, by a reap that finds no evidence of a send, or
   by a retry; and a retry returns a row that is not its worker's exactly when the claim was lost.
   */
  lemma ReturnsToQueue(w: World, e: Event)
    requires Held(w) && w.op.state != Pending && Next(w, e).op.state == Pending
    ensures var d := Next(w, e).op;
      || (e.Check? && w.op.state == Uncertain && d.resends == w.op.resends + 1)
      || (e.ReapExpired? && w.op.state == Running && !w.op.attempted && d.resends == w.op.resends)
      || (e.Send? && e.outcome == RetryableError && d.resends == w.op.resends
          && (w.op.state == Running && w.op.lease == Some(e.item.lease) <==> !Lost(w, e.item)))
  {
  }

  // ------------------------------------------------------------------ workers under their lease

  /** The acting worker still holds the lease of its claim. */
  predicate Fenced(w: World, e: Event) {
    match e
    case Attempt(item) => w.op.lease == Some(item.lease)
    case Send(item, outcome) => w.op.lease == Some(item.lease)
    case Check(item, evidence) => w.op.lease == Some(item.lease)
    case _ => true
  }

  predicate FencedRun(w: World, events: seq<Event>)
    decreases |events|
  {
    events == [] || (Fenced(w, events[0]) && FencedRun(Next(w, events[0]), events[1..]))
  }

  /** A check acts on the row it read. */
  ghost predicate Leased(w: World) {
    && Held(w)
    && (forall i :: i in w.items && !i.sending && w.op.lease == Some(i.lease) ==>
          w.op.state == Uncertain && i.attempted == w.op.attempted && i.checks == w.op.checks && i.resends == w.op.resends)
    && (w.op.lease.Some? ==> w.op.state == Running || w.op.state == Uncertain)
  }

  lemma LeasedKept(w: World, e: Event)
    requires Leased(w) && Fenced(w, e)
    ensures Leased(Next(w, e))
  {
    HeldKept(w, e);
    if e.Check? { CheckedCases(w.op, e.item, e.evidence, w.now); }
  }

  /** Workers that act while their lease stands never act unclaimed. */
  lemma {:induction false} FencedNeverUnclaimed(w: World, events: seq<Event>)
    requires FencedRun(w, events)
    ensures Unclaimed(w, events) == 0
    decreases |events|
  {
    if events != [] { FencedNeverUnclaimed(Next(w, events[0]), events[1..]); }
  }

  // ------------------------------------------------------------------ reconciliation terminates

  /** Checks left in this schedule plus those of the resends left. */
  function ChecksLeft(op: Operation): int {
    if Terminal(op.state) then 0
    else |DELAYS| * (MAX_AUTO_RESENDS - op.resends) + if op.state == Uncertain then |DELAYS| - op.checks else |DELAYS|
  }

  predicate Scheduled(op: Operation) {
    (op.state == Uncertain ==> op.checks < |DELAYS|) && (op.manual ==> op.state == Rejected)
  }

  /** Under its lease a check that got an answer always uses up part of the measure. */
  lemma CheckProgress(w: World, item: Item, evidence: Evidence)
    requires Leased(w) && Scheduled(w.op) && item in w.items && !item.sending
    requires w.op.lease == Some(item.lease) && evidence != ProviderRetryable
    ensures 0 <= ChecksLeft(Next(w, Check(item, evidence)).op) < ChecksLeft(w.op)
  {
  }

  /** Nothing else adds checks. */
  lemma ChecksNeverGrow(w: World, e: Event)
    requires Leased(w) && Scheduled(w.op) && Fenced(w, e)
    ensures Scheduled(Next(w, e).op) && 0 <= ChecksLeft(Next(w, e).op) <= ChecksLeft(w.op)
  {
  }

  predicate Answered(w: World, e: Event) {
    e.Check? && e.item in w.items && !e.item.sending && e.evidence != ProviderRetryable
  }

  function AnsweredChecks(w: World, events: seq<Event>): nat
    decreases |events|
  {
    if events == [] then 0
    else (if Answered(w, events[0]) then 1 else 0) + AnsweredChecks(Next(w, events[0]), events[1..])
  }

  lemma {:induction false} AnsweredChecksCounted(w: World, events: seq<Event>)
    requires Leased(w) && Scheduled(w.op) && FencedRun(w, events) && 0 <= ChecksLeft(w.op)
    ensures Leased(Run(w, events)) && Scheduled(Run(w, events).op) && 0 <= ChecksLeft(Run(w, events).op)
    ensures AnsweredChecks(w, events) + ChecksLeft(Run(w, events).op) <= ChecksLeft(w.op)
    decreases |events|
  {
    if events != [] {
      var e := events[0];
      LeasedKept(w, e);
      ChecksNeverGrow(w, e);
      if Answered(w, e) { CheckProgress(w, e.item, e.evidence); }
      AnsweredChecksCounted(Next(w, e), events[1..]);
    }
  }

  /** At most six answered checks settle an operation, over any fenced run. */
  lemma ReconciliationTerminates(events: seq<Event>)
    requires FencedRun(START, events)
    ensures AnsweredChecks(START, events) <= |DELAYS| * (1 + MAX_AUTO_RESENDS)
    ensures AnsweredChecks(START, events) == |DELAYS| * (1 + MAX_AUTO_RESENDS) ==> Terminal(Run(START, events).op.state)
  {
    AnsweredChecksCounted(START, events);
  }

  // ------------------------------------------------------------------ the check schedule

  /** A reaped row is checked at once: its schedule runs ahead by the first delay. */
  function Lead(op: Operation): int {
    if op.reaped then DELAYS[0] else 0
  }

  /** When check number `op.checks` stands in the schedule. */
  function Planned(op: Operation): int
    requires op.checks < |DELAYS|
  {
    op.since + DELAYS[op.checks] - Lead(op)
  }

  /** No check is due earlier than its place in the schedule. */
  predicate OnSchedule(op: Operation) {
    op.state == Uncertain && op.checks < |DELAYS| ==> op.due >= Planned(op)
  }

  ghost predicate ClaimedInTime(w: World) {
    && OnSchedule(w.op)
    && forall i :: i in w.items && !i.sending && w.op.lease == Some(i.lease) ==> w.op.due <= w.now
  }

  lemma ScheduleKept(w: World, e: Event)
    requires Leased(w) && Scheduled(w.op) && Fenced(w, e) && ClaimedInTime(w)
    ensures ClaimedInTime(Next(w, e))
  {
  }

  lemma {:induction false} AlwaysOnSchedule(w: World, events: seq<Event>)
    requires Leased(w) && Scheduled(w.op) && ClaimedInTime(w) && FencedRun(w, events)
    ensures Leased(Run(w, events)) && Scheduled(Run(w, events).op) && ClaimedInTime(Run(w, events))
    decreases |events|
  {
    if events != [] {
      LeasedKept(w, events[0]);
      ChecksNeverGrow(w, events[0]);
      ScheduleKept(w, events[0]);
      AlwaysOnSchedule(Next(w, events[0]), events[1..]);
    }
  }

  /**
   In every fenced run an operation whose send was reported ambiguous is resent or handed over at
   least 30 seconds after it became uncertain; one that a reap made uncertain, at least 25.
   */
  lemma ResendAfterSchedule(events: seq<Event>, item: Item)
    requires FencedRun(START, events)
    requires var w := Run(START, events);
      && item in w.items && !item.sending && w.op.lease == Some(item.lease) && w.op.attempted
      && Next(w, Check(item, NoMatch)).op.state != Uncertain
    ensures var w := Run(START, events); w.now - w.op.since >= if w.op.reaped then 25 else 30
  {
    AlwaysOnSchedule(START, events);
  }

  // ------------------------------------------------------------------ punctual checks telescope

  /** Checks are claimed and answered exactly when due, and find nothing. */
  predicate Punctual(w: World, e: Event) {
    match e
    case ClaimCheck => w.op.state == Uncertain ==> w.now == w.op.due
    case Check(item, evidence) => evidence == NoMatch && w.now == w.op.due
    case _ => true
  }

  predicate PunctualRun(w: World, events: seq<Event>)
    decreases |events|
  {
    events == [] || (Punctual(w, events[0]) && PunctualRun(Next(w, events[0]), events[1..]))
  }

  predicate Telescoped(op: Operation) {
    op.state == Uncertain ==> op.checks < |DELAYS| && op.due == Planned(op)
  }

  lemma TelescopedKept(w: World, e: Event)
    requires Leased(w) && Scheduled(w.op) && Fenced(w, e) && Punctual(w, e) && Telescoped(w.op)
    ensures Telescoped(Next(w, e).op)
  {
  }

  /** Over every punctual run the scheduled gaps add up to the listed delays throughout. */
  lemma {:induction false} GapsTelescope(w: World, events: seq<Event>)
    requires Leased(w) && Scheduled(w.op) && Telescoped(w.op) && FencedRun(w, events) && PunctualRun(w, events)
    ensures Leased(Run(w, events)) && Scheduled(Run(w, events).op) && Telescoped(Run(w, events).op)
    decreases |events|
  {
    if events != [] {
      LeasedKept(w, events[0]);
      ChecksNeverGrow(w, events[0]);
      TelescopedKept(w, events[0]);
      GapsTelescope(Next(w, events[0]), events[1..]);
    }
  }

  /** So a punctual operation is resent or handed over after exactly 30 seconds, or 25 after a reap. */
  lemma PunctualResend(events: seq<Event>, item: Item)
    requires FencedRun(START, events) && PunctualRun(START, events)
    requires var w := Run(START, events);
      && item in w.items && !item.sending && w.op.lease == Some(item.lease) && w.op.attempted && w.now == w.op.due
      && Next(w, Check(item, NoMatch)).op.state != Uncertain
    ensures var w := Run(START, events); w.now - w.op.since == if w.op.reaped then 25 else 30
  {
    GapsTelescope(START, events);
  }
}
