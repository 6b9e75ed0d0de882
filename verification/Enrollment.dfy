/**
 Certificate enrollment and renewal as atomic file operations with crashes in between
 (workspace_zulip_bridge/enrollment.py).

 Keys, uuids and trust bundles are numbers; a certificate carries the key it certifies. Every
 replacement and removal of a file is atomic, and the process may stop between any two of them.
 */
module Enrollment {
  import opened Catalogs

  datatype Certificate = Certificate(key: nat, serial: nat)

  datatype Request = Request(uuid: nat)

  /** `sound`: the identity, names, usages and trust bundle of the answer are acceptable. */
  datatype Issuance = Issuance(uuid: nat, certificate: Certificate, trust: nat, sound: bool)

  datatype Disk = Disk(
    ca: Option<nat>, key: Option<nat>, credential: Option<nat>, certificate: Option<Certificate>,
    enrollment: Option<Request>,
    request: Option<Request>, nextKey: Option<nat>, issuance: Option<Issuance>)

  predicate Validates(i: Issuance, uuid: nat, key: nat) {
    i.uuid == uuid && i.certificate.key == key && i.sound
  }

  /** The installed certificate certifies the installed key. */
  predicate Matched(d: Disk) {
    d.certificate.Some? && d.key == Some(d.certificate.value.key)
  }

  /** The whole renewal is on disk and valid. */
  predicate Repairable(d: Disk) {
    && d.request.Some? && d.nextKey.Some? && d.issuance.Some?
    && Validates(d.issuance.value, d.request.value.uuid, d.nextKey.value)
  }

  /** A certificate is never left without its key, unless the means to repair it are on disk. */
  predicate Safe(d: Disk) {
    d.certificate.Some? ==> Matched(d) || Repairable(d)
  }

  // ------------------------------------------------------------------ the process

  /** Where the process is; the parameters are its local variables. */
  datatype Step =
    | Stopped
    | WritingKey(key: nat, uuid: nat)
    | WritingRequest(key: nat, uuid: nat)
    | Renewing(key: nat, uuid: nat)
    | WritingIssuance(key: nat, uuid: nat, issuance: Issuance)
    | InstallingCa(key: nat, issuance: Issuance)
    | InstallingKey(key: nat, issuance: Issuance)
    | InstallingCertificate(issuance: Issuance)
    | RemovingRequest
    | RemovingKey
    | RemovingIssuance
    | EnrollingKey(key: nat, credential: nat, uuid: nat)
    | EnrollingCredential(credential: nat, uuid: nat)
    | EnrollingRequest(uuid: nat)
    | Enrolling(uuid: nat)
    | InstallingFirst(issuance: Issuance)
    | InstallingTrust(issuance: Issuance)

  /** What the world supplies: fresh keys and uuids, the backend's answer, and whether to renew. */
  datatype Input = Input(key: nat, credential: nat, uuid: nat, ca: nat, answer: Option<Issuance>, due: bool, expired: bool)

  datatype Process = Process(disk: Disk, step: Step)

  function Recovering(d: Disk): Step
    requires d.issuance.Some?
  {
    if d.request.None? || d.nextKey.None? then Stopped  // raises: incomplete persisted renewal
    else if !Validates(d.issuance.value, d.request.value.uuid, d.nextKey.value) then Stopped
    else InstallingCa(d.nextKey.value, d.issuance.value)
  }

  function Deciding(d: Disk, input: Input): Step
    requires d.certificate.Some?
  {
    if d.key.None? || d.credential.None? || d.ca.None? then Stopped
    else if d.key.value != d.certificate.value.key || input.expired then Stopped
    else if !input.due then Stopped
    else if d.request.None? then WritingKey(input.key, input.uuid)
    else if d.nextKey.None? then Stopped
    else Renewing(d.nextKey.value, d.request.value.uuid)
  }

  function Enroll(d: Disk, input: Input): Process {
    var ready := if d.ca.Some? then d else d.(ca := Some(input.ca));
    if d.enrollment.None? then Process(ready, EnrollingKey(input.key, input.credential, input.uuid))
    else if d.key.None? || d.credential.None? then Process(ready, Stopped)
    else Process(ready, Enrolling(d.enrollment.value.uuid))
  }

  /** A new process: recover first, then renew or enroll. */
  function Start(d: Disk, input: Input): Process {
    if d.issuance.Some? then Process(d, Recovering(d))
    else if d.certificate.Some? then Process(d, Deciding(d, input))
    else Enroll(d, input)
  }

  /** One file operation or one exchange with the backend. */
  function Advance(p: Process, input: Input): Process {
    var d := p.disk;
    match p.step
    case Stopped => Start(d, input)
    case WritingKey(key, uuid) => Process(d.(nextKey := Some(key)), WritingRequest(key, uuid))
    case WritingRequest(key, uuid) => Process(d.(request := Some(Request(uuid))), Renewing(key, uuid))
    case Renewing(key, uuid) =>
      if input.answer.Some? && Validates(input.answer.value, uuid, key)
      then Process(d, WritingIssuance(key, uuid, input.answer.value)) else Process(d, Stopped)
    case WritingIssuance(key, uuid, issuance) => Process(d.(issuance := Some(issuance)), InstallingCa(key, issuance))
    case InstallingCa(key, issuance) => Process(d.(ca := Some(issuance.trust)), InstallingKey(key, issuance))
    case InstallingKey(key, issuance) => Process(d.(key := Some(key)), InstallingCertificate(issuance))
    case InstallingCertificate(issuance) => Process(d.(certificate := Some(issuance.certificate)), RemovingRequest)
    case RemovingRequest => Process(d.(request := None), RemovingKey)
    case RemovingKey => Process(d.(nextKey := None), RemovingIssuance)
    case RemovingIssuance => Process(d.(issuance := None), Stopped)
    case EnrollingKey(key, credential, uuid) => Process(d.(key := Some(key)), EnrollingCredential(credential, uuid))
    case EnrollingCredential(credential, uuid) => Process(d.(credential := Some(credential)), EnrollingRequest(uuid))
    case EnrollingRequest(uuid) => Process(d.(enrollment := Some(Request(uuid))), Enrolling(uuid))
    case Enrolling(uuid) =>
      if input.answer.Some? && d.key.Some? && Validates(input.answer.value, uuid, d.key.value)
      then Process(d, InstallingFirst(input.answer.value)) else Process(d, Stopped)
    case InstallingFirst(issuance) => Process(d.(certificate := Some(issuance.certificate)), InstallingTrust(issuance))
    case InstallingTrust(issuance) => Process(d.(ca := Some(issuance.trust)), Stopped)
  }

  datatype Event = Advances(input: Input) | Crash

  function Next(p: Process, e: Event): Process {
    match e
    case Advances(input) => Advance(p, input)
    case Crash => p.(step := Stopped)
  }

  function Run(p: Process, events: seq<Event>): Process
    decreases |events|
  {
    if events == [] then p else Run(Next(p, events[0]), events[1..])
  }

  // ------------------------------------------------------------------ safety

  /** The renewal on disk is exactly what the process is installing. */
  predicate Holding(d: Disk, key: nat, issuance: Issuance) {
    Repairable(d) && d.nextKey == Some(key) && d.issuance == Some(issuance)
  }

  predicate Consistent(p: Process) {
    var d := p.disk;
    Safe(d) &&
    match p.step
    case Stopped => true
    case WritingKey(_, _) => Matched(d)
    case WritingRequest(key, _) => Matched(d) && d.nextKey == Some(key)
    case Renewing(key, uuid) => Matched(d) && d.nextKey == Some(key) && d.request == Some(Request(uuid))
    case WritingIssuance(key, uuid, issuance) =>
      Matched(d) && d.nextKey == Some(key) && d.request == Some(Request(uuid)) && Validates(issuance, uuid, key)
    case InstallingCa(key, issuance) => Holding(d, key, issuance)
    case InstallingKey(key, issuance) => Holding(d, key, issuance)
    case InstallingCertificate(issuance) => Holding(d, issuance.certificate.key, issuance) && d.key == Some(issuance.certificate.key)
    case RemovingRequest => Matched(d)
    case RemovingKey => Matched(d)
    case RemovingIssuance => Matched(d)
    case EnrollingKey(_, _, _) => d.certificate.None?
    case EnrollingCredential(_, _) => d.certificate.None?
    case EnrollingRequest(_) => d.certificate.None?
    case Enrolling(_) => d.certificate.None?
    case InstallingFirst(issuance) => d.certificate.None? && d.key == Some(issuance.certificate.key)
    case InstallingTrust(_) => Matched(d)
  }

  lemma AdvanceConsistent(p: Process, input: Input)
    requires Consistent(p)
    ensures Consistent(Advance(p, input))
  {
  }

  /**
   However often the process stops and restarts, between any two file operations the installed
   certificate matches the installed key, or a complete validated renewal is on disk.
   */
  lemma {:induction false} CrashSafe(p: Process, events: seq<Event>)
    requires Consistent(p)
    ensures Consistent(Run(p, events)) && Safe(Run(p, events).disk)
    decreases |events|
  {
    if events != [] {
      if events[0].Advances? { AdvanceConsistent(p, events[0].input); }
      CrashSafe(Next(p, events[0]), events[1..]);
    }
  }

  // ------------------------------------------------------------------ recovery

  function Steps(p: Process, input: Input, n: nat): Process {
    if n == 0 then p else Advance(Steps(p, input, n - 1), input)
  }

  /** Restarting on any safe disk with a complete renewal installs it and clears it away. */
  lemma RecoveryRestores(d: Disk, input: Input)
    requires Repairable(d)
    ensures Matched(Steps(Process(d, Stopped), input, 4).disk)
    ensures var done := Steps(Process(d, Stopped), input, 7);
      && done.step == Stopped && Matched(done.disk)
      && done.disk.certificate == Some(d.issuance.value.certificate) && done.disk.ca == Some(d.issuance.value.trust)
      && done.disk.credential == d.credential && done.disk.enrollment == d.enrollment
      && done.disk.request.None? && done.disk.nextKey.None? && done.disk.issuance.None?
  {
    var p0 := Process(d, Stopped);
    var p1 := Advance(p0, input);
    assert Steps(p0, input, 1) == p1;
    var p2 := Advance(p1, input);
    assert Steps(p0, input, 2) == p2;
    var p3 := Advance(p2, input);
    assert Steps(p0, input, 3) == p3;
    var p4 := Advance(p3, input);
    assert Steps(p0, input, 4) == p4;
    var p5 := Advance(p4, input);
    assert Steps(p0, input, 5) == p5;
    var p6 := Advance(p5, input);
    assert Steps(p0, input, 6) == p6;
  }

  lemma StepsAppend(p: Process, input: Input, m: nat, n: nat)
    ensures Steps(p, input, m + n) == Steps(Steps(p, input, m), input, n)
  {
    if n > 0 { StepsAppend(p, input, m, n - 1); }
  }

  /** The request and key of a renewal: those on disk, or fresh ones. */
  function RenewalPair(d: Disk, input: Input): Option<(nat, nat)> {
    if d.request.None? then Some((input.uuid, input.key))
    else if d.nextKey.None? then None
    else Some((d.request.value.uuid, d.nextKey.value))
  }

  /** From the answer on, an uninterrupted process installs the certificate and clears the renewal. */
  lemma InstallationCompletes(p: Process, input: Input)
    requires p.step.WritingIssuance?
    ensures var done := Steps(p, input, 7);
      && done.step == Stopped
      && done.disk == p.disk.(ca := Some(p.step.issuance.trust), key := Some(p.step.key),
                              certificate := Some(p.step.issuance.certificate), request := None, nextKey := None, issuance := None)
  {
    assert Steps(p, input, 1) == Advance(p, input);
    assert Steps(p, input, 2) == Advance(Steps(p, input, 1), input);
    assert Steps(p, input, 3) == Advance(Steps(p, input, 2), input);
    assert Steps(p, input, 4) == Advance(Steps(p, input, 3), input);
    assert Steps(p, input, 5) == Advance(Steps(p, input, 4), input);
    assert Steps(p, input, 6) == Advance(Steps(p, input, 5), input);
  }

  /** A renewal starts exactly when it is due, nothing it needs is missing and the certificate is still valid. */
  lemma RenewalStartsIff(d: Disk, input: Input)
    requires d.issuance.None? && Matched(d)
    ensures Start(d, input).step != Stopped <==>
      d.credential.Some? && d.ca.Some? && !input.expired && input.due && (d.request.Some? ==> d.nextKey.Some?)
    ensures Start(d, input).disk == d
  {
  }

  /** An answer is taken exactly when it names the request, certifies its key and is acceptable. */
  lemma AnswerTakenIff(d: Disk, key: nat, uuid: nat, input: Input)
    ensures var p := Advance(Process(d, Renewing(key, uuid)), input);
      && p.disk == d
      && (p.step != Stopped <==>
            && input.answer.Some? && input.answer.value.uuid == uuid
            && input.answer.value.certificate.key == key && input.answer.value.sound)
  {
  }

  /** A due renewal reaches the backend with the pair on disk if there is one, and otherwise a fresh one. */
  lemma RenewalAsks(d: Disk, input: Input) returns (n: nat)
    requires d.issuance.None? && Matched(d) && d.credential.Some? && d.ca.Some?
    requires input.due && !input.expired && RenewalPair(d, input).Some?
    ensures var p := Steps(Process(d, Stopped), input, n); var (uuid, key) := RenewalPair(d, input).value;
      && p.step == Renewing(key, uuid) && p.disk == d.(nextKey := Some(key), request := Some(Request(uuid)))
  {
    var p := Process(d, Stopped);
    assert Steps(p, input, 1) == Advance(p, input);
    if d.request.Some? {
      n := 1;
    } else {
      n := 3;
      assert Steps(p, input, 2) == Advance(Steps(p, input, 1), input);
      assert Steps(p, input, 3) == Advance(Steps(p, input, 2), input);
    }
  }

  /** A due renewal with a valid answer ends with the new certificate, its key and its trust installed. */
  lemma RenewalCompletes(d: Disk, input: Input) returns (n: nat)
    requires d.issuance.None? && Matched(d) && d.credential.Some? && d.ca.Some?
    requires input.due && !input.expired && RenewalPair(d, input).Some?
    requires var (uuid, key) := RenewalPair(d, input).value; input.answer.Some? && Validates(input.answer.value, uuid, key)
    ensures var done := Steps(Process(d, Stopped), input, n); var (uuid, key) := RenewalPair(d, input).value;
      && done.step == Stopped && Matched(done.disk)
      && done.disk == d.(ca := Some(input.answer.value.trust), key := Some(key), certificate := Some(input.answer.value.certificate),
                         request := None, nextKey := None, issuance := None)
  {
    var p := Process(d, Stopped);
    var m := RenewalAsks(d, input);
    assert Steps(p, input, m + 1) == Advance(Steps(p, input, m), input);
    InstallationCompletes(Steps(p, input, m + 1), input);
    StepsAppend(p, input, m + 1, 7);
    n := m + 1 + 7;
  }

  /** From its request on, an uninterrupted enrollment installs the answered certificate and trust. */
  lemma AnsweredEnrollment(p: Process, input: Input)
    requires p.step.Enrolling? && p.disk.key.Some?
    requires input.answer.Some? && Validates(input.answer.value, p.step.uuid, p.disk.key.value)
    ensures Steps(p, input, 3) ==
      Process(p.disk.(ca := Some(input.answer.value.trust), certificate := Some(input.answer.value.certificate)), Stopped)
  {
    assert Steps(p, input, 1) == Advance(p, input);
    assert Steps(p, input, 2) == Advance(Steps(p, input, 1), input);
  }

  lemma EnrollmentAsks(d: Disk, input: Input)
    requires d.issuance.None? && d.certificate.None? && d.enrollment.None?
    ensures var p := Steps(Process(d, Stopped), input, 4);
      && p.step == Enrolling(input.uuid)
      && p.disk == d.(ca := if d.ca.Some? then d.ca else Some(input.ca), key := Some(input.key),
                      credential := Some(input.credential), enrollment := Some(Request(input.uuid)))
  {
    var p := Process(d, Stopped);
    assert Steps(p, input, 1) == Advance(p, input);
    assert Steps(p, input, 2) == Advance(Steps(p, input, 1), input);
    assert Steps(p, input, 3) == Advance(Steps(p, input, 2), input);
  }

  /** A first enrollment with a valid answer ends with a matching certificate and its trust installed. */
  lemma EnrollmentCompletes(d: Disk, input: Input)
    requires d.issuance.None? && d.certificate.None? && d.enrollment.None?
    requires input.answer.Some? && Validates(input.answer.value, input.uuid, input.key)
    ensures var done := Steps(Process(d, Stopped), input, 7);
      && done.step == Stopped && Matched(done.disk)
      && done.disk == d.(ca := Some(input.answer.value.trust), key := Some(input.key), credential := Some(input.credential),
                         certificate := Some(input.answer.value.certificate), enrollment := Some(Request(input.uuid)))
  {
    EnrollmentAsks(d, input);
    AnsweredEnrollment(Steps(Process(d, Stopped), input, 4), input);
    StepsAppend(Process(d, Stopped), input, 4, 3);
  }

  /** An interrupted enrollment goes on with the key and request on disk. */
  lemma EnrollmentResumes(d: Disk, input: Input)
    requires d.issuance.None? && d.certificate.None? && d.enrollment.Some? && d.key.Some? && d.credential.Some?
    requires input.answer.Some? && Validates(input.answer.value, d.enrollment.value.uuid, d.key.value)
    ensures var done := Steps(Process(d, Stopped), input, 4);
      && done.step == Stopped && Matched(done.disk)
      && done.disk == d.(ca := Some(input.answer.value.trust), certificate := Some(input.answer.value.certificate))
  {
    var p := Process(d, Stopped);
    assert Steps(p, input, 1) == Advance(p, input);
    AnsweredEnrollment(Steps(p, input, 1), input);
    StepsAppend(p, input, 1, 3);
  }

  /** So whatever a crash left behind, a restart always ends with a matching pair. */
  lemma MismatchIsRepaired(p: Process, events: seq<Event>, input: Input)
    requires Consistent(p) && Run(p, events).disk.certificate.Some? && !Matched(Run(p, events).disk)
    ensures Matched(Steps(Process(Run(p, events).disk, Stopped), input, 4).disk)
  {
    CrashSafe(p, events);
    RecoveryRestores(Run(p, events).disk, input);
  }

  // ------------------------------------------------------------------ the cleanup window

  /** An issuance whose request or key has already been removed. */
  predicate Stranded(d: Disk) {
    d.issuance.Some? && (d.request.None? || d.nextKey.None?)
  }

  /** A restart makes progress on a stored issuance exactly when the whole renewal is there and valid. */
  lemma RecoveryFailsIff(d: Disk, input: Input)
    requires d.issuance.Some?
    ensures Start(d, input).step == Stopped <==> !Repairable(d)
    ensures Stranded(d) ==> !Repairable(d)
  {
  }

  /** A stranded disk never changes again: every restart stops at the incomplete renewal. */
  lemma {:induction false} StrandedForever(d: Disk, events: seq<Event>)
    requires Stranded(d)
    ensures Run(Process(d, Stopped), events) == Process(d, Stopped)
    decreases |events|
  {
    if events != [] {
      assert Next(Process(d, Stopped), events[0]) == Process(d, Stopped);
      StrandedForever(d, events[1..]);
    }
  }

  lemma StepsAreRuns(p: Process, input: Input, n: nat) returns (events: seq<Event>)
    ensures Run(p, events) == Steps(p, input, n)
  {
    events := [];
    var i := 0;
    while i < n
      invariant i <= n && Run(p, events) == Steps(p, input, i)
    {
      RunAppend(p, events, Advances(input));
      events := events + [Advances(input)];
      i := i + 1;
    }
  }

  lemma {:induction false} RunAppend(p: Process, events: seq<Event>, e: Event)
    ensures Run(p, events + [e]) == Next(Run(p, events), e)
    decreases |events|
  {
    if events == [] {
      assert Run(p, [e]) == Run(Next(p, e), [e][1..]);
    } else {
      RunAppend(Next(p, events[0]), events[1..], e);
      assert (events + [e])[1..] == events[1..] + [e];
    }
  }

  /** And it is reachable: a crash between removing the request and removing the issuance. */
  lemma CleanupCanStrand(d: Disk, input: Input) returns (events: seq<Event>)
    requires Repairable(d)
    ensures Stranded(Run(Process(d, Stopped), events).disk) && Run(Process(d, Stopped), events).step == Stopped
    ensures Matched(Run(Process(d, Stopped), events).disk)
  {
    var p0 := Process(d, Stopped);
    RecoveryRestores(d, input);
    var before := StepsAreRuns(p0, input, 5);
    assert Steps(p0, input, 5) == Advance(Steps(p0, input, 4), input);
    Removing(p0, input);
    events := before + [Crash];
    RunAppend(p0, before, Crash);
  }

  lemma Removing(p: Process, input: Input)
    requires p.step == Stopped && Repairable(p.disk)
    ensures var q := Steps(p, input, 5); q.disk.request.None? && q.disk.issuance.Some? && Matched(q.disk)
  {
    assert Steps(p, input, 1) == Advance(p, input);
    assert Steps(p, input, 2) == Advance(Steps(p, input, 1), input);
    assert Steps(p, input, 3) == Advance(Steps(p, input, 2), input);
    assert Steps(p, input, 4) == Advance(Steps(p, input, 3), input);
  }

  // ------------------------------------------------------------------ the client

  ghost predicate AllSafe(trail: seq<Disk>) {
    forall i :: 0 <= i < |trail| ==> Safe(trail[i])
  }

  class Client {
    var disk: Disk
    ghost var trail: seq<Disk>  // every disk a stop could leave behind

    /** One atomic replacement or removal. */
    method Put(after: Disk)
      requires Safe(after) && AllSafe(trail)
      modifies this
      ensures disk == after && trail == old(trail) + [after] && AllSafe(trail)
    {
      disk := after;
      trail := trail + [after];
    }

    /** Trust first, then the key, then its certificate. */
    method InstallRenewal(uuid: nat, issuance: Issuance, key: nat) returns (ok: bool)
      requires AllSafe(trail) && disk.request == Some(Request(uuid)) && disk.nextKey == Some(key) && disk.issuance == Some(issuance)
      modifies this
      ensures AllSafe(trail) && (ok <==> Validates(issuance, uuid, key))
      ensures disk == if ok then
        old(disk).(ca := Some(issuance.trust), key := Some(key), certificate := Some(issuance.certificate)) else old(disk)
    {
      ok := Validates(issuance, uuid, key);
      if ok {
        Put(disk.(ca := Some(issuance.trust)));
        Put(disk.(key := Some(key)));
        Put(disk.(certificate := Some(issuance.certificate)));
      }
    }

    method RemoveRenewal()
      requires AllSafe(trail) && Matched(disk)
      modifies this
      ensures AllSafe(trail) && disk == old(disk).(request := None, nextKey := None, issuance := None)
    {
      Put(disk.(request := None));
      Put(disk.(nextKey := None));
      Put(disk.(issuance := None));
    }

    /** Finish a renewal that a stop interrupted; fails exactly on an incomplete or invalid one. */
    method RecoverPendingRenewal() returns (r: Result<bool>)
      requires AllSafe(trail) && Safe(disk)
      modifies this
      ensures AllSafe(trail) && Safe(disk)
      ensures r == Ok(false) <==> old(disk).issuance.None?
      ensures r.Err? <==> old(disk).issuance.Some? && !Repairable(old(disk))
      ensures r == Ok(true) ==> Matched(disk) && disk == old(disk).(ca := Some(old(disk).issuance.value.trust),
        key := old(disk).nextKey, certificate := Some(old(disk).issuance.value.certificate),
        request := None, nextKey := None, issuance := None)
      ensures r != Ok(true) ==> disk == old(disk)
    {
      if disk.issuance.None? { return Ok(false); }
      if disk.request.None? || disk.nextKey.None? { return Err("Incomplete persisted certificate renewal"); }
      var installed := InstallRenewal(disk.request.value.uuid, disk.issuance.value, disk.nextKey.value);
      if !installed { return Err("Certificate key mismatch"); }
      RemoveRenewal();
      return Ok(true);
    }

    /** Renew an installed certificate; `input` supplies what lies outside the disk. */
    method RenewInstalled(input: Input) returns (r: Result<bool>)
      requires AllSafe(trail) && disk.issuance.None? && Matched(disk)
      modifies this
      ensures AllSafe(trail) && Matched(disk)
      ensures r == Ok(true) ==> disk.request.None? && disk.nextKey.None? && disk.issuance.None?
      ensures r == Ok(true) <==>
        && input.due && RenewalPair(old(disk), input).Some? && input.answer.Some?
        && Validates(input.answer.value, RenewalPair(old(disk), input).value.0, RenewalPair(old(disk), input).value.1)
      ensures r == Ok(false) <==> !input.due
      ensures r == Ok(true) ==> disk == old(disk).(ca := Some(input.answer.value.trust),
        key := Some(RenewalPair(old(disk), input).value.1), certificate := Some(input.answer.value.certificate),
        request := None, nextKey := None, issuance := None)
      ensures r != Ok(true) ==> disk.certificate == old(disk).certificate && disk.key == old(disk).key && disk.issuance.None?
    {
      if !input.due { return Ok(false); }
      if disk.request.Some? {
        if disk.nextKey.None? { return Err("Persisted renewal request has no private key"); }
      } else {
        Put(disk.(nextKey := Some(input.key)));
        Put(disk.(request := Some(Request(input.uuid))));
      }
      var uuid, key := disk.request.value.uuid, disk.nextKey.value;
      if input.answer.None? || !Validates(input.answer.value, uuid, key) { return Err("Certificate response rejected"); }
      Put(disk.(issuance := Some(input.answer.value)));
      var installed := InstallRenewal(uuid, input.answer.value, key);
      RemoveRenewal();
      return Ok(true);
    }
  }
}
