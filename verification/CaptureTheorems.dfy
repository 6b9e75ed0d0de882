/**
 No capture is ever lost by what runs beside it.
 */
module CaptureTheorems {
  import opened Catalogs
  import opened HistoryBatches
  import opened HistoryTables
  import opened FailureReports
  import opened HistoryConfiguration
  import opened HistoryCapture
  import opened HistoryDelivery
  import opened HistoryRuns
  import opened DirectoryProofs
  import opened DeliverySteps
  import opened HistoryInvariant
  import opened HistoryTheorems
  import opened ReconcileTheorems

  /** The row is still there and has at least the captures it had. */
  ghost predicate CapturesKept(db: Db, d: Db, bk: BatchKey) {
    bk in db.batches ==> bk in d.batches && db.batches[bk].captures <= d.batches[bk].captures
  }

  /** Not a reconciliation that starts the range's scope over. */
  predicate KeepsSources(s: State, e: Event, bk: BatchKey) {
    e.Reconciled? ==> Preserved(s.db, bk.scope, s.db.legacy == Some(s.db.desiredLegacy))
  }

  lemma SaveKeepsCaptures(db: Db, c: Capture, job: JobKey, held: bool, bk: BatchKey)
    ensures CapturesKept(db, SaveCapture(db, c, job, held), bk)
  {
  }

  lemma PublishingKeepsCaptures(s: State, e: Event, bk: BatchKey)
    requires Enabled(s, e) && (e.ClaimBatch? || e.ReleaseClaim? || e.FailClaim? || e.InstallPage?)
    ensures CapturesKept(s.db, Next(s, e).db, bk)
  {
    if e.FailClaim? { FailTables(s.db, e.claim, e.receipt, e.code, e.live); }
  }

  lemma QuietKeepsCaptures(s: State, e: Event, bk: BatchKey)
    requires Enabled(s, e) && !(e.Apply? || e.Reconciled? || e.Save?)
    requires !(e.ClaimBatch? || e.ReleaseClaim? || e.FailClaim? || e.InstallPage?)
    ensures CapturesKept(s.db, Next(s, e).db, bk)
  {
    match e
    case DirectoryChanged(realm) => if realm.Some? { InvalidateTables(s.db, realm.value); }
    case Defer(q, code) => if DeferCurrent(s.db, q) { DeferTables(s.db, q, code); }
    case FlushReport(k, candidate, enabled, callback) => FlushTables(s.db, k, candidate, enabled, callback);
    case _ =>
  }

  lemma StepKeepsCaptures(s: State, e: Event, bk: BatchKey)
    requires Inv(s) && bk in s.db.batches && KeepsSources(s, e, bk)
    ensures CapturesKept(s.db, Next(s, e).db, bk)
  {
    if Enabled(s, e) {
      if e.Reconciled? {
        ReconcileKeepsCaptures(s.db, e.keys, bk);
      } else if e.Apply? {
        RewriteKeepsCaptures(s, e.quantum, e.fetched, bk);
      } else if e.Save? {
        SaveKeepsCaptures(s.db, e.capture, e.job, e.held, bk);
      } else if e.ClaimBatch? || e.ReleaseClaim? || e.FailClaim? || e.InstallPage? {
        PublishingKeepsCaptures(s, e, bk);
      } else {
        QuietKeepsCaptures(s, e, bk);
      }
    }
  }

  predicate KeepsSourcesThroughout(s: State, events: seq<Event>, bk: BatchKey)
    decreases |events|
  {
    events == [] || (KeepsSources(s, events[0], bk) && KeepsSourcesThroughout(Next(s, events[0]), events[1..], bk))
  }

  /**
   Whatever interleaving of refreshes, invalidations, metadata revisions, publication and further
   captures follows, everything captured so far stays captured. Only a reconciliation that does not
   preserve the scope starts a range over.
   */
  lemma {:induction false} NoCaptureIsLost(s: State, events: seq<Event>, bk: BatchKey)
    requires Inv(s) && bk in s.db.batches && KeepsSourcesThroughout(s, events, bk)
    ensures CapturesKept(s.db, Run(s, events).db, bk)
    decreases |events|
  {
    if events != [] {
      StepKeepsCaptures(s, events[0], bk);
      NextInv(s, events[0]);
      NoCaptureIsLost(Next(s, events[0]), events[1..], bk);
    }
  }

  /**
   So an observation saved now is what the stored body answers after any such run, unless the same
   user was observed on that message again.
   */
  lemma ObservationStands(s: State, events: seq<Event>, bk: BatchKey, id: nat, user: nat)
    requires Inv(s) && bk in s.db.batches && KeepsSourcesThroughout(s, events, bk)
    ensures CapturesKept(s.db, Run(s, events).db, bk)
    ensures var before, after := s.db.batches[bk], Run(s, events).db.batches[bk];
      FlagAt(after.body, id, user) ==
        OrElse(LastFlag(after.captures[|before.captures|..], id, user), FlagAt(before.body, id, user))
  {
    NoCaptureIsLost(s, events, bk);
    RunInv(s, events);
    var before, after := s.db.batches[bk], Run(s, events).db.batches[bk];
    var later := after.captures[|before.captures|..];
    assert after.captures == before.captures + later;
    assert BodyRow(bk, before) && BodyRow(bk, after);
    FoldRefinesLog(before.captures, id, user);
    FoldRefinesLog(after.captures, id, user);
    assert Messages(before.body) == Messages(MergeAll(before.captures));
    assert Messages(after.body) == Messages(MergeAll(after.captures));
    LastFlagConcat(before.captures, later, id, user);
  }

  lemma {:induction false} LastFlagConcat(first: seq<Batch>, second: seq<Batch>, id: nat, user: nat)
    ensures LastFlag(first + second, id, user) == OrElse(LastFlag(second, id, user), LastFlag(first, id, user))
  {
    if second == [] {
      assert first + second == first;
    } else {
      LastFlagConcat(first, second[..|second| - 1], id, user);
      assert (first + second)[..|first + second| - 1] == first + second[..|second| - 1];
    }
  }
}
