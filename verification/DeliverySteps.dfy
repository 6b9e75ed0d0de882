/**
 Every transaction keeps the publication columns consistent with the installed pages, and only
 the holder of the standing lease can change a leased row.
 */
module DeliverySteps {
  import opened Catalogs
  import opened HistoryBatches
  import opened HistoryTables
  import opened HistoryConfiguration
  import opened HistoryCapture
  import opened HistoryDelivery
  import opened DirectoryProofs
  import opened DirectorySteps
  import opened DeliveryProofs

  /** What a transaction that does not install pages or take claims does to publication columns. */
  ghost predicate Restarted(batches: map<BatchKey, BatchRow>, after: map<BatchKey, BatchRow>) {
    forall bk {:trigger after[bk].imp} :: bk in after ==>
      || (bk in batches && after[bk].imp == batches[bk].imp)
      || (bk.fromId > 0 && after[bk].imp == NEW_IMPORT)
      || (bk.fromId > 0 && bk in batches && after[bk].imp == RewrittenImport(batches[bk].imp))
  }

  lemma RestartedImports(batches: map<BatchKey, BatchRow>, after: map<BatchKey, BatchRow>)
    requires Imports(batches) && Restarted(batches, after)
    ensures Imports(after)
  {
    forall bk | bk in after ensures ImportRow(bk.fromId, after[bk].imp) {
      if bk in batches && after[bk].imp == batches[bk].imp {
        assert ImportRow(bk.fromId, batches[bk].imp);
      } else if after[bk].imp == NEW_IMPORT {
        NewImportOk(bk.fromId);
      } else {
        RewrittenOk(bk.fromId, batches[bk].imp);
      }
    }
  }

  lemma RestartedReceipts(batches: map<BatchKey, BatchRow>, after: map<BatchKey, BatchRow>)
    requires Receipts(batches) && Restarted(batches, after)
    ensures Receipts(after)
  {
    forall bk | bk in after ensures OneReceipt(after[bk].imp) {
      if bk in batches && after[bk].imp == batches[bk].imp {
        assert OneReceipt(batches[bk].imp);
      }
    }
  }

  lemma RestartedLeases(batches: map<BatchKey, BatchRow>, after: map<BatchKey, BatchRow>)
    requires Restarted(batches, after)
    ensures LeaseKept(batches, after)
  {
  }

  lemma ApplyRestarts(db: Db, q: Quantum, fetched: seq<User>)
    requires Bodies(db.batches)
    ensures Restarted(db.batches, ApplyRefresh(db, q, fetched).batches)
  {
    if QuantumCurrent(db, q) && BatchPhase(q.row) && q.batch.Some? {
      RewriteRestarts(db, q);
    }
  }

  lemma RewriteRestarts(db: Db, q: Quantum)
    requires Bodies(db.batches) && q.key in db.scopes && q.batch.Some?
    ensures Restarted(db.batches, RewriteBatch(db, q).batches)
  {
    var bk := BatchKey(q.key, q.batch.value.fromId);
    assert bk in db.batches ==> BodyRow(bk, db.batches[bk]);
  }

  lemma ReconcileScopeRestarts(db: Db, k: ScopeKey, legacyMatches: bool, legacyGeneration: nat)
    requires Bodies(db.batches)
    ensures var d := ReconcileScope(db, k, legacyMatches, legacyGeneration);
      && Restarted(db.batches, d.batches)
  {
    var rows := Rows(db, k);
    if k in db.scopes && db.scopes[k].fingerprint == Fingerprint(rows) {
      RestampTables(db, k, rows);
      ResetRestarts(db.batches, k);
    }
  }

  lemma ResetRestarts(batches: map<BatchKey, BatchRow>, k: ScopeKey)
    requires Bodies(batches)
    ensures Restarted(batches, ResetReceipts(batches, k))
  {
    forall bk | bk in batches ensures bk.fromId > 0 {
      assert BodyRow(bk, batches[bk]);
    }
  }

  lemma SaveRestarts(db: Db, c: Capture, job: JobKey, held: bool)
    requires WellFormed(c.incoming)
    ensures Restarted(db.batches, SaveCapture(db, c, job, held).batches)
  {
  }

  // ------------------------------------------------------------------ publication transactions

  lemma SetImports(db: Db, bk: BatchKey, imp: Import)
    requires Imports(db.batches) && bk in db.batches && ImportRow(bk.fromId, imp)
    ensures Imports(SetImport(db, bk, imp).batches)
  {
    var d := SetImport(db, bk, imp);
    forall o | o in d.batches ensures ImportRow(o.fromId, d.batches[o].imp) {
      assert o != bk ==> ImportRow(o.fromId, db.batches[o].imp);
    }
  }

  lemma SetReceipts(db: Db, bk: BatchKey, imp: Import)
    requires Receipts(db.batches) && bk in db.batches && OneReceipt(imp)
    ensures Receipts(SetImport(db, bk, imp).batches)
  {
    var d := SetImport(db, bk, imp);
    forall o | o in d.batches ensures OneReceipt(d.batches[o].imp) {
      assert o != bk ==> OneReceipt(db.batches[o].imp);
    }
  }

  lemma SetLeases(db: Db, bk: BatchKey, imp: Import)
    requires bk in db.batches && imp.lease.None?
    ensures LeaseKept(db.batches, SetImport(db, bk, imp).batches)
  {
  }

  lemma ReleaseImports(db: Db, c: Claim, leases: nat, status: Status, receipt: Option<Uuid>, reset: bool)
    requires Imports(db.batches) && ClaimRow(db.batches, c, leases) && status != Complete
    ensures Imports(Release(db, c, status, receipt, reset).batches)
    ensures LeaseKept(db.batches, Release(db, c, status, receipt, reset).batches)
  {
    if Leased(db, c) {
      var imp := db.batches[c.key].imp;
      assert ImportRow(c.key.fromId, imp);
      ReleasedOk(c.key.fromId, imp, status, receipt, reset);
      SetImports(db, c.key, ReleasedImport(imp, status, receipt, reset));
      SetLeases(db, c.key, ReleasedImport(imp, status, receipt, reset));
    }
  }

  lemma FailTables(db: Db, c: Claim, receipt: Option<Uuid>, code: Code, live: bool)
    ensures var d := Fail(db, c, receipt, code, live);
      || d.batches == Release(db, c, Pending, None, false).batches
      || d.batches == Release(db, c, Failed, receipt, false).batches
  {
  }

  lemma SavePageImports(db: Db, c: Claim, leases: nat, receipt: Uuid, next: Option<string>, live: bool)
    requires Imports(db.batches) && ClaimRow(db.batches, c, leases)
    ensures Imports(SavePage(db, c, receipt, next, live).batches)
    ensures LeaseKept(db.batches, SavePage(db, c, receipt, next, live).batches)
  {
    if Installable(db, c, live) {
      var imp := db.batches[c.key].imp;
      assert ImportRow(c.key.fromId, imp);
      PageOk(imp, c, receipt, next);
      SetImports(db, c.key, PageImport(imp, c, receipt, next));
      SetLeases(db, c.key, PageImport(imp, c, receipt, next));
    }
  }

  lemma ClaimImports(db: Db, bk: BatchKey, lease: Uuid, allowAdmission: bool)
    requires Imports(db.batches) && bk in db.batches && db.batches[bk].imp.status == Pending
    ensures Imports(TakeClaim(db, bk, lease, allowAdmission).batches)
  {
    var imp := db.batches[bk].imp;
    assert ImportRow(bk.fromId, imp);
    ClaimedOk(bk.fromId, imp, SourcesFor(db, bk.scope), lease, allowAdmission);
    SetImports(db, bk, ClaimedImport(imp, SourcesFor(db, bk.scope), lease, allowAdmission));
  }

  lemma ClaimReceipts(db: Db, bk: BatchKey, lease: Uuid, allowAdmission: bool)
    requires Receipts(db.batches) && bk in db.batches
    ensures Receipts(TakeClaim(db, bk, lease, allowAdmission).batches)
  {
    var imp := db.batches[bk].imp;
    assert OneReceipt(imp);
    ClaimedReceipt(imp, SourcesFor(db, bk.scope), lease, allowAdmission);
    SetReceipts(db, bk, ClaimedImport(imp, SourcesFor(db, bk.scope), lease, allowAdmission));
  }

  /** A fresh lease leaves every earlier claim on the row without effect. */
  lemma ClaimClaims(db: Db, bk: BatchKey, lease: Uuid, allowAdmission: bool, jobsComplete: bool, claims: set<Claim>)
    requires Claims(db.batches, claims, lease) && Claimable(db, bk, allowAdmission, jobsComplete)
    ensures var item := ClaimItem(db, bk, lease, allowAdmission);
      Claims(TakeClaim(db, bk, lease, allowAdmission).batches,
             if item.Some? then claims + {item.value} else claims, lease + 1)
  {
    var d := TakeClaim(db, bk, lease, allowAdmission);
    var item := ClaimItem(db, bk, lease, allowAdmission);
    forall c | c in claims ensures ClaimRow(d.batches, c, lease + 1) {
      assert ClaimRow(db.batches, c, lease);
    }
    if item.Some? {
      assert ClaimRow(d.batches, item.value, lease + 1);
    }
  }
}
