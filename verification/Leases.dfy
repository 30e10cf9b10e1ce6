/**
 Lease exclusion over whole runs. Grants are kept in a ledger that reads only the events: a claim
 issues one, a worker's own report gives its grants up, a sweep revokes those that ran out. The
 ledger and the table always agree, so no job is ever granted twice at once.
 */
module Leases {
  import opened Jobs
  import opened Queue
  import opened Reachable
  import opened Attempts
  import opened Examples

  // `issued` is the position of the claim that made the grant.
  datatype Grant = Grant(worker: string, expires: Time, issued: nat)

  predicate ReportsOn(e: Event, id: Id, worker: string) {
    (e.Settle? || e.Requeue? || e.Retry?) && e.id == id && e.worker == worker
  }

  predicate Ends(e: Event, id: Id, g: Grant) {
    ReportsOn(e, id, g.worker) || (e.Reap? && id in e.recovered && g.expires < e.seen)
  }

  function GrantAt(t: Run, k: nat, id: Id): Grant
    requires k < |t.events| && ClaimsJob(t.events[k], id)
  {
    Grant(t.events[k].worker, t.events[k].taken[id] + t.events[k].lease, k)
  }

  function LedgerAfter(t: Run, i: nat, id: Id, gs: set<Grant>): set<Grant>
    requires i < |t.events|
  {
    var standing := set g | g in gs && !Ends(t.events[i], id, g);
    if ClaimsJob(t.events[i], id) then standing + {GrantAt(t, i, id)} else standing
  }

  // The grants on job `id` outstanding after `n` events.
  function Ledger(t: Run, n: nat, id: Id): set<Grant>
    requires n <= |t.events|
  {
    if n == 0 then {} else LedgerAfter(t, n - 1, id, Ledger(t, n - 1, id))
  }

  // A claimed row has exactly one grant outstanding, to its claimed_by and until its
  // lease_expires_at; any other row, and any absent one, has none.
  ghost predicate Agree(gs: set<Grant>, row: Option<Row>) {
    if row.Some? && row.value.status.Claimed? then
      && row.value.claimedBy.Some? && row.value.lease.Some?
      && exists k :: gs == {Grant(row.value.claimedBy.value, row.value.lease.value, k)}
    else gs == {}
  }

  lemma AgreeWhileClaimed(t: Run, i: nat, id: Id, r: Row, gs: set<Grant>)
    requires IsRun(t) && i < |t.events| && RowAt(t, i, id) == Some(r) && r.status.Claimed? && RowInv(r, t.states[i].now)
    requires Agree(gs, Some(r))
    ensures Agree(LedgerAfter(t, i, id, gs), RowAt(t, i + 1, id))
  {
    RowStep(t, i, id);
    var e := t.events[i];
    var k :| gs == {Grant(r.claimedBy.value, r.lease.value, k)};
    var g := Grant(r.claimedBy.value, r.lease.value, k);
    assert !ClaimsJob(e, id);
    if Ends(e, id, g) {
      assert LedgerAfter(t, i, id, gs) == {};
    } else {
      assert LedgerAfter(t, i, id, gs) == {g};
    }
  }

  lemma AgreeWhileFree(t: Run, i: nat, id: Id)
    requires IsRun(t) && i < |t.events|
    requires RowAt(t, i, id).Some? ==> !RowAt(t, i, id).value.status.Claimed?
    ensures Agree(LedgerAfter(t, i, id, {}), RowAt(t, i + 1, id))
  {
    RowStep(t, i, id);
    if ClaimsJob(t.events[i], id) {
      assert LedgerAfter(t, i, id, {}) == {GrantAt(t, i, id)};
    }
  }

  lemma AgreeKept(t: Run, i: nat, id: Id, gs: set<Grant>)
    requires IsRun(t) && i < |t.events| && Agree(gs, RowAt(t, i, id))
    ensures Agree(LedgerAfter(t, i, id, gs), RowAt(t, i + 1, id))
  {
    if RowAt(t, i, id).Some? && RowAt(t, i, id).value.status.Claimed? {
      RowInvariant(t, i, id);
      AgreeWhileClaimed(t, i, id, RowAt(t, i, id).value, gs);
    } else {
      AgreeWhileFree(t, i, id);
    }
  }

  lemma {:induction false} LedgerMatchesTable(t: Run, n: nat, id: Id)
    requires IsRun(t) && n < |t.states|
    ensures Agree(Ledger(t, n, id), RowAt(t, n, id))
  {
    if n > 0 {
      LedgerMatchesTable(t, n - 1, id);
      AgreeKept(t, n - 1, id, Ledger(t, n - 1, id));
    }
  }

  // A grant stands until its holder reports or a sweep finds it expired.
  lemma {:induction false} GrantStands(t: Run, k: nat, n: nat, id: Id)
    requires IsRun(t) && k < n <= |t.events| && ClaimsJob(t.events[k], id)
    ensures GrantAt(t, k, id) in Ledger(t, n, id) || exists m | k < m < n :: Ends(t.events[m], id, GrantAt(t, k, id))
    decreases n
  {
    if k + 1 < n {
      GrantStands(t, k, n - 1, id);
      if GrantAt(t, k, id) in Ledger(t, n - 1, id) && GrantAt(t, k, id) !in Ledger(t, n, id) {
        assert Ends(t.events[n - 1], id, GrantAt(t, k, id));
      }
    }
  }

  // Nobody obtains a job twice, or from somebody else, before the first lease has ended, unless
  // its holder reported in between.
  lemma LeaseExclusion(t: Run, k: nat, n: nat, id: Id)
    requires IsRun(t) && k < n < |t.events|
    requires ClaimsJob(t.events[k], id) && ClaimsJob(t.events[n], id)
    ensures (exists m | k < m < n :: ReportsOn(t.events[m], id, t.events[k].worker))
         || GrantAt(t, k, id).expires < t.states[n].now
  {
    GrantStands(t, k, n, id);
    LedgerMatchesTable(t, n, id);
    RowStep(t, n, id);
    var m :| k < m < n && Ends(t.events[m], id, GrantAt(t, k, id));
    RowStep(t, m, id);
    ClockAdvances(t, m + 1, n);
  }

  /* Which claim a report ends. The guard names the worker, not the claim. */

  lemma {:induction false} CountGrows(t: Run, i: nat, n: nat, id: Id)
    requires i <= n <= |t.events|
    ensures ClaimCount(t, i, id) <= ClaimCount(t, n, id)
    decreases n
  {
    if i < n { CountGrows(t, i, n - 1, id); }
  }

  // An outstanding grant was issued by the job's latest claim.
  lemma {:induction false} LatestClaimHolds(t: Run, n: nat, id: Id, g: Grant)
    requires IsRun(t) && n < |t.states| && g in Ledger(t, n, id)
    ensures g.issued < n && ClaimsJob(t.events[g.issued], id) && g == GrantAt(t, g.issued, id)
    ensures ClaimCount(t, n, id) == ClaimCount(t, g.issued + 1, id)
  {
    LedgerMatchesTable(t, n, id);
    if ClaimsJob(t.events[n - 1], id) {
      assert GrantAt(t, n - 1, id) in Ledger(t, n, id);
    } else {
      LatestClaimHolds(t, n - 1, id, g);
    }
  }

  // A report that takes effect ends every grant of the job. It ends the reporting worker's claim at
  // `k` if and only if the job was not claimed since, that is, if and only if the row's attempt is
  // still the one that claim was given.
  lemma ReportEndsClaim(t: Run, k: nat, n: nat, id: Id)
    requires IsRun(t) && k < n < |t.events| && ClaimsJob(t.events[k], id)
    requires ReportsOn(t.events[n], id, t.events[k].worker)
    requires RowAt(t, n, id).Some? && Holds(RowAt(t, n, id).value, t.events[k].worker)
    ensures Ledger(t, n, id) != {} && Ledger(t, n + 1, id) == {}
    ensures GrantAt(t, k, id) in Ledger(t, n, id) <==> ClaimCount(t, n, id) == ClaimCount(t, k + 1, id)
    ensures RowAt(t, k + 1, id).Some?
    ensures GrantAt(t, k, id) in Ledger(t, n, id) <==>
      RowAt(t, n, id).value.attempt == RowAt(t, k + 1, id).value.attempt
  {
    LedgerMatchesTable(t, n, id);
    var g :| g in Ledger(t, n, id);
    LatestClaimHolds(t, n, id, g);
    if g.issued < k { CountGrows(t, g.issued + 1, k, id); }
    if k < g.issued { CountGrows(t, k + 1, g.issued, id); }
    LedgerMatchesTable(t, n + 1, id);
    RowStep(t, n, id);
    RowStep(t, k, id);
    AttemptCountsClaims(t, n, id);
    AttemptCountsClaims(t, k + 1, id);
  }

  // It can be another one: a worker loses a job to the sweep and takes it back, and what it reports
  // on its first run of the job settles the second.
  function LateReportRun(): Run {
    var job := Submission(1, 2);
    var r1 := InsertRow(job, 0);
    var r2 := ClaimRow(r1, "w", 1, 0);
    var r3 := ReapRow(r2, Stamp(2, 2));
    var r4 := ClaimRow(r3, "w", 1, 2);
    Run([EMPTY, Single(r1, 0), Single(r2, 0), Single(r3, 2), Single(r4, 2),
         Single(SettleRow(r4, Success(None), Stamp(2, 2)), 2)],
        [Enqueue(job, 0, 0), Take("w", 0), SweepUp(2), Take("w", 2), Settle(1, "w", Success(None), Stamp(2, 2), 2)])
  }

  lemma LateReportRunBegins()
    ensures var t := LateReportRun(); StepAt(t, 0) && StepAt(t, 1) && StepAt(t, 2)
  {
    var t := LateReportRun();
    EnqueueStep(Submission(1, 2));
    TakeStep(t.states[1].rows[1], "w", 0);
    SweepStep(t.states[2].rows[1], 0, 2);
  }

  lemma LateReportRunEnds()
    ensures var t := LateReportRun(); StepAt(t, 3) && StepAt(t, 4)
  {
    var t := LateReportRun();
    TakeStep(t.states[3].rows[1], "w", 2);
    SingleStep(t.states[4].rows[1], 2, t.events[4]);
  }

  lemma LateReportRunIsRun()
    ensures IsRun(LateReportRun())
  {
    LateReportRunBegins();
    LateReportRunEnds();
    FiveSteps(LateReportRun());
  }

  lemma LateReportEndsSecondClaim()
    ensures var t := LateReportRun();
      && IsRun(t) && ClaimsJob(t.events[1], 1) && ClaimsJob(t.events[3], 1) && t.events[1].worker == t.events[3].worker
      && Ledger(t, 4, 1) == {GrantAt(t, 3, 1)} && Ledger(t, 5, 1) == {}
      && RowAt(t, 5, 1).Some? && RowAt(t, 5, 1).value.status.Succeeded?
  {
    var t := LateReportRun();
    LateReportRunIsRun();
    LedgerMatchesTable(t, 4, 1);
    LedgerMatchesTable(t, 5, 1);
    assert ClaimsJob(t.events[3], 1) && GrantAt(t, 3, 1) in LedgerAfter(t, 3, 1, Ledger(t, 3, 1));
  }
}
