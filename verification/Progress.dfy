/**
 Progress: a job is recovered rather than lost. It takes a bounded number of rounds, each of which
 attends to the job as it stands at the start, for it to have settled.
 */
module Progress {
  import opened Jobs
  import opened Queue
  import opened Reachable
  import opened Lifecycle
  import opened Attempts
  import opened Dispatch
  import opened Locking
  import opened Contention

  // A sweep that looks after the lease has ended and does not find the row locked.
  predicate SweepFinds(e: Event, id: Id, r: Row) {
    e.Reap? && id !in e.skipped && r.lease.Some? && r.lease.value < e.seen
  }

  predicate Live(row: Option<Row>) {
    row.Some? && !row.value.status.Terminal()
  }

  // Positions [i, m) are a round for the job: while it waits, enough claims serve it; while it is
  // claimed, a sweep finds that claim's lease at an end.
  ghost predicate Attended(t: FineRun, i: nat, m: nat, id: Id, n: nat)
    requires IsFineRun(t) && i <= m <= |t.actions|
  {
    var u := Linearised(t);
    Live(RowAt(u, i, id)) ==>
      var r := RowAt(u, i, id).value;
      if r.status.Pending? then
        && r.runAt < u.states[i].now
        && |Contenders(t.states[i], r.runAt)| <= n * ServedCount(u, i, m, r.kind, n, id)
      else
        exists c | i <= c < m :: SweepFinds(u.events[c], id, r)
  }

  // A claimed row is as it was until its status changes.
  lemma {:induction false} ClaimedStays(u: Run, i: nat, c: nat, id: Id, r: Row)
    requires IsRun(u) && i <= c <= |u.events| && RowAt(u, i, id) == Some(r) && r.status.Claimed?
    requires forall k | i <= k < c :: !ChangesStatus(u, k, id)
    ensures RowAt(u, c, id) == Some(r)
    decreases c
  {
    if i < c {
      ClaimedStays(u, i, c - 1, id, r);
      RowStep(u, c - 1, id);
      RowInvariant(u, c - 1, id);
      assert !ChangesStatus(u, c - 1, id);
    }
  }

  lemma ClaimChangesStatus(u: Run, c: nat, id: Id)
    requires IsRun(u) && c < |u.events| && ClaimsJob(u.events[c], id)
    ensures ChangesStatus(u, c, id)
  {
    RowStep(u, c, id);
  }

  lemma SweepChangesStatus(u: Run, c: nat, id: Id, r: Row)
    requires IsRun(u) && c < |u.events| && RowAt(u, c, id) == Some(r) && r.status.Claimed?
    requires SweepFinds(u.events[c], id, r)
    ensures ChangesStatus(u, c, id)
  {
    RowStep(u, c, id);
    assert id in LapsedIds(u.states[c].rows, u.events[c].seen);
  }

  // Whatever else happens, a round changes a live job's status.
  lemma RoundChangesStatus(t: FineRun, i: nat, m: nat, id: Id, n: nat)
    requires IsFineRun(t) && i <= m <= |t.actions| && Attended(t, i, m, id, n)
    requires Live(RowAt(Linearised(t), i, id))
    ensures exists c | i <= c < m :: ChangesStatus(Linearised(t), c, id)
  {
    var u, r := Linearised(t), RowAt(Linearised(t), i, id).value;
    LinearisedIsRun(t);
    RowInvariant(u, i, id);
    if r.status.Pending? {
      LockedBypass(t, i, m, id, n);
      var c :| i <= c < m && ClaimsJob(u.events[c], id);
      ClaimChangesStatus(u, c, id);
    } else {
      var c :| i <= c < m && SweepFinds(u.events[c], id, r);
      if forall k | i <= k < c :: !ChangesStatus(u, k, id) {
        ClaimedStays(u, i, c, id, r);
        SweepChangesStatus(u, c, id, r);
      }
    }
  }

  lemma StaysPresent(u: Run, i: nat, c: nat, m: nat, id: Id)
    requires IsRun(u) && i <= c <= m < |u.states| && RowAt(u, i, id).Some? && RowAt(u, m, id).Some?
    ensures RowAt(u, c, id).Some?
  {
    RowInvariant(u, i, id);
    ClockAdvances(u, i, c);
    if RowAt(u, c, id).None? { GoneForGood(u, c, m, id); }
  }

  // So it takes the job down the measure.
  lemma RoundDescends(t: FineRun, i: nat, m: nat, id: Id, n: nat)
    requires IsFineRun(t) && i <= m <= |t.actions| && Attended(t, i, m, id, n)
    requires IsRun(Linearised(t)) && NeverOverruns(Linearised(t), m, id)
    requires Live(RowAt(Linearised(t), i, id)) && RowAt(Linearised(t), m, id).Some?
    ensures Measure(RowAt(Linearised(t), m, id).value) < Measure(RowAt(Linearised(t), i, id).value)
  {
    var u := Linearised(t);
    RoundChangesStatus(t, i, m, id, n);
    var c :| i <= c < m && ChangesStatus(u, c, id);
    MeasureOverRun(u, i, c, id);
    MeasureDescends(u, c, id);
    MeasureOverRun(u, c + 1, m, id);
  }

  // Consecutive rounds for the job, between the marks.
  ghost predicate Rounds(t: FineRun, marks: seq<nat>, id: Id, n: nat) {
    && IsFineRun(t)
    && (forall j | 0 <= j < |marks| :: marks[j] <= |t.actions|)
    && (forall j, k | 0 <= j < k < |marks| :: marks[j] <= marks[k])
    && (forall j | 0 < j < |marks| :: Attended(t, marks[j - 1], marks[j], id, n))
  }

  lemma {:induction false} RoundsDescend(t: FineRun, marks: seq<nat>, id: Id, n: nat, j: nat)
    requires Rounds(t, marks, id, n) && j < |marks| && IsRun(Linearised(t))
    requires NeverOverruns(Linearised(t), marks[j], id) && Live(RowAt(Linearised(t), marks[0], id))
    requires Live(RowAt(Linearised(t), marks[j], id))
    ensures var u := Linearised(t);
      Measure(RowAt(u, marks[j], id).value) + j <= Measure(RowAt(u, marks[0], id).value)
  {
    if j > 0 {
      var u := Linearised(t);
      StaysPresent(u, marks[0], marks[j - 1], marks[j], id);
      SettledIsFinal(u, marks[j - 1], marks[j], id);
      RoundsDescend(t, marks, id, n, j - 1);
      RoundDescends(t, marks[j - 1], marks[j], id, n);
    }
  }

  // A job kept within its cap has settled after as many rounds as its measure allows: from its
  // creation, after at most 2 * max_attempts of them.
  lemma JobSettles(t: FineRun, marks: seq<nat>, id: Id, n: nat)
    requires Rounds(t, marks, id, n) && marks != [] && RowAt(Linearised(t), marks[0], id).Some?
    requires IsRun(Linearised(t)) && NeverOverruns(Linearised(t), marks[|marks| - 1], id)
    requires 2 * RowAt(Linearised(t), marks[0], id).value.maxAttempts < |marks|
    ensures exists m | marks[0] <= m <= marks[|marks| - 1] ::
      RowAt(Linearised(t), m, id).Some? && RowAt(Linearised(t), m, id).value.status.Terminal()
  {
    var u, first, last := Linearised(t), marks[0], marks[|marks| - 1];
    NeverLost(u, first, last, id);
    if Live(RowAt(u, first, id)) && Live(RowAt(u, last, id)) {
      RoundsDescend(t, marks, id, n, |marks| - 1);
      LiveMeasure(u, first, id);
      LiveMeasure(u, last, id);
    }
  }

  lemma LiveMeasure(u: Run, i: nat, id: Id)
    requires IsRun(u) && i < |u.states| && NeverOverruns(u, i, id) && Live(RowAt(u, i, id))
    ensures 2 <= Measure(RowAt(u, i, id).value) <= 2 * RowAt(u, i, id).value.maxAttempts + 1
  {
    CapHolds(u, i, id);
    RowInvariant(u, i, id);
  }

  // A locked sweep counts if the lease had ended when it looked and the row was not locked or waited
  // for then.
  lemma UnobstructedSweepFinds(f: Fine, a: Action, id: Id)
    requires FineInv(f) && CanAct(f, a) && a.Commit? && f.open[a.tx].Reaping? && id in f.db.rows
    requires Lapsed(f.db.rows[id], f.open[a.tx].seen) && id !in f.open[a.tx].skipped
    ensures SweepFinds(AsEvent(f, a), id, f.db.rows[id])
  {
    assert Stands(f.db, f.open[a.tx]);
  }

  /* What makes a round. */

  lemma OneClaimCounts(u: Run, i: nat, c: nat, kind: string, n: nat, id: Id)
    requires i <= c < |u.events| < |u.states| && Serves(u.events[c], kind, n, id)
    ensures n <= n * ServedCount(u, i, c + 1, kind, n, id)
  {
    assert ServedCount(u, i, c + 1, kind, n, id) >= 1;
  }

  // One claim large enough for every contender is a round for a waiting job, if it found the job due
  // and unlocked.
  lemma ClaimIsRound(t: FineRun, i: nat, c: nat, id: Id)
    requires IsFineRun(t) && i <= c < |t.actions| && t.actions[c].Commit?
    requires var f, x := t.states[c], t.states[c].open;
      && t.actions[c].tx in x && x[t.actions[c].tx].Claiming? && id in f.db.rows
    requires var x, r := t.states[c].open[t.actions[c].tx], t.states[c].db.rows[id];
      && RowAt(Linearised(t), i, id) == Some(r) && r.status.Pending? && r.runAt < t.states[i].db.now
      && r.kind in x.kinds && id !in x.skipped && r.runAt < x.seen
      && |Contenders(t.states[i], r.runAt)| <= x.limit
    ensures Attended(t, i, c + 1, id, t.states[c].open[t.actions[c].tx].limit)
  {
    var u, x, r := Linearised(t), t.states[c].open[t.actions[c].tx], t.states[c].db.rows[id];
    assert FineStepAt(t, c);
    UnobstructedClaimServes(t.states[c], t.actions[c], id, x.limit);
    OneClaimCounts(u, i, c, r.kind, x.limit, id);
  }

  // One sweep is a round for a claimed job, if it looked after the lease had ended and did not find
  // the row locked or waited for.
  lemma SweepIsRound(t: FineRun, i: nat, c: nat, id: Id, n: nat)
    requires IsFineRun(t) && i <= c < |t.actions| && t.actions[c].Commit?
    requires id in t.states[c].db.rows
    requires t.actions[c].tx in t.states[c].open && t.states[c].open[t.actions[c].tx].Reaping?
    requires var x, r := t.states[c].open[t.actions[c].tx], t.states[c].db.rows[id];
      RowAt(Linearised(t), i, id) == Some(r) && Lapsed(r, x.seen) && id !in x.skipped
    ensures Attended(t, i, c + 1, id, n)
  {
    FineInvariantHolds(t, c);
    assert FineStepAt(t, c);
    UnobstructedSweepFinds(t.states[c], t.actions[c], id);
    assert SweepFinds(Linearised(t).events[c], id, t.states[c].db.rows[id]);
  }
}
