/**
 The recovery sweep: one statement's exact effect, and what overlapping, skipping and failing
 sweeps do over a whole run. A failed or rolled-back sweep is an `Idle` event.
 */
module Sweep {
  import opened Jobs
  import opened Queue
  import opened Reachable
  import opened Attempts
  import opened Leases

  function Requeued(s: Db, e: Event): set<Id>
    requires e.Reap?
  {
    set id | id in e.recovered && id in s.rows && s.rows[id].attempt < s.rows[id].maxAttempts
  }

  function GivenUp(s: Db, e: Event): set<Id>
    requires e.Reap?
  {
    set id | id in e.recovered && id in s.rows && s.rows[id].maxAttempts <= s.rows[id].attempt
  }

  // No unlocked lapsed lease survives a sweep; every other row is untouched; the recovered rows
  // divide exactly into those pending again and those abandoned.
  lemma SweepIsExact(s: Db, e: Event)
    requires Enabled(s, e) && e.Reap?
    ensures var s' := Apply(s, e);
      && s'.rows.Keys == s.rows.Keys
      && LapsedIds(s'.rows, e.seen) == LapsedIds(s.rows, e.seen) * e.skipped
      && (forall id | id in s.rows && id !in e.recovered :: s'.rows[id] == s.rows[id])
      && Requeued(s, e) !! GivenUp(s, e) && Requeued(s, e) + GivenUp(s, e) == e.recovered.Keys
      && (forall id | id in Requeued(s, e) :: s'.rows[id].status.Pending? && s'.rows[id].runAt <= s'.now)
      && (forall id | id in GivenUp(s, e) :: s'.rows[id].status.Abandoned? && s'.rows[id].error == Some(REAP_ERROR))
  {
  }

  // Swept again at the same clock, a table with nothing locked does not change.
  lemma SweepAgainIsNoOp(s: Db, e: Event, again: Event)
    requires Enabled(s, e) && e.Reap? && e.skipped == {} && e.seen == e.done
    requires Enabled(Apply(s, e), again) && again.Reap? && again.seen == e.seen
    ensures again.recovered == map[] && Apply(Apply(s, e), again).rows == Apply(s, e).rows
  {
  }

  predicate Recovers(e: Event, id: Id) {
    e.Reap? && id in e.recovered
  }

  // Swept up, or reported on by the worker holding it.
  predicate DealtWith(e: Event, id: Id, r: Row) {
    Recovers(e, id) || (r.claimedBy.Some? && ReportsOn(e, id, r.claimedBy.value))
  }

  // A recovery is what ends a claim, so two recoveries of a job have a claim between them: no
  // lapsed claim is recovered twice, however sweeps overlap.
  lemma RecoveredOnce(t: Run, m: nat, n: nat, id: Id)
    requires IsRun(t) && m < n < |t.events| && Recovers(t.events[m], id) && Recovers(t.events[n], id)
    ensures exists k | m < k < n :: ClaimsJob(t.events[k], id)
  {
    RowStep(t, n, id);
    RowStep(t, m, id);
    if !exists k | m < k < n :: ClaimsJob(t.events[k], id) {
      StaysUnclaimed(t, m + 1, n, id);
    }
  }

  lemma {:induction false} StaysUnclaimed(t: Run, i: nat, n: nat, id: Id)
    requires IsRun(t) && i <= n < |t.states|
    requires RowAt(t, i, id).Some? && !RowAt(t, i, id).value.status.Claimed?
    requires forall k | i <= k < n :: !ClaimsJob(t.events[k], id)
    ensures RowAt(t, n, id).Some? ==> !RowAt(t, n, id).value.status.Claimed?
    decreases n
  {
    if i < n {
      StaysUnclaimed(t, i, n - 1, id);
      RowStep(t, n - 1, id);
    }
  }

  // A lapsed claim waits, unchanged, until its holder reports or a sweep takes it.
  lemma {:induction false} LapsedWaits(t: Run, i: nat, n: nat, id: Id)
    requires IsRun(t) && i <= n < |t.states|
    requires RowAt(t, i, id).Some? && Lapsed(RowAt(t, i, id).value, t.states[i].now)
    requires forall m | i <= m < n :: !DealtWith(t.events[m], id, RowAt(t, i, id).value)
    ensures RowAt(t, n, id) == RowAt(t, i, id)
    decreases n
  {
    if i < n {
      LapsedWaits(t, i, n - 1, id);
      RowStep(t, n - 1, id);
      RowInvariant(t, n - 1, id);
    }
  }

  // A claim that is dealt with ends there.
  lemma DealtWithEnds(t: Run, m: nat, id: Id, r: Row)
    requires IsRun(t) && m < |t.events| && RowAt(t, m, id) == Some(r) && r.status.Claimed?
    requires DealtWith(t.events[m], id, r)
    ensures RowAt(t, m + 1, id).Some? && !RowAt(t, m + 1, id).value.status.Claimed?
  {
    RowStep(t, m, id);
    RowInvariant(t, m, id);
  }

  lemma FirstDealtWith(t: Run, i: nat, n: nat, id: Id) returns (m: nat)
    requires IsRun(t) && i <= n < |t.events|
    requires RowAt(t, i, id).Some? && Lapsed(RowAt(t, i, id).value, t.states[i].now)
    requires t.events[n].Reap? && id !in t.events[n].skipped
    ensures i <= m <= n && DealtWith(t.events[m], id, RowAt(t, i, id).value)
    ensures forall k | i <= k < m :: !DealtWith(t.events[k], id, RowAt(t, i, id).value)
  {
    m := i;
    while m < n && !DealtWith(t.events[m], id, RowAt(t, i, id).value)
      invariant i <= m <= n
      invariant forall k | i <= k < m :: !DealtWith(t.events[k], id, RowAt(t, i, id).value)
    {
      m := m + 1;
    }
    if m == n {
      LapsedWaits(t, i, n, id);
      ClockAdvances(t, i, n);
      RowStep(t, n, id);
    }
  }

  // So a row one sweep skipped, or lost to a rollback, is taken by the next sweep that finds it
  // unlocked, unless it has already been dealt with; either way the lapsed claim has ended.
  lemma SkippedIsRecoverable(t: Run, i: nat, n: nat, id: Id)
    requires IsRun(t) && i <= n < |t.events|
    requires RowAt(t, i, id).Some? && Lapsed(RowAt(t, i, id).value, t.states[i].now)
    requires t.events[n].Reap? && id !in t.events[n].skipped
    ensures exists m | i <= m <= n ::
      && RowAt(t, m, id) == RowAt(t, i, id) && DealtWith(t.events[m], id, RowAt(t, i, id).value)
      && RowAt(t, m + 1, id).Some? && !RowAt(t, m + 1, id).value.status.Claimed?
  {
    var m := FirstDealtWith(t, i, n, id);
    LapsedWaits(t, i, m, id);
    DealtWithEnds(t, m, id, RowAt(t, i, id).value);
  }
}
