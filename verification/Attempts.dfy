/**
 The attempt cap. `attempt` counts exactly the claims of a job; the cap is kept by a run if and
 only if no requeue ever lands on a row that has used its last attempt; and under that condition
 every job moves down a measure that bounds its claims and its status changes.
 */
module Attempts {
  import opened Jobs
  import opened Queue
  import opened Reachable
  import opened Lifecycle

  predicate ClaimsJob(e: Event, id: Id) {
    e.Claim? && id in e.taken
  }

  // Runs of job `id` begun by the first `n` events.
  function ClaimCount(t: Run, n: nat, id: Id): nat
    requires n <= |t.events|
  {
    if n == 0 then 0 else ClaimCount(t, n - 1, id) + if ClaimsJob(t.events[n - 1], id) then 1 else 0
  }

  lemma OnlyClaimsCount(r: Row, id: Id, e: Event)
    ensures Fate(r, id, e).Some? ==> Fate(r, id, e).value.attempt == r.attempt + if ClaimsJob(e, id) then 1 else 0
  {
  }

  lemma {:induction false} AttemptCountsClaims(t: Run, n: nat, id: Id)
    requires IsRun(t) && n < |t.states|
    ensures RowAt(t, n, id).Some? ==> RowAt(t, n, id).value.attempt == ClaimCount(t, n, id)
    ensures id !in t.states[n].minted ==> ClaimCount(t, n, id) == 0
  {
    if n > 0 {
      AttemptCountsClaims(t, n - 1, id);
      RowStep(t, n - 1, id);
      match RowAt(t, n - 1, id) {
        case Some(r) => OnlyClaimsCount(r, id, t.events[n - 1]); RowInvariant(t, n, id);
        case None =>
      }
    }
  }

  /* The cap, and exactly when a run keeps it. */

  predicate CapOk(r: Row) {
    && r.attempt <= r.maxAttempts
    && (r.status.Pending? ==> r.attempt < r.maxAttempts)
  }

  // A requeue taking effect on a row whose last permitted attempt has been used.
  ghost predicate Overruns(s: Db, e: Event, id: Id) {
    && e.Requeue? && e.id == id && id in s.rows && Holds(s.rows[id], e.worker)
    && s.rows[id].maxAttempts <= s.rows[id].attempt
  }

  ghost predicate NeverOverruns(t: Run, n: nat, id: Id)
    requires IsRun(t) && n <= |t.events|
  {
    forall i | 0 <= i < n :: !Overruns(t.states[i], t.events[i], id)
  }

  lemma {:induction false} CapHolds(t: Run, n: nat, id: Id)
    requires IsRun(t) && n < |t.states| && NeverOverruns(t, n, id)
    ensures RowAt(t, n, id).Some? ==> CapOk(RowAt(t, n, id).value)
  {
    if n > 0 {
      CapHolds(t, n - 1, id);
      RowStep(t, n - 1, id);
    }
  }

  // Neither half can be dropped: the cap holds at every position of a run exactly when no requeue
  // of it overruns.
  lemma CapKeptIffNoOverrun(t: Run, id: Id)
    requires IsRun(t)
    ensures (forall n | 0 <= n < |t.states| :: RowAt(t, n, id).Some? ==> CapOk(RowAt(t, n, id).value))
       <==> NeverOverruns(t, |t.events|, id)
  {
    if NeverOverruns(t, |t.events|, id) {
      forall n | 0 <= n < |t.states|
        ensures RowAt(t, n, id).Some? ==> CapOk(RowAt(t, n, id).value)
      {
        CapHolds(t, n, id);
      }
    } else {
      var i :| 0 <= i < |t.events| && Overruns(t.states[i], t.events[i], id);
      RowStep(t, i, id);
      assert RowAt(t, i + 1, id).Some? && !CapOk(RowAt(t, i + 1, id).value);
    }
  }

  // Runs whose retries are atomic: the raw requeue statement never appears by itself.
  ghost predicate AtomicRetries(t: Run) {
    forall i | 0 <= i < |t.events| :: !t.events[i].Requeue?
  }

  lemma AtomicNeverOverruns(t: Run, n: nat, id: Id)
    requires IsRun(t) && AtomicRetries(t) && n <= |t.events|
    ensures NeverOverruns(t, n, id)
  {
  }

  /* The measure. */

  function Measure(r: Row): int {
    match r.status
    case Pending => 2 * (r.maxAttempts - r.attempt) + 1
    case Claimed => 2 * (r.maxAttempts - r.attempt) + 2
    case _ => 0
  }

  predicate ChangesStatus(t: Run, i: nat, id: Id)
    requires i + 1 < |t.states|
  {
    && RowAt(t, i, id).Some? && RowAt(t, i + 1, id).Some?
    && RowAt(t, i, id).value.status != RowAt(t, i + 1, id).value.status
  }

  function ChangeCount(t: Run, n: nat, id: Id): nat
    requires n < |t.states|
  {
    if n == 0 then 0 else ChangeCount(t, n - 1, id) + if ChangesStatus(t, n - 1, id) then 1 else 0
  }

  // Each status change moves strictly down the measure, nothing moves up it, and every live row is
  // at least 2 above the floor.
  lemma MeasureDescends(t: Run, i: nat, id: Id)
    requires IsRun(t) && i < |t.events| && NeverOverruns(t, i + 1, id)
    requires RowAt(t, i, id).Some? && RowAt(t, i + 1, id).Some?
    ensures ChangesStatus(t, i, id) ==> Measure(RowAt(t, i + 1, id).value) < Measure(RowAt(t, i, id).value)
    ensures !ChangesStatus(t, i, id) ==> Measure(RowAt(t, i + 1, id).value) == Measure(RowAt(t, i, id).value)
    ensures !RowAt(t, i, id).value.status.Terminal() ==> 2 <= Measure(RowAt(t, i, id).value)
  {
    CapHolds(t, i, id);
    RowStep(t, i, id);
    RowInvariant(t, i, id);
  }

  // ... and so over any stretch of a run.
  lemma {:induction false} MeasureOverRun(t: Run, i: nat, j: nat, id: Id)
    requires IsRun(t) && i <= j < |t.states| && NeverOverruns(t, j, id)
    requires RowAt(t, i, id).Some? && RowAt(t, j, id).Some?
    ensures var a, b := RowAt(t, i, id).value, RowAt(t, j, id).value;
      Measure(b) <= Measure(a) && (a.status != b.status ==> Measure(b) < Measure(a))
    decreases j
  {
    if i < j {
      if RowAt(t, j - 1, id).None? {
        RowInvariant(t, i, id);
        ClockAdvances(t, i, j - 1);
        GoneForGood(t, j - 1, j, id);
      } else {
        MeasureOverRun(t, i, j - 1, id);
        MeasureDescends(t, j - 1, id);
      }
    }
  }

  lemma {:induction false} ChangesSpendMeasure(t: Run, n: nat, id: Id)
    requires IsRun(t) && n < |t.states| && NeverOverruns(t, n, id)
    ensures RowAt(t, n, id).Some? ==>
      var r := RowAt(t, n, id).value;
      if r.status.Terminal() then ChangeCount(t, n, id) <= 2 * r.maxAttempts
      else ChangeCount(t, n, id) + Measure(r) <= 2 * r.maxAttempts + 1
    ensures id !in t.states[n].minted ==> ChangeCount(t, n, id) == 0
  {
    if n > 0 {
      ChangesSpendMeasure(t, n - 1, id);
      RowStep(t, n - 1, id);
      RowInvariant(t, n - 1, id);
      if RowAt(t, n - 1, id).Some? && RowAt(t, n, id).Some? {
        MeasureDescends(t, n - 1, id);
        CapHolds(t, n, id);
      }
    }
  }

  // Every claim is a status change, and so is its end, and there are no others.
  lemma {:induction false} ChangesAreClaimsAndEnds(t: Run, n: nat, id: Id)
    requires IsRun(t) && n < |t.states|
    ensures RowAt(t, n, id).Some? ==>
      ChangeCount(t, n, id) == 2 * ClaimCount(t, n, id) - if RowAt(t, n, id).value.status.Claimed? then 1 else 0
    ensures id !in t.states[n].minted ==> ChangeCount(t, n, id) == ClaimCount(t, n, id) == 0
  {
    if n > 0 {
      ChangesAreClaimsAndEnds(t, n - 1, id);
      RowStep(t, n - 1, id);
      RowInvariant(t, n - 1, id);
      RowInvariant(t, n, id);
      AttemptCountsClaims(t, n - 1, id);
    }
  }

  // A job that was ever in the table is claimed at most max_attempts times and changes status at
  // most twice that, over the whole run and past its own deletion.
  lemma {:induction false} JobIsBounded(t: Run, i: nat, n: nat, id: Id)
    requires IsRun(t) && i <= n < |t.states| && NeverOverruns(t, n, id)
    requires RowAt(t, i, id).Some?
    ensures ClaimCount(t, n, id) <= RowAt(t, i, id).value.maxAttempts
    ensures ChangeCount(t, n, id) <= 2 * RowAt(t, i, id).value.maxAttempts
    decreases n
  {
    AttemptCountsClaims(t, n, id);
    CapHolds(t, n, id);
    ChangesSpendMeasure(t, n, id);
    SettledIsFinal(t, i, n, id);
    if RowAt(t, n, id).None? {
      JobIsBounded(t, i, n - 1, id);
      RowStep(t, n - 1, id);
      if RowAt(t, n - 1, id).None? { RowInvariant(t, i, id); ClockAdvances(t, i, n - 1); GoneForGood(t, n - 1, n, id); }
    } else if !RowAt(t, n, id).value.status.Terminal() {
      RowInvariant(t, n, id);
    }
  }

  // The increment of a claim cannot leave the smallint range.
  lemma AttemptNeverOverflows(t: Run, n: nat, id: Id)
    requires IsRun(t) && n < |t.states| && NeverOverruns(t, n, id)
    requires RowAt(t, n, id).Some? && RowAt(t, n, id).value.status.Pending?
    ensures 0 <= RowAt(t, n, id).value.attempt + 1 <= RowAt(t, n, id).value.maxAttempts <= SMALLINT_MAX
  {
    CapHolds(t, n, id);
    RowInvariant(t, n, id);
  }

  /* Abandonment. */

  // Without overruns, an abandoned job used exactly its attempts.
  lemma AbandonedUsedEveryAttempt(t: Run, n: nat, id: Id)
    requires IsRun(t) && n < |t.states| && NeverOverruns(t, n, id)
    requires RowAt(t, n, id).Some? && RowAt(t, n, id).value.status.Abandoned?
    ensures var r := RowAt(t, n, id).value; r.attempt == r.maxAttempts == ClaimCount(t, n, id)
  {
    CapHolds(t, n, id);
    RowInvariant(t, n, id);
    AttemptCountsClaims(t, n, id);
  }

  // A report that takes effect and is final: a success, a terminal failure, or a retryable one with
  // no attempt left.
  predicate ReportSettles(s: Db, e: Event, id: Id) {
    && (e.Settle? || e.Retry?) && e.id == id && id in s.rows && Holds(s.rows[id], e.worker)
    && (e.Retry? ==> s.rows[id].maxAttempts <= s.rows[id].attempt)
  }

  // What such a report does, and nothing else does.
  lemma ReportSettlesIff(s: Db, e: Event, id: Id)
    requires Enabled(s, e) && id in s.rows && RowInv(s.rows[id], s.now)
    ensures ReportSettles(s, e, id) <==>
      && !s.rows[id].status.Terminal() && id in Apply(s, e).rows
      && (Apply(s, e).rows[id].status.Succeeded? || Apply(s, e).rows[id].status.Failed?)
  {
    Successor(s, e, id);
  }

  ghost predicate NobodySettles(t: Run, n: nat, id: Id)
    requires n <= |t.events| < |t.states|
  {
    forall i | 0 <= i < n :: !ReportSettles(t.states[i], t.events[i], id)
  }

  // A job that no worker ever settles, whether they crash, report too late or hand it back, settles
  // only as abandoned, after exactly max_attempts claims.
  lemma {:induction false} CrashOnly(t: Run, n: nat, id: Id)
    requires IsRun(t) && n < |t.states| && NeverOverruns(t, n, id) && NobodySettles(t, n, id)
    requires RowAt(t, n, id).Some? && RowAt(t, n, id).value.status.Terminal()
    ensures var r := RowAt(t, n, id).value;
      && r.status.Abandoned? && r.error == Some(REAP_ERROR) && r.result == None
      && ClaimCount(t, n, id) == r.maxAttempts
  {
    RowStep(t, n - 1, id);
    RowInvariant(t, n, id);
    RowInvariant(t, n - 1, id);
    if RowAt(t, n - 1, id).Some? && RowAt(t, n - 1, id).value.status.Terminal() {
      CrashOnly(t, n - 1, id);
    }
    AbandonedUsedEveryAttempt(t, n, id);
  }
}
