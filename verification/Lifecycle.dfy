/**
 One job over a whole run: terminal states are final, what was submitted never changes, and the
 purge deletes only settled rows past their retention.
 */
module Lifecycle {
  import opened Jobs
  import opened Queue
  import opened Reachable

  // Between two positions a job keeps its submission, and once settled its whole row, until it is
  // purged.
  lemma {:induction false} SettledIsFinal(t: Run, i: nat, j: nat, id: Id)
    requires IsRun(t) && i <= j < |t.states|
    requires RowAt(t, i, id).Some?
    ensures match RowAt(t, j, id)
            case None => true
            case Some(r) =>
              && SameJob(RowAt(t, i, id).value, r)
              && (RowAt(t, i, id).value.status.Terminal() ==> r == RowAt(t, i, id).value)
    decreases j
  {
    if i < j {
      SettledIsFinal(t, i, j - 1, id);
      RowStep(t, j - 1, id);
      RowInvariant(t, i, id);
      RowInvariant(t, j - 1, id);
      ClockAdvances(t, i, j - 1);
      if RowAt(t, j - 1, id).None? { GoneForGood(t, j - 1, j, id); }
    }
  }

  // Labels over whole runs.
  lemma LabelsAreHonest(t: Run, n: nat, id: Id)
    requires IsRun(t) && n < |t.states| && id in t.states[n].rows
    ensures var r := t.states[n].rows[id];
      && !r.status.Cancelled?
      && (r.result.Some? ==> r.status.Succeeded?)
      && (r.error.Some? ==> r.status.Failed? || r.status.Abandoned?)
      && (r.status.Claimed? <==> r.lease.Some?) && (r.status.Claimed? <==> r.claimedBy.Some?)
      && (r.status.Terminal() <==> r.settledAt.Some?) && (r.status.Terminal() <==> r.expiresAt.Some?)
  {
    RowInvariant(t, n, id);
  }

  // Every time a row carries is the clock reading of the event that last changed it; the retention is
  // counted from the last one it took.
  lemma StampsAreReadings(t: Run, c: nat, id: Id)
    requires IsRun(t) && c < |t.events| && Rewrites(t, c, id) && RowAt(t, c + 1, id).Some?
    ensures var r, e := RowAt(t, c + 1, id).value, t.events[c];
      && (r.status.Pending? ==> r.runAt == ReadingOf(e, id))
      && (r.status.Claimed? ==> e.Claim? && r.lease == Some(ReadingOf(e, id) + e.lease))
      && (r.status.Terminal() ==> r.settledAt == Some(ReadingOf(e, id)))
      && (r.status.Terminal() ==> r.expiresAt == Some(LastReadingOf(e, id) + RETENTION))
  {
    RowStep(t, c, id);
    RowInvariant(t, c, id);
  }

  /* Retention. */

  // A row leaves the table only by a purge, only once settled, and only after its retention.
  lemma PurgeIsSafe(t: Run, i: nat, id: Id)
    requires IsRun(t) && i < |t.events|
    requires RowAt(t, i, id).Some? && RowAt(t, i + 1, id).None?
    ensures t.events[i].Purge?
    ensures var r := RowAt(t, i, id).value;
      r.status.Terminal() && r.settledAt.Some? && r.settledAt.value + RETENTION < t.states[i + 1].now
  {
    RowStep(t, i, id);
    RowInvariant(t, i, id);
  }

  // A row live at `i` and settled by `n` was settled by one event in between, and carries the time
  // at which that event read the clock.
  lemma {:induction false} SettledBy(t: Run, i: nat, n: nat, id: Id) returns (c: nat)
    requires IsRun(t) && i <= n < |t.states|
    requires RowAt(t, i, id).Some? && !RowAt(t, i, id).value.status.Terminal()
    requires RowAt(t, n, id).Some? && RowAt(t, n, id).value.status.Terminal()
    ensures i <= c < n && Rewrites(t, c, id)
    ensures RowAt(t, n, id).value.settledAt == Some(ReadingOf(t.events[c], id))
    decreases n
  {
    RowStep(t, n - 1, id);
    RowInvariant(t, n - 1, id);
    c := n - 1;
    if RowAt(t, n - 1, id).Some? && RowAt(t, n - 1, id).value.status.Terminal() { c := SettledBy(t, i, n - 1, id); }
  }

  // So a row settled after position `i` carries a settle time that is behind the clock there by no
  // more than its settle took to commit.
  lemma SettledLater(t: Run, i: nat, n: nat, id: Id, lag: nat)
    requires IsRun(t) && i <= n < |t.states| && CommitsWithin(t, i, n, id, lag)
    requires RowAt(t, i, id).Some? && !RowAt(t, i, id).value.status.Terminal()
    requires RowAt(t, n, id).Some? && RowAt(t, n, id).value.status.Terminal()
    ensures var at := RowAt(t, n, id).value.settledAt; at.Some? && t.states[i].now <= at.value + lag
  {
    var c := SettledBy(t, i, n, id);
    ClockAdvances(t, i, c + 1);
  }

  // With row locks it is never behind an earlier change of the row itself.
  lemma SettledAfterChange(t: Run, k: nat, n: nat, id: Id)
    requires IsRun(t) && RowLocks(t) && k < n < |t.states| && Rewrites(t, k, id)
    requires RowAt(t, k + 1, id).Some? && !RowAt(t, k + 1, id).value.status.Terminal()
    requires RowAt(t, n, id).Some? && RowAt(t, n, id).value.status.Terminal()
    ensures var at := RowAt(t, n, id).value.settledAt; at.Some? && t.states[k + 1].now <= at.value
  {
    var c := SettledBy(t, k + 1, n, id);
  }

  // If a job was live at `i` and is gone by `n`, more than the retention period has passed, less
  // what its settle took to commit.
  lemma GoneTakesRetention(t: Run, i: nat, n: nat, id: Id, lag: nat)
    requires IsRun(t) && i <= n < |t.states| && CommitsWithin(t, i, n, id, lag)
    requires RowAt(t, i, id).Some? && !RowAt(t, i, id).value.status.Terminal()
    requires RowAt(t, n, id).None?
    ensures t.states[i].now + RETENTION < t.states[n].now + lag
  {
    var m := LastSeen(t, i, n, id);
    PurgeIsSafe(t, m, id);
    SettledLater(t, i, m, id, lag);
    ClockAdvances(t, m + 1, n);
  }

  // ... and the retention ends: once a settled row's period is over, the next purge deletes it.
  lemma PurgeIsPrompt(t: Run, i: nat, m: nat, id: Id)
    requires IsRun(t) && i <= m < |t.events| && t.events[m].Purge?
    requires RowAt(t, i, id).Some? && RowAt(t, i, id).value.status.Terminal()
    requires t.states[i].now + RETENTION < t.events[m].seen
    ensures RowAt(t, m + 1, id).None?
  {
    RowInvariant(t, i, id);
    SettledIsFinal(t, i, m, id);
    RowStep(t, m, id);
    ClockAdvances(t, i, m);
  }

  // No job is ever lost: it is in the table, or it settled more than its retention ago.
  lemma NeverLost(t: Run, i: nat, n: nat, id: Id)
    requires IsRun(t) && i <= n < |t.states| && RowAt(t, i, id).Some?
    ensures RowAt(t, n, id).Some? || exists m | i <= m < n ::
      && RowAt(t, m, id).Some? && RowAt(t, m, id).value.status.Terminal() && RowAt(t, m, id).value.settledAt.Some?
      && RowAt(t, m, id).value.settledAt.value + RETENTION < t.states[n].now
  {
    if RowAt(t, n, id).None? {
      var m := LastSeen(t, i, n, id);
      PurgeIsSafe(t, m, id);
      ClockAdvances(t, m + 1, n);
    }
  }

  // What a worker reported as final is what the row says for as long as it exists.
  lemma OutcomeEndures(t: Run, i: nat, n: nat, id: Id)
    requires IsRun(t) && i < n < |t.states| && t.events[i].Settle? && t.events[i].id == id
    requires RowAt(t, i, id).Some? && Holds(RowAt(t, i, id).value, t.events[i].worker)
    requires RowAt(t, n, id).Some?
    ensures var r, o := RowAt(t, n, id).value, t.events[i].outcome;
      match o
      case Success(result) => r.status.Succeeded? && r.result == result && r.error == None
      case Failure(error) => r.status.Failed? && r.result == None && r.error == error
  {
    RowStep(t, i, id);
    SettledIsFinal(t, i + 1, n, id);
  }

  // The constraints alone would not do: a row they admit is deleted while pending.
  lemma ChecksAloneLosePendingRow()
    ensures exists s: Db, e: Event, id: Id ::
      && Enabled(s, e) && e.Purge? && id in s.rows && Checks(s.rows[id])
      && s.rows[id].status.Pending? && id !in Apply(s, e).rows
  {
    var r := InsertRow(NewJob(1, "k", "{}", 1, None, "f", 1), 0).(expiresAt := Some(0));
    var s := Db(map[1 := r], 1, {1});
    var e := Purge(1, 1);
    assert Expired(r, 1) && Fate(s.rows[1], 1, e) == None;
    assert Enabled(s, e) && 1 in s.rows && Checks(s.rows[1]) && 1 !in Apply(s, e).rows;
  }
}
