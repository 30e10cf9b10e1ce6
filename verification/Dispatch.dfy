/**
 Bounded bypass: a pending job cannot be passed over for long. Only what turns pending with an older
 run_at gets ahead of it, and that takes a statement that read the clock before the job did and
 committed after it.
 */
module Dispatch {
  import opened Jobs
  import opened Queue
  import opened Reachable
  import opened Attempts
  import opened Examples

  // Pending rows with run_at no later than `due`.
  function Ahead(s: Db, due: Time): set<Id> {
    set id | id in s.rows && s.rows[id].status.Pending? && s.rows[id].runAt <= due
  }

  function TakenBy(e: Event): set<Id> {
    if e.Claim? then e.taken.Keys else {}
  }

  ghost predicate TurnsPending(s: Db, e: Event, id: Id) {
    match e
    case Enqueue(j, _, _) => Creates(s, e) && id == j.id
    case Requeue(i, worker, _, _) => id == i && id in s.rows && Holds(s.rows[id], worker)
    case Retry(i, worker, _, _, _) =>
      id == i && id in s.rows && Holds(s.rows[id], worker) && s.rows[id].attempt < s.rows[id].maxAttempts
    case Reap(_, _, recovered, _) =>
      id in recovered && id in s.rows && s.rows[id].attempt < s.rows[id].maxAttempts
    case _ => false
  }

  // What the event puts into the queue on a reading no later than `due`.
  ghost function Joined(s: Db, e: Event, due: Time): set<Id> {
    set id | id in Apply(s, e).rows && TurnsPending(s, e, id) && ReadingOf(e, id) <= due
  }

  lemma RowAhead(s: Db, e: Event, due: Time, id: Id)
    requires Enabled(s, e) && DbInv(s)
    ensures id in Ahead(Apply(s, e), due) <==> (id in Ahead(s, due) && id !in TakenBy(e)) || id in Joined(s, e, due)
  {
    Successor(s, e, id);
  }

  // The rows ahead lose exactly what is claimed and gain exactly what joins.
  lemma AheadChanges(s: Db, e: Event, due: Time)
    requires Enabled(s, e) && DbInv(s)
    ensures Ahead(Apply(s, e), due) == Ahead(s, due) - TakenBy(e) + Joined(s, e, due)
    ensures Joined(s, e, due) !! Ahead(s, due)
    ensures e.Claim? ==> Joined(s, e, due) == {}
  {
    forall id ensures id in Ahead(Apply(s, e), due) <==> id in Ahead(s, due) - TakenBy(e) + Joined(s, e, due) {
      RowAhead(s, e, due, id);
    }
  }

  // So they only shrink if and only if nothing joins; and nothing does while every statement's
  // reading is as late as the clock has passed `due`.
  lemma AheadOnlyShrinks(s: Db, e: Event, due: Time)
    requires Enabled(s, e) && DbInv(s)
    ensures Ahead(Apply(s, e), due) <= Ahead(s, due) <==> Joined(s, e, due) == {}
    ensures (forall id | TurnsPending(s, e, id) :: due < ReadingOf(e, id)) ==> Joined(s, e, due) == {}
  {
    AheadChanges(s, e, due);
    forall id | Ahead(Apply(s, e), due) <= Ahead(s, due) ensures id !in Joined(s, e, due) {
      assert id in Joined(s, e, due) ==> id in Ahead(Apply(s, e), due);
    }
  }

  // A claim that serves the job's kind, may take at least `n`, and did not find the job itself locked.
  // What else it found locked does not matter.
  predicate Serves(e: Event, kind: string, n: nat, id: Id) {
    e.Claim? && kind in e.kinds && n <= e.limit && id !in e.skipped
  }

  // Passing over a due job costs a full batch of rows no younger than it.
  lemma PassingOverCosts(s: Db, e: Event, id: Id, n: nat)
    requires Enabled(s, e) && DbInv(s) && id in s.rows && s.rows[id].status.Pending?
    requires Serves(e, s.rows[id].kind, n, id)
    requires id !in e.taken
    ensures e.taken.Keys <= Ahead(s, s.rows[id].runAt) && n <= |e.taken.Keys|
  {
  }

  lemma Within(a: set<Id>, b: set<Id>)
    requires a <= b
    ensures |a| <= |b|
  {
    if a != {} {
      var x :| x in a;
      Within(a - {x}, b - {x});
    }
  }

  // `n` for each event at positions [i, m) that serves the job.
  function Served(t: Run, i: nat, m: nat, kind: string, n: nat, id: Id): nat
    requires i <= m <= |t.events| < |t.states|
    decreases m
  {
    if i == m then 0
    else Served(t, i, m - 1, kind, n, id) + if Serves(t.events[m - 1], kind, n, id) then n else 0
  }

  function ServedCount(t: Run, i: nat, m: nat, kind: string, n: nat, id: Id): nat
    requires i <= m <= |t.events| < |t.states|
    decreases m
  {
    if i == m then 0
    else
      ServedCount(t, i, m - 1, kind, n, id)
      + if Serves(t.events[m - 1], kind, n, id) then 1 else 0
  }

  // Rows that join the queue ahead of `due` at positions [i, m).
  ghost function JoinCount(t: Run, i: nat, m: nat, due: Time): nat
    requires i <= m <= |t.events| < |t.states|
    decreases m
  {
    if i == m then 0 else JoinCount(t, i, m - 1, due) + |Joined(t.states[m - 1], t.events[m - 1], due)|
  }

  lemma {:induction false} ServedTotal(t: Run, i: nat, m: nat, kind: string, n: nat, id: Id)
    requires i <= m <= |t.events| < |t.states|
    ensures Served(t, i, m, kind, n, id) == n * ServedCount(t, i, m, kind, n, id)
    decreases m
  {
    if i < m {
      ServedTotal(t, i, m - 1, kind, n, id);
      assert n * (ServedCount(t, i, m - 1, kind, n, id) + 1) == n * ServedCount(t, i, m - 1, kind, n, id) + n;
    }
  }

  lemma StillWaits(t: Run, i: nat, id: Id, r: Row)
    requires IsRun(t) && i < |t.events| && RowAt(t, i, id) == Some(r) && r.status.Pending?
    requires !ClaimsJob(t.events[i], id)
    ensures RowAt(t, i + 1, id) == Some(r)
  {
    RowStep(t, i, id);
    RowInvariant(t, i, id);
  }

  // One event the job waits through.
  lemma WaitOne(s: Db, e: Event, id: Id, n: nat)
    requires Enabled(s, e) && DbInv(s) && id in s.rows && s.rows[id].status.Pending? && !ClaimsJob(e, id)
    ensures var r := s.rows[id];
      |Ahead(Apply(s, e), r.runAt)| + (if Serves(e, r.kind, n, id) then n else 0)
      <= |Ahead(s, r.runAt)| + |Joined(s, e, r.runAt)|
  {
    var r := s.rows[id];
    AheadChanges(s, e, r.runAt);
    Within(Ahead(s, r.runAt) - TakenBy(e), Ahead(s, r.runAt));
    if Serves(e, r.kind, n, id) { PassingOverCosts(s, e, id, n); }
  }

  lemma {:induction false} WaitingShrinksQueue(t: Run, i: nat, m: nat, id: Id, n: nat, r: Row)
    requires IsRun(t) && i <= m <= |t.events|
    requires RowAt(t, i, id) == Some(r) && r.status.Pending?
    requires forall c | i <= c < m :: !ClaimsJob(t.events[c], id)
    ensures RowAt(t, m, id) == Some(r)
    ensures |Ahead(t.states[m], r.runAt)| + Served(t, i, m, r.kind, n, id)
         <= |Ahead(t.states[i], r.runAt)| + JoinCount(t, i, m, r.runAt)
    decreases m
  {
    if i < m {
      WaitingShrinksQueue(t, i, m - 1, id, n, r);
      StillWaits(t, m - 1, id, r);
      InvariantHolds(t, m - 1);
      assert StepAt(t, m - 1);
      WaitOne(t.states[m - 1], t.events[m - 1], id, n);
    }
  }

  lemma Waiting(t: Run, m: nat, id: Id, r: Row)
    requires m < |t.states| && RowAt(t, m, id) == Some(r) && r.status.Pending?
    ensures 0 < |Ahead(t.states[m], r.runAt)|
  {
    assert id in Ahead(t.states[m], r.runAt);
  }

  // Rows ahead of `due` that are claimed at positions [i, m).
  function ClaimedAhead(t: Run, i: nat, m: nat, due: Time): nat
    requires i <= m <= |t.events| < |t.states|
    decreases m
  {
    if i == m then 0
    else ClaimedAhead(t, i, m - 1, due) + |TakenBy(t.events[m - 1]) * Ahead(t.states[m - 1], due)|
  }

  lemma AheadBalances(s: Db, e: Event, due: Time)
    requires Enabled(s, e) && DbInv(s)
    ensures |Ahead(Apply(s, e), due)| + |TakenBy(e) * Ahead(s, due)| == |Ahead(s, due)| + |Joined(s, e, due)|
  {
    AheadChanges(s, e, due);
    var gone, kept := TakenBy(e) * Ahead(s, due), Ahead(s, due) - TakenBy(e);
    assert Ahead(s, due) == kept + gone;
    assert Ahead(Apply(s, e), due) == kept + Joined(s, e, due);
  }

  // Over any stretch of a run the queue ahead of `due` balances: what it held and what joined it is
  // what was claimed from it and what it holds.
  lemma {:induction false} QueueBalances(t: Run, i: nat, m: nat, due: Time)
    requires IsRun(t) && i <= m <= |t.events|
    ensures |Ahead(t.states[m], due)| + ClaimedAhead(t, i, m, due)
         == |Ahead(t.states[i], due)| + JoinCount(t, i, m, due)
    decreases m
  {
    if i < m {
      QueueBalances(t, i, m - 1, due);
      InvariantHolds(t, m - 1);
      assert StepAt(t, m - 1);
      AheadBalances(t.states[m - 1], t.events[m - 1], due);
    }
  }

  // With k pending rows no later than the job (itself included), and j more that join ahead of it
  // by committing late, any ceil((k + j) / n) serving claims have taken it by the end, whatever else
  // ran in between. `Contention.LockedBypass` bounds k + j by what
  // is there at the start.
  lemma BoundedBypass(t: Run, i: nat, m: nat, id: Id, n: nat)
    requires IsRun(t) && i <= m <= |t.events| && id in t.states[i].rows
    requires var r := t.states[i].rows[id];
      && r.status.Pending?
      && |Ahead(t.states[i], r.runAt)| + JoinCount(t, i, m, r.runAt) <= n * ServedCount(t, i, m, r.kind, n, id)
    ensures exists c | i <= c < m :: ClaimsJob(t.events[c], id)
  {
    if !exists c | i <= c < m :: ClaimsJob(t.events[c], id) {
      var r := t.states[i].rows[id];
      ServedTotal(t, i, m, r.kind, n, id);
      WaitingShrinksQueue(t, i, m, id, n, r);
      Waiting(t, m, id, r);
    }
  }

  /* A late commit does get ahead. */

  function Pair(a: Row, b: Row, now: Time): Db {
    Db(map[1 := a, 2 := b], now, {1, 2})
  }

  // A requeue stamped at 1 becomes visible at 3, behind the back of a job that was enqueued at 2
  // and was alone in the queue.
  function OvertakingRun(): Run {
    var r1 := InsertRow(Submission(1, 2), 0);
    var r2 := ClaimRow(r1, "w", 1, 0);
    var r4 := RequeueRow(r2, 1);
    var r5 := ClaimRow(r4, "v", 1, 4);
    var b := InsertRow(Submission(2, 2), 2);
    Run([EMPTY, Single(r1, 0), Single(r2, 0), Pair(r2, b, 2), Pair(r4, b, 3), Pair(r5, b, 4)],
        [Enqueue(Submission(1, 2), 0, 0), Take("w", 0), Enqueue(Submission(2, 2), 2, 2), Requeue(1, "w", 1, 3),
         Take("v", 4)])
  }

  lemma SecondArrives(r: Row, now: Time, at: Time)
    requires now <= at
    ensures var s, e := Single(r, now), Enqueue(Submission(2, 2), at, at);
      Enabled(s, e) && Apply(s, e) == Pair(r, InsertRow(Submission(2, 2), at), at)
  {
  }

  lemma FirstReturns(a: Row, b: Row, at: Time, now: Time, done: Time)
    requires Holds(a, "w") && at <= done && now <= done
    ensures var s, e := Pair(a, b, now), Requeue(1, "w", at, done);
      Enabled(s, e) && Apply(s, e) == Pair(RequeueRow(a, at), b, done)
  {
  }

  lemma FirstIsBatch(a: Row, b: Row, at: Time)
    requires a.status.Pending? && a.kind == "k" && a.runAt <= at && a.runAt <= b.runAt
    ensures IsClaimBatch(map[1 := a, 2 := b], {"k"}, 1, at, {}, {1})
  {
  }

  lemma FirstIsTaken(a: Row, b: Row, now: Time, at: Time)
    requires a.status.Pending? && a.kind == "k" && a.attempt < SMALLINT_MAX && now <= at && a.runAt <= at
    requires a.runAt <= b.runAt
    ensures var s, e := Pair(a, b, now), Take("v", at);
      Enabled(s, e) && Apply(s, e) == Pair(ClaimRow(a, "v", 1, at), b, at)
  {
    FirstIsBatch(a, b, at);
    assert Take("v", at).taken.Keys == {1};
    ClaimTakesRows(Pair(a, b, now), Take("v", at));
  }

  lemma OvertakingRunBegins()
    ensures var t := OvertakingRun(); StepAt(t, 0) && StepAt(t, 1) && StepAt(t, 2)
  {
    var t := OvertakingRun();
    EnqueueStep(Submission(1, 2));
    TakeStep(t.states[1].rows[1], "w", 0);
    SecondArrives(t.states[2].rows[1], 0, 2);
  }

  lemma OvertakingRunEnds()
    ensures var t := OvertakingRun(); StepAt(t, 3) && StepAt(t, 4)
  {
    var t := OvertakingRun();
    FirstReturns(t.states[3].rows[1], t.states[3].rows[2], 1, 2, 3);
    FirstIsTaken(t.states[4].rows[1], t.states[4].rows[2], 3, 4);
  }

  lemma OvertakingRunIsRun()
    ensures IsRun(OvertakingRun())
  {
    OvertakingRunBegins();
    OvertakingRunEnds();
    FiveSteps(OvertakingRun());
  }

  lemma RequeueJoins(a: Row, b: Row, at: Time, now: Time, due: Time)
    requires Holds(a, "w") && at <= due && b.status.Pending? && b.runAt <= due
    ensures Ahead(Pair(a, b, now), due) == {2}
    ensures Joined(Pair(a, b, now), Requeue(1, "w", at, now + 1), due) == {1}
  {
  }

  lemma LateCommitOvertakes()
    ensures var t := OvertakingRun();
      && IsRun(t) && Ahead(t.states[3], 2) == {2} && Joined(t.states[3], t.events[3], 2) == {1}
      && Serves(t.events[4], "k", 1, 2)
      && !ClaimsJob(t.events[3], 2) && !ClaimsJob(t.events[4], 2)
  {
    OvertakingRunIsRun();
    var t := OvertakingRun();
    RequeueJoins(t.states[3].rows[1], t.states[3].rows[2], 1, 2, 2);
  }
}
