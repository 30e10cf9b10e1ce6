/**
 Idempotent submission over whole runs: per (owner, kind, key) creations and purges balance, every
 answer between purges names the same job, and a key is reused only after its job's retention.
 */
module Idempotency {
  import opened Jobs
  import opened Queue
  import opened Reachable
  import opened Lifecycle
  import opened Examples

  datatype Key = Key(owner: Owner, kind: string, key: string)

  predicate Carries(r: Row, k: Key) {
    SameKey(r, k.owner, k.kind, Some(k.key))
  }

  ghost predicate LiveAt(t: Run, n: nat, k: Key)
    requires n < |t.states|
  {
    exists id | id in t.states[n].rows :: Carries(t.states[n].rows[id], k)
  }

  // The enqueue at position `i` answers `created` for the key.
  ghost predicate CreatesKey(t: Run, i: nat, k: Key)
    requires IsRun(t) && i < |t.events|
  {
    Creates(t.states[i], t.events[i]) && Carries(InsertRow(t.events[i].job, t.events[i].at), k)
  }

  ghost predicate PurgesKey(t: Run, i: nat, k: Key)
    requires IsRun(t) && i < |t.events|
  {
    exists id | id in t.states[i].rows :: Carries(t.states[i].rows[id], k) && id !in t.states[i + 1].rows
  }

  ghost function CreatedCount(t: Run, n: nat, k: Key): nat
    requires IsRun(t) && n <= |t.events|
  {
    if n == 0 then 0 else CreatedCount(t, n - 1, k) + if CreatesKey(t, n - 1, k) then 1 else 0
  }

  ghost function PurgedCount(t: Run, n: nat, k: Key): nat
    requires IsRun(t) && n <= |t.events|
  {
    if n == 0 then 0 else PurgedCount(t, n - 1, k) + if PurgesKey(t, n - 1, k) then 1 else 0
  }

  // At most one row per key, at every position of every run.
  lemma OneRowPerKey(t: Run, n: nat, k: Key, a: Id, b: Id)
    requires IsRun(t) && n < |t.states|
    requires a in t.states[n].rows && Carries(t.states[n].rows[a], k)
    requires b in t.states[n].rows && Carries(t.states[n].rows[b], k)
    ensures a == b
  {
    InvariantHolds(t, n);
  }

  // One event as seen by the key: a creation needs it free, a purge frees it, nothing else counts.
  lemma KeyStep(t: Run, i: nat, k: Key)
    requires IsRun(t) && i < |t.events|
    ensures CreatesKey(t, i, k) ==> !LiveAt(t, i, k) && LiveAt(t, i + 1, k) && !PurgesKey(t, i, k)
    ensures PurgesKey(t, i, k) ==> LiveAt(t, i, k) && !LiveAt(t, i + 1, k)
    ensures !CreatesKey(t, i, k) && !PurgesKey(t, i, k) ==> (LiveAt(t, i, k) <==> LiveAt(t, i + 1, k))
  {
    var here, left := t.states[i].rows, t.states[i + 1].rows;
    forall id | id in here && Carries(here[id], k) ensures id in left ==> Carries(left[id], k) {
      RowStep(t, i, id);
    }
    forall id | id in left && Carries(left[id], k) && id !in here ensures CreatesKey(t, i, k) {
      RowStep(t, i, id);
    }
    forall id | id in left && Carries(left[id], k) && id in here ensures Carries(here[id], k) {
      RowStep(t, i, id);
    }
    if CreatesKey(t, i, k) {
      var j := t.events[i].job;
      RowStep(t, i, j.id);
      assert j.id in left && Carries(left[j.id], k);
      forall a | a in here ensures !Carries(here[a], k) && a in left {
        RowStep(t, i, a);
        assert !SameKey(here[a], j.owner, j.kind, j.key);
      }
    }
    if PurgesKey(t, i, k) {
      var a :| a in here && Carries(here[a], k) && a !in left;
      PurgeIsSafe(t, i, a);
      forall b | b in left ensures !Carries(left[b], k) {
        RowStep(t, i, b);
        if Carries(left[b], k) { OneRowPerKey(t, i, k, a, b); }
      }
    }
  }

  // Creations are exactly the purges, plus one while the key is taken.
  lemma {:induction false} CreationsBalancePurges(t: Run, n: nat, k: Key)
    requires IsRun(t) && n < |t.states|
    ensures CreatedCount(t, n, k) == PurgedCount(t, n, k) + if LiveAt(t, n, k) then 1 else 0
  {
    if n > 0 {
      CreationsBalancePurges(t, n - 1, k);
      KeyStep(t, n - 1, k);
    }
  }

  // The holder of a key stays its holder exactly until it is purged.
  lemma HolderEndures(t: Run, i: nat, j: nat, k: Key, a: Id, b: Id)
    requires IsRun(t) && i <= j < |t.states|
    requires a in t.states[i].rows && Carries(t.states[i].rows[a], k)
    requires b in t.states[j].rows && Carries(t.states[j].rows[b], k)
    ensures a == b <==> !exists m | i <= m < j :: PurgesKey(t, m, k)
  {
    if a in t.states[j].rows {
      SettledIsFinal(t, i, j, a);
      OneRowPerKey(t, j, k, a, b);
      forall m | i <= m < j ensures !PurgesKey(t, m, k) { NotPurgedBefore(t, i, m, j, k, a); }
    } else {
      var m := LastSeen(t, i, j, a);
      SettledIsFinal(t, i, m, a);
      assert PurgesKey(t, m, k);
    }
  }

  lemma NotPurgedBefore(t: Run, i: nat, m: nat, j: nat, k: Key, a: Id)
    requires IsRun(t) && i <= m < j < |t.states|
    requires a in t.states[i].rows && Carries(t.states[i].rows[a], k) && a in t.states[j].rows
    ensures !PurgesKey(t, m, k)
  {
    RowInvariant(t, i, a);
    ClockAdvances(t, i, m);
    ClockAdvances(t, m, m + 1);
    if a !in t.states[m].rows { GoneForGood(t, m, j, a); }
    if a !in t.states[m + 1].rows { GoneForGood(t, m + 1, j, a); }
    SettledIsFinal(t, i, m, a);
    if PurgesKey(t, m, k) {
      var x :| x in t.states[m].rows && Carries(t.states[m].rows[x], k) && x !in t.states[m + 1].rows;
      OneRowPerKey(t, m, k, a, x);
    }
  }

  // The enqueue at position `i` is under the key, and `a` is the job its caller is answered with.
  ghost predicate Answers(t: Run, i: nat, k: Key, a: Id)
    requires IsRun(t) && i < |t.events|
  {
    && t.events[i].Enqueue? && Carries(InsertRow(t.events[i].job, t.events[i].at), k)
    && a in t.states[i + 1].rows && Carries(t.states[i + 1].rows[a], k)
  }

  // Every submission under a key is answered, with one job: its own if it created one, and otherwise
  // the one that held the key already.
  lemma EverySubmissionIsAnswered(t: Run, i: nat, k: Key)
    requires IsRun(t) && i < |t.events| && t.events[i].Enqueue?
    requires Carries(InsertRow(t.events[i].job, t.events[i].at), k)
    ensures exists a :: Answers(t, i, k, a) && forall b | Answers(t, i, k, b) :: b == a
    ensures CreatesKey(t, i, k) <==> Answers(t, i, k, t.events[i].job.id)
    ensures forall a | a in t.states[i].rows && Carries(t.states[i].rows[a], k) :: Answers(t, i, k, a)
  {
    var s, j := t.states[i], t.events[i].job;
    RowStep(t, i, j.id);
    if Creates(s, t.events[i]) {
      assert Answers(t, i, k, j.id);
    } else {
      var a :| a in s.rows && SameKey(s.rows[a], j.owner, j.kind, j.key);
      RowStep(t, i, a);
      assert Answers(t, i, k, a);
    }
    forall a | a in s.rows && Carries(s.rows[a], k) ensures Answers(t, i, k, a) { RowStep(t, i, a); }
    forall a, b | Answers(t, i, k, a) && Answers(t, i, k, b) ensures a == b { OneRowPerKey(t, i + 1, k, a, b); }
  }

  // Two submissions under a key are answered with the same job if and only if the key was not
  // purged in between.
  lemma AnswersAgree(t: Run, i: nat, j: nat, k: Key, a: Id, b: Id)
    requires IsRun(t) && i < j < |t.events| && Answers(t, i, k, a) && Answers(t, j, k, b)
    ensures a == b <==> !exists m | i < m < j :: PurgesKey(t, m, k)
  {
    HolderEndures(t, i + 1, j + 1, k, a, b);
    forall id | id in t.states[j].rows ensures id in t.states[j + 1].rows { RowStep(t, j, id); }
    assert !PurgesKey(t, j, k);
  }

  // A key is given to a second job only once the first has settled and outlived its retention.
  lemma ReuseWaitsForRetention(t: Run, i: nat, j: nat, k: Key)
    requires IsRun(t) && i < j < |t.events| && CreatesKey(t, i, k) && CreatesKey(t, j, k)
    ensures exists m | i < m < j ::
      && t.events[m].Purge?
      && var r := RowAt(t, m, t.events[i].job.id);
         && r.Some? && r.value.status.Terminal() && r.value.settledAt.Some?
         && (RowLocks(t) ==> t.states[i + 1].now <= r.value.settledAt.value)
         && r.value.settledAt.value + RETENTION < t.states[j].now
  {
    var a := t.events[i].job.id;
    RowStep(t, i, a);
    RowInvariant(t, i, a);
    KeyStep(t, j, k);
    if a in t.states[j].rows {
      SettledIsFinal(t, i + 1, j, a);
    } else {
      var m := LastSeen(t, i + 1, j, a);
      PurgeIsSafe(t, m, a);
      if RowLocks(t) { SettledAfterChange(t, i, m, a); }
      ClockAdvances(t, m + 1, j);
    }
  }

  /* The key does expire: a run that creates a second job under it. */

  function Keyed(id: Id): NewJob {
    Submission(id, 1).(key := Some("key"))
  }

  function ReusingRun(): Run {
    var job, late := Keyed(1), RETENTION + 1;
    var r1 := InsertRow(job, 0);
    var r2 := ClaimRow(r1, "w", 1, 0);
    var r3 := SettleRow(r2, Success(None), Stamp(0, 0));
    Run(
      [EMPTY, Single(r1, 0), Single(r2, 0), Single(r3, 0), Db(map[], late, {1}),
       Db(map[2 := InsertRow(Keyed(2), late)], late, {1, 2})],
      [Enqueue(job, 0, 0), Take("w", 0), Settle(1, "w", Success(None), Stamp(0, 0), 0), Purge(late, late),
       Enqueue(Keyed(2), late, late)])
  }

  lemma ReusingRunBegins()
    ensures var t := ReusingRun(); StepAt(t, 0) && StepAt(t, 1) && StepAt(t, 2)
  {
    var t := ReusingRun();
    EnqueueStep(Keyed(1));
    TakeStep(t.states[1].rows[1], "w", 0);
    SingleStep(t.states[2].rows[1], 0, t.events[2]);
  }

  lemma ReusingRunEnds()
    ensures var t := ReusingRun(); StepAt(t, 3) && StepAt(t, 4)
  {
  }

  lemma ReusingRunIsRun()
    ensures IsRun(ReusingRun())
  {
    ReusingRunBegins();
    ReusingRunEnds();
    FiveSteps(ReusingRun());
  }

  lemma KeyIsReused()
    ensures var t, k := ReusingRun(), Key(1, "k", "key");
      IsRun(t) && CreatesKey(t, 0, k) && CreatesKey(t, 4, k) && Answers(t, 0, k, 1) && Answers(t, 4, k, 2)
  {
    ReusingRunIsRun();
    var t, k := ReusingRun(), Key(1, "k", "key");
    assert Creates(t.states[0], t.events[0]) && Carries(t.states[1].rows[1], k);
    assert Creates(t.states[4], t.events[4]) && Carries(t.states[5].rows[2], k);
  }
}
