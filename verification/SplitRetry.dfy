/**
 The retryable failure as it executes: a plain read, a decision, then a guarded write, with any
 statement of anybody in between. The guard names the worker, not the claim, so the decision can
 be stale when the write lands; this module says exactly when that breaks the attempt cap.
 */
module SplitRetry {
  import opened Jobs
  import opened Queue
  import opened Reachable
  import opened Attempts
  import opened Examples

  // A retry that has read and neither written nor been given up, with the counters it read.
  datatype Open = Open(id: Id, worker: string, error: Option<Blob>, attempt: int, maxAttempts: int)

  datatype Sys = Sys(db: Db, open: map<nat, Open>)

  datatype Move =
    | Read(call: nat, id: Id, worker: string, error: Option<Blob>, done: Time)
    | Write(call: nat, stamp: Stamp, done: Time)
    | Drop(call: nat, done: Time)
    | Other(event: Event)

  // The statement the decision chose.
  function WriteEvent(o: Open, stamp: Stamp, done: Time): Event {
    if o.attempt < o.maxAttempts then Requeue(o.id, o.worker, stamp.first, done)
    else Settle(o.id, o.worker, Failure(o.error), stamp, done)
  }

  // The same call as one indivisible step.
  function RetryEvent(o: Open, stamp: Stamp, done: Time): Event {
    Retry(o.id, o.worker, o.error, stamp, done)
  }

  ghost predicate CanMove(s: Sys, m: Move) {
    match m
    case Read(call, _, _, _, done) => call !in s.open && s.db.now <= done
    case Write(call, stamp, done) => call in s.open && s.db.now <= done && Stamped(stamp, done)
    case Drop(call, done) => call in s.open && s.db.now <= done
    case Other(e) => Enabled(s.db, e) && !e.Requeue? && !e.Retry?
  }

  ghost function Moved(s: Sys, m: Move): Sys
    requires CanMove(s, m)
  {
    match m
    case Read(call, id, worker, error, done) =>
      Sys(s.db.(now := done),
          if id in s.db.rows && Holds(s.db.rows[id], worker)
          then s.open[call := Open(id, worker, error, s.db.rows[id].attempt, s.db.rows[id].maxAttempts)]
          else s.open)
    case Write(call, stamp, done) =>
      Sys(Apply(s.db, WriteEvent(s.open[call], stamp, done)), s.open - {call})
    case Drop(call, done) => Sys(s.db.(now := done), s.open - {call})
    case Other(e) => Sys(Apply(s.db, e), s.open)
  }

  datatype SplitRun = SplitRun(states: seq<Sys>, moves: seq<Move>)

  ghost predicate MoveAt(t: SplitRun, i: nat)
    requires i < |t.moves| < |t.states|
  {
    CanMove(t.states[i], t.moves[i]) && t.states[i + 1] == Moved(t.states[i], t.moves[i])
  }

  ghost predicate IsSplitRun(t: SplitRun) {
    && |t.states| == |t.moves| + 1
    && t.states[0].db.rows == map[] && t.states[0].db.minted == {} && t.states[0].open == map[]
    && forall i | 0 <= i < |t.moves| :: MoveAt(t, i)
  }

  /* Every split run is a run of the queue's statements, so all that holds of those holds of it. */

  ghost function AsEvent(s: Sys, m: Move, atomic: bool): Event
    requires CanMove(s, m)
  {
    match m
    case Read(_, _, _, _, done) => Idle(done)
    case Write(call, stamp, done) =>
      if atomic then RetryEvent(s.open[call], stamp, done) else WriteEvent(s.open[call], stamp, done)
    case Drop(_, done) => Idle(done)
    case Other(e) => e
  }

  ghost function AsRun(t: SplitRun, atomic: bool): Run
    requires IsSplitRun(t)
  {
    Run(seq(|t.states|, i requires 0 <= i < |t.states| => t.states[i].db),
        seq(|t.moves|, i requires 0 <= i < |t.moves| => assert MoveAt(t, i); AsEvent(t.states[i], t.moves[i], atomic)))
  }

  lemma MoveIsEvent(s: Sys, m: Move)
    requires CanMove(s, m)
    ensures Enabled(s.db, AsEvent(s, m, false)) && Moved(s, m).db == Apply(s.db, AsEvent(s, m, false))
  {
  }

  lemma SplitRunIsRun(t: SplitRun)
    requires IsSplitRun(t)
    ensures IsRun(AsRun(t, false))
  {
    var u := AsRun(t, false);
    forall i | 0 <= i < |u.events| ensures StepAt(u, i) {
      assert MoveAt(t, i);
      MoveIsEvent(t.states[i], t.moves[i]);
    }
  }

  /* When the two steps act as one. */

  // The move lets a worker take back the job while its own retry of it is still open.
  predicate SelfReclaims(s: Sys, m: Move, id: Id) {
    && m.Other? && m.event.Claim? && id in m.event.taken
    && exists c | c in s.open :: s.open[c].worker == m.event.worker && s.open[c].id == id
  }

  // None of the first `n` moves does that to job `id`.
  ghost predicate NoSelfReclaim(t: SplitRun, n: nat, id: Id)
    requires n <= |t.moves| < |t.states|
  {
    forall i | 0 <= i < n :: !SelfReclaims(t.states[i], t.moves[i], id)
  }

  // If the retrying worker holds the job, what it read is still what the row says.
  ghost predicate Fresh(db: Db, o: Open) {
    && o.id in db.minted
    && (o.id in db.rows && Holds(db.rows[o.id], o.worker) ==>
          db.rows[o.id].attempt == o.attempt && db.rows[o.id].maxAttempts == o.maxAttempts)
  }

  lemma FreshKept(s: Db, e: Event, o: Open)
    requires Enabled(s, e) && Fresh(s, o)
    requires e.Claim? && e.worker == o.worker ==> o.id !in e.taken
    ensures Fresh(Apply(s, e), o)
  {
  }

  lemma {:induction false} ReadsStayFresh(t: SplitRun, n: nat, c: nat)
    requires IsSplitRun(t) && n < |t.states| && c in t.states[n].open
    requires NoSelfReclaim(t, n, t.states[n].open[c].id)
    ensures Fresh(t.states[n].db, t.states[n].open[c])
  {
    if n > 0 {
      var s, m := t.states[n - 1], t.moves[n - 1];
      assert MoveAt(t, n - 1);
      MoveIsEvent(s, m);
      if c in s.open {
        ReadsStayFresh(t, n - 1, c);
        assert !SelfReclaims(s, m, s.open[c].id);
        FreshKept(s.db, AsEvent(s, m, false), s.open[c]);
      } else {
        SplitRunIsRun(t);
        RowInvariant(AsRun(t, false), n - 1, m.id);
      }
    }
  }

  // A write on fresh counters has the effect of the indivisible retry, whether or not its guard
  // still matches.
  lemma FreshWriteIsAtomic(s: Db, o: Open, stamp: Stamp, done: Time)
    requires s.now <= done && Stamped(stamp, done) && Fresh(s, o)
    ensures Enabled(s, RetryEvent(o, stamp, done))
    ensures Apply(s, WriteEvent(o, stamp, done)) == Apply(s, RetryEvent(o, stamp, done))
  {
  }

  // Without self-reclaims a split run is, table for table, a run with atomic retries.
  lemma SplitActsAtomically(t: SplitRun)
    requires IsSplitRun(t) && forall id :: NoSelfReclaim(t, |t.moves|, id)
    ensures IsRun(AsRun(t, true)) && AtomicRetries(AsRun(t, true))
    ensures AsRun(t, true).states == AsRun(t, false).states
  {
    var u := AsRun(t, true);
    forall i | 0 <= i < |u.events| ensures StepAt(u, i) && !u.events[i].Requeue? {
      assert MoveAt(t, i);
      var s, m := t.states[i], t.moves[i];
      MoveIsEvent(s, m);
      if m.Write? {
        assert NoSelfReclaim(t, |t.moves|, s.open[m.call].id);
        ReadsStayFresh(t, i, m.call);
        FreshWriteIsAtomic(s.db, s.open[m.call], m.stamp, m.done);
      }
    }
  }

  // A job's cap holds for as long as no worker has taken it back under its own open retry, whatever
  // happens to other jobs, or later.
  lemma CapHoldsWithoutSelfReclaim(t: SplitRun, n: nat, id: Id)
    requires IsSplitRun(t) && n < |t.states| && NoSelfReclaim(t, n, id)
    ensures IsRun(AsRun(t, false)) && NeverOverruns(AsRun(t, false), n, id)
    ensures id in t.states[n].db.rows ==> CapOk(t.states[n].db.rows[id])
  {
    var u := AsRun(t, false);
    SplitRunIsRun(t);
    forall i | 0 <= i < n ensures !Overruns(u.states[i], u.events[i], id) {
      assert MoveAt(t, i);
      var s, m := t.states[i], t.moves[i];
      if m.Write? && s.open[m.call].id == id { ReadsStayFresh(t, i, m.call); }
    }
    CapHolds(u, n, id);
    assert id in t.states[n].db.rows ==> RowAt(u, n, id) == Some(t.states[n].db.rows[id]);
  }

  /* What a retry leaves. */

  // While a call is open, it stands for the report it was made with and the counters it read.
  lemma {:induction false} CallStandsForRead(t: SplitRun, i: nat, n: nat, c: nat)
    requires IsSplitRun(t) && i < n < |t.states| && t.moves[i].Read? && t.moves[i].call == c
    requires forall k | i < k <= n :: c in t.states[k].open
    ensures var m, rows, o := t.moves[i], t.states[i].db.rows, t.states[n].open[c];
      && m.id in rows && Holds(rows[m.id], m.worker)
      && o == Open(m.id, m.worker, m.error, rows[m.id].attempt, rows[m.id].maxAttempts)
    decreases n
  {
    assert MoveAt(t, i) && MoveAt(t, n - 1);
    if i + 1 < n { CallStandsForRead(t, i, n - 1, c); }
  }

  // The write of a call whose worker still holds the job hands it back, if the read saw an attempt
  // left, and fails it with the reported error otherwise; it changes no other row, and none at all if
  // the claim was lost.
  lemma RetryLeaves(t: SplitRun, i: nat, n: nat, c: nat)
    requires IsSplitRun(t) && i < n < |t.moves| && t.moves[i].Read? && t.moves[i].call == c
    requires t.moves[n].Write? && t.moves[n].call == c && forall k | i < k <= n :: c in t.states[k].open
    ensures var m, w, read, rows := t.moves[i], t.moves[n], t.states[i].db.rows, t.states[n].db.rows;
      && m.id in read
      && t.states[n + 1].db.rows ==
         if m.id !in rows || !Holds(rows[m.id], m.worker) then rows
         else if read[m.id].attempt < read[m.id].maxAttempts then rows[m.id := RequeueRow(rows[m.id], w.stamp.first)]
         else rows[m.id := SettleRow(rows[m.id], Failure(m.error), w.stamp)]
  {
    CallStandsForRead(t, i, n, c);
    assert MoveAt(t, n);
    WriteRewrites(t.states[n].db, WriteEvent(t.states[n].open[c], t.moves[n].stamp, t.moves[n].done));
  }

  lemma WriteRewrites(s: Db, e: Event)
    requires e.Requeue? || e.Settle?
    ensures Apply(s, e).rows ==
      if e.id !in s.rows || !Holds(s.rows[e.id], e.worker) then s.rows
      else if e.Requeue? then s.rows[e.id := RequeueRow(s.rows[e.id], e.at)]
      else s.rows[e.id := SettleRow(s.rows[e.id], e.outcome, e.stamp)]
  {
  }

  /* Exactly when a write breaks the cap. */

  // What the retry read, plus the claims since, is what its write finds.
  lemma {:induction false} ReadPlusClaims(t: SplitRun, i: nat, n: nat, c: nat)
    requires IsSplitRun(t) && i < n < |t.states| && t.moves[i].Read? && t.moves[i].call == c
    requires forall k | i < k <= n :: c in t.states[k].open
    requires t.states[n].open[c].id in t.states[n].db.rows
    ensures var o, r := t.states[n].open[c], t.states[n].db.rows[t.states[n].open[c].id];
      && r.maxAttempts == o.maxAttempts
      && r.attempt == o.attempt + ClaimCount(AsRun(t, false), n, o.id) - ClaimCount(AsRun(t, false), i, o.id)
    decreases n
  {
    var u, o := AsRun(t, false), t.states[n].open[c];
    SplitRunIsRun(t);
    assert MoveAt(t, n - 1);
    RowStep(u, n - 1, o.id);
    if i + 1 < n {
      if o.id in t.states[n - 1].db.rows {
        ReadPlusClaims(t, i, n - 1, c);
        OnlyClaimsCount(t.states[n - 1].db.rows[o.id], o.id, u.events[n - 1]);
      } else {
        OpenIsMinted(t, n - 1, c);
      }
    } else {
      assert !ClaimsJob(u.events[i], o.id);
    }
  }

  lemma {:induction false} OpenIsMinted(t: SplitRun, n: nat, c: nat)
    requires IsSplitRun(t) && n < |t.states| && c in t.states[n].open
    ensures t.states[n].open[c].id in t.states[n].db.minted
  {
    if n > 0 {
      SplitRunIsRun(t);
      assert MoveAt(t, n - 1);
      var u := AsRun(t, false);
      ClockAdvances(u, n - 1, n);
      if c in t.states[n - 1].open { OpenIsMinted(t, n - 1, c); } else { RowInvariant(u, n - 1, t.moves[n - 1].id); }
    }
  }

  // A write that takes effect on a row within its cap breaks the cap if and only if the read chose
  // to requeue and the claims since the read have used up what was left.
  lemma WriteBreaksCapIff(t: SplitRun, i: nat, n: nat, c: nat)
    requires IsSplitRun(t) && i < n < |t.moves| && t.moves[i].Read? && t.moves[i].call == c
    requires forall k | i < k <= n :: c in t.states[k].open
    requires t.moves[n].Write? && t.moves[n].call == c
    requires var o := t.states[n].open[c];
      && o.id in t.states[n].db.rows && Holds(t.states[n].db.rows[o.id], o.worker)
      && CapOk(t.states[n].db.rows[o.id])
    ensures var o, u := t.states[n].open[c], AsRun(t, false);
      && o.id in t.states[n + 1].db.rows
      && (!CapOk(t.states[n + 1].db.rows[o.id]) <==>
            o.attempt < o.maxAttempts <= o.attempt + ClaimCount(u, n, o.id) - ClaimCount(u, i, o.id))
  {
    ReadPlusClaims(t, i, n, c);
    assert MoveAt(t, n);
    var s, m := t.states[n], t.moves[n];
    MoveIsEvent(s, m);
    Successor(s.db, AsEvent(s, m, false), s.open[c].id);
  }

  /* The run that breaks it. */

  lemma TakeMove(r: Row, worker: string, at: Time, open: map<nat, Open>)
    requires r.status.Pending? && r.runAt <= at && r.kind == "k" && r.attempt < SMALLINT_MAX
    ensures var s, m := Sys(Single(r, at), open), Other(Take(worker, at));
      CanMove(s, m) && Moved(s, m) == Sys(Single(ClaimRow(r, worker, 1, at), at), open)
  {
  }

  lemma SweepMove(r: Row, now: Time, at: Time, open: map<nat, Open>)
    requires now <= at && Lapsed(r, at)
    ensures var s, m := Sys(Single(r, now), open), Other(SweepUp(at));
      CanMove(s, m) && Moved(s, m) == Sys(Single(ReapRow(r, Stamp(at, at)), at), open)
  {
  }

  // A worker opens its retry, loses the job to the sweep, takes it back, and then its old write
  // lands.
  function StaleRun(): SplitRun {
    var job := Submission(1, 2);
    var r1 := InsertRow(job, 0);
    var r2 := ClaimRow(r1, "w", 1, 0);
    var r4 := ReapRow(r2, Stamp(2, 2));
    var r5 := ClaimRow(r4, "w", 1, 2);
    var r6 := RequeueRow(r5, 2);
    var r7 := ClaimRow(r6, "v", 1, 2);
    var open := map[0 := Open(1, "w", None, 1, 2)];
    SplitRun(
      [Sys(EMPTY, map[]), Sys(Single(r1, 0), map[]), Sys(Single(r2, 0), map[]), Sys(Single(r2, 0), open),
       Sys(Single(r4, 2), open), Sys(Single(r5, 2), open), Sys(Single(r6, 2), map[]), Sys(Single(r7, 2), map[])],
      [Other(Enqueue(job, 0, 0)), Other(Take("w", 0)), Read(0, 1, "w", None, 0),
       Other(SweepUp(2)), Other(Take("w", 2)), Write(0, Stamp(2, 2), 2), Other(Take("v", 2))])
  }

  lemma EnqueueMove(job: NewJob)
    requires job.id == 1 && Insertable(job)
    ensures var s, m := Sys(EMPTY, map[]), Other(Enqueue(job, 0, 0));
      CanMove(s, m) && Moved(s, m) == Sys(Single(InsertRow(job, 0), 0), map[])
  {
  }

  lemma StaleRunBegins()
    ensures var t := StaleRun(); MoveAt(t, 0) && MoveAt(t, 1)
  {
    var t := StaleRun();
    var job := t.moves[0].event.job;
    EnqueueMove(job);
    TakeMove(InsertRow(job, 0), "w", 0, map[]);
  }

  lemma StaleRunReads()
    ensures MoveAt(StaleRun(), 2)
  {
  }

  lemma StaleRunLoses()
    ensures var t := StaleRun(); MoveAt(t, 3) && MoveAt(t, 4)
  {
    var t := StaleRun();
    SweepMove(t.states[3].db.rows[1], 0, 2, t.states[3].open);
    TakeMove(t.states[4].db.rows[1], "w", 2, t.states[3].open);
  }

  lemma StaleRunWrites()
    ensures var t := StaleRun(); MoveAt(t, 5) && MoveAt(t, 6)
  {
    var t := StaleRun();
    var open := t.states[3].open;
    SingleStep(t.states[5].db.rows[1], 2, WriteEvent(open[0], Stamp(2, 2), 2));
    assert open - {0} == map[];
    TakeMove(t.states[6].db.rows[1], "v", 2, map[]);
  }

  // A job capped at two attempts is run three times.
  lemma StaleWriteOverrunsCap()
    ensures var t := StaleRun();
      && IsSplitRun(t) && !NoSelfReclaim(t, 7, 1)
      && t.states[7].db.rows[1].maxAttempts == 2 && ClaimCount(AsRun(t, false), 7, 1) == 3
  {
    var t := StaleRun();
    StaleRunBegins();
    StaleRunReads();
    StaleRunLoses();
    StaleRunWrites();
    assert IsSplitRun(t) by {
      forall i | 0 <= i < |t.moves| ensures MoveAt(t, i) {
        assert i == 0 || i == 1 || i == 2 || i == 3 || i == 4 || i == 5 || i == 6;
      }
    }
    SplitRunIsRun(t);
    AttemptCountsClaims(AsRun(t, false), 7, 1);
    assert RowAt(AsRun(t, false), 7, 1) == Some(t.states[7].db.rows[1]);
    if NoSelfReclaim(t, 7, 1) { CapHoldsWithoutSelfReclaim(t, 7, 1); }
  }
}
