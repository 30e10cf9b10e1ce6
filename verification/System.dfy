/**
 The service as deployed: claims and sweeps that lock and skip, writes that commit later than they
 run, rollbacks, and retries whose transaction reads first and writes later, all interleaved. Every
 run of it is a run of `Locking` and commits the tables of a run of `Queue`, so whatever is proved of
 those holds here; and the attempt cap holds unless a worker takes a job back while its own retry of
 it is open.
 */
module System {
  import opened Jobs
  import opened Queue
  import opened Reachable
  import opened Attempts
  import opened Locking
  import opened Progress
  import Split = SplitRetry

  // A retry is numbered as its transaction is; it holds no lock before it writes.
  datatype Service = Service(fine: Fine, retries: map<nat, Split.Open>)

  datatype Step =
    | Locks(action: Action)
    | Reads(call: nat, id: Id, worker: string, error: Option<Blob>, done: Time)
    | Writes(call: nat, stamp: Stamp, done: Time)
    | Gets(call: nat, done: Time)
    | Ends(call: nat, done: Time)
    | Drops(call: nat, done: Time)

  predicate ActsFor(a: Action, call: nat) {
    (a.SelectClaim? || a.SelectReap? || a.Execute? || a.Resume? || a.Commit? || a.Rollback?) && a.tx == call
  }

  // The same step as the locking system sees it.
  function AsAction(s: Service, m: Step): Action {
    match m
    case Locks(a) => a
    case Reads(_, _, _, _, done) => Pass(done)
    case Writes(call, stamp, done) =>
      if call in s.retries then Execute(call, Split.WriteEvent(s.retries[call], stamp, done)) else Pass(done)
    case Gets(call, done) => Resume(call, done)
    case Ends(call, done) => Commit(call, map[], done)
    case Drops(call, done) => if call in s.fine.open then Rollback(call, done) else Pass(done)
  }

  // Requeues are written by retries only. A retry that waited for its row and found it changed is
  // back where it was before its write.
  ghost predicate CanStep(s: Service, m: Step) {
    && CanAct(s.fine, AsAction(s, m))
    && match m
       case Locks(a) => (a.Execute? ==> !a.event.Requeue?) && forall call | call in s.retries :: !ActsFor(a, call)
       case Reads(call, _, _, _, _) => call !in s.retries && call !in s.fine.open
       case Writes(call, _, _) => call in s.retries && call !in s.fine.open
       case Gets(call, _) => call in s.retries
       case Ends(call, _) => call in s.retries
       case Drops(call, _) => call in s.retries
  }

  // The write's guard matches no row any more.
  ghost predicate WritesNothing(s: Service, m: Step)
    requires m.Writes? && m.call in s.retries
  {
    Takes(s.fine.db, Split.WriteEvent(s.retries[m.call], m.stamp, m.done)) == {}
  }

  ghost function Stepped(s: Service, m: Step): Service
    requires CanStep(s, m)
  {
    Service(Act(s.fine, AsAction(s, m)),
      match m
      case Locks(_) => s.retries
      case Reads(call, id, worker, error, _) =>
        var rows := s.fine.db.rows;
        if id in rows && Holds(rows[id], worker)
        then s.retries[call := Split.Open(id, worker, error, rows[id].attempt, rows[id].maxAttempts)]
        else s.retries
      case Writes(call, _, _) => if WritesNothing(s, m) then s.retries - {call} else s.retries
      case Gets(_, _) => s.retries
      case Ends(call, _) => s.retries - {call}
      case Drops(call, _) => s.retries - {call})
  }

  datatype History = History(states: seq<Service>, steps: seq<Step>)

  ghost predicate SteppedAt(t: History, i: nat)
    requires i < |t.steps| < |t.states|
  {
    CanStep(t.states[i], t.steps[i]) && t.states[i + 1] == Stepped(t.states[i], t.steps[i])
  }

  ghost predicate IsHistory(t: History) {
    && |t.states| == |t.steps| + 1
    && t.states[0].fine.db.rows == map[] && t.states[0].fine.db.minted == {}
    && t.states[0].fine.open == map[] && t.states[0].retries == map[]
    && forall i | 0 <= i < |t.steps| :: SteppedAt(t, i)
  }

  /* As a run of the locking system. */

  function Fines(t: History): FineRun
    requires |t.states| == |t.steps| + 1
  {
    FineRun(seq(|t.states|, i requires 0 <= i < |t.states| => t.states[i].fine),
            seq(|t.steps|, i requires 0 <= i < |t.steps| => AsAction(t.states[i], t.steps[i])))
  }

  lemma HistoryIsFineRun(t: History)
    requires IsHistory(t)
    ensures IsFineRun(Fines(t))
  {
    forall i | 0 <= i < |t.steps| ensures FineStepAt(Fines(t), i) {
      assert SteppedAt(t, i);
    }
  }

  // Table for table, the service runs the queue's one-step statements.
  lemma ServiceRunsTheQueue(t: History)
    requires IsHistory(t)
    ensures IsRun(Linearised(Fines(t))) && RowLocks(Linearised(Fines(t)))
    ensures forall n | 0 <= n < |t.states| :: Linearised(Fines(t)).states[n] == t.states[n].fine.db
  {
    HistoryIsFineRun(t);
    RunsLinearise(Fines(t));
  }

  /* As a run of split retries: a retry writes when it commits. */

  function StampOf(e: Event): Stamp {
    match e
    case Settle(_, _, _, stamp, _) => stamp
    case _ => Stamp(ReadingOf(e, 0), ReadingOf(e, 0))
  }

  // A retry's open transaction has written what the retry decided; nobody else requeues.
  predicate Matches(o: Txn, retry: Option<Split.Open>) {
    match retry
    case Some(r) => o.Writing? && o.event == Split.WriteEvent(r, StampOf(o.event), o.event.done)
    case None => o.Writing? ==> !o.event.Requeue?
  }

  function RetryOf(s: Service, x: nat): Option<Split.Open> {
    if x in s.retries then Some(s.retries[x]) else None
  }

  ghost predicate RetriesMatch(s: Service) {
    forall x | x in s.fine.open :: Matches(s.fine.open[x], RetryOf(s, x))
  }

  ghost function AsMove(s: Service, m: Step): Split.Move {
    match m
    case Locks(a) => Split.Other(Locking.AsEvent(s.fine, a))
    case Reads(call, id, worker, error, done) => Split.Read(call, id, worker, error, done)
    case Writes(call, _, done) =>
      if call in s.retries && WritesNothing(s, m) then Split.Drop(call, done) else Split.Other(Idle(done))
    case Gets(_, done) => Split.Other(Idle(done))
    case Ends(call, done) =>
      if call in s.fine.open && s.fine.open[call].Writing?
      then Split.Write(call, StampOf(s.fine.open[call].event), done) else Split.Drop(call, done)
    case Drops(call, done) => Split.Drop(call, done)
  }

  ghost function Splits(t: History): Split.SplitRun
    requires |t.states| == |t.steps| + 1
  {
    Split.SplitRun(
      seq(|t.states|, i requires 0 <= i < |t.states| => Split.Sys(t.states[i].fine.db, t.states[i].retries)),
      seq(|t.steps|, i requires 0 <= i < |t.steps| => AsMove(t.states[i], t.steps[i])))
  }

  lemma StepKeepsRetries(s: Service, m: Step)
    requires CanStep(s, m) && RetriesMatch(s)
    ensures RetriesMatch(Stepped(s, m))
  {
  }

  lemma EndIsWrite(s: Service, m: Step)
    requires CanStep(s, m) && FineInv(s.fine) && RetriesMatch(s) && m.Ends?
    ensures var sys := Split.Sys(s.fine.db, s.retries);
      && Split.CanMove(sys, AsMove(s, m))
      && Split.Moved(sys, AsMove(s, m)) == Split.Sys(Stepped(s, m).fine.db, Stepped(s, m).retries)
  {
    var x := s.fine.open[m.call];
    assert Matches(x, RetryOf(s, m.call));
    assert Stands(s.fine.db, x);
    WriteCanEnd(s.fine.db, x, m.done);
    assert Ending(x.event, m.done) == Split.WriteEvent(s.retries[m.call], StampOf(x.event), m.done);
  }

  lemma LockIsOther(s: Service, m: Step)
    requires CanStep(s, m) && FineInv(s.fine) && RetriesMatch(s) && m.Locks?
    ensures var sys := Split.Sys(s.fine.db, s.retries);
      && Split.CanMove(sys, AsMove(s, m))
      && Split.Moved(sys, AsMove(s, m)) == Split.Sys(Stepped(s, m).fine.db, Stepped(s, m).retries)
  {
    ActionIsOneEvent(s.fine, m.action);
    var a := m.action;
    if a.Commit? { assert Matches(s.fine.open[a.tx], RetryOf(s, a.tx)); }
  }

  lemma StepIsMove(s: Service, m: Step)
    requires CanStep(s, m) && FineInv(s.fine) && RetriesMatch(s)
    ensures var sys := Split.Sys(s.fine.db, s.retries);
      && Split.CanMove(sys, AsMove(s, m))
      && Split.Moved(sys, AsMove(s, m)) == Split.Sys(Stepped(s, m).fine.db, Stepped(s, m).retries)
  {
    match m
    case Locks(_) => LockIsOther(s, m);
    case Reads(_, _, _, _, _) =>
    case Writes(_, _, done) => IdleChangesNothing(s.fine.db, done);
    case Gets(_, done) => IdleChangesNothing(s.fine.db, done);
    case Ends(_, _) => EndIsWrite(s, m);
    case Drops(_, _) =>
  }

  lemma {:induction false} RetriesMatchAt(t: History, n: nat)
    requires IsHistory(t) && n < |t.states|
    ensures FineInv(t.states[n].fine) && RetriesMatch(t.states[n])
  {
    HistoryIsFineRun(t);
    FineInvariantHolds(Fines(t), n);
    if n > 0 {
      RetriesMatchAt(t, n - 1);
      assert SteppedAt(t, n - 1);
      StepKeepsRetries(t.states[n - 1], t.steps[n - 1]);
    }
  }

  lemma HistoryIsSplitRun(t: History)
    requires IsHistory(t)
    ensures Split.IsSplitRun(Splits(t))
  {
    forall i | 0 <= i < |t.steps| ensures Split.MoveAt(Splits(t), i) {
      assert SteppedAt(t, i);
      RetriesMatchAt(t, i);
      StepIsMove(t.states[i], t.steps[i]);
    }
  }

  // Both views commit the same statements.
  lemma ViewsAgree(t: History)
    requires IsHistory(t)
    ensures Split.IsSplitRun(Splits(t)) && Split.AsRun(Splits(t), false) == Linearised(Fines(t))
  {
    HistoryIsSplitRun(t);
    var a, b := Split.AsRun(Splits(t), false), Linearised(Fines(t));
    forall i | 0 <= i < |t.steps| ensures a.events[i] == b.events[i] {
      assert SteppedAt(t, i);
      RetriesMatchAt(t, i);
      assert Split.MoveAt(Splits(t), i);
      SameEvent(t.states[i], t.steps[i]);
    }
    assert a.states == b.states && a.events == b.events;
  }

  lemma SameEvent(s: Service, m: Step)
    requires CanStep(s, m) && RetriesMatch(s) && Split.CanMove(Split.Sys(s.fine.db, s.retries), AsMove(s, m))
    ensures Split.AsEvent(Split.Sys(s.fine.db, s.retries), AsMove(s, m), false)
         == Locking.AsEvent(s.fine, AsAction(s, m))
  {
    if m.Ends? { assert Matches(s.fine.open[m.call], RetryOf(s, m.call)); }
  }

  // A claim commits the job to the worker whose own retry of it is still open.
  ghost predicate TakesBack(s: Service, m: Step, id: Id) {
    && m.Locks? && m.action.Commit? && m.action.tx in s.fine.open && s.fine.open[m.action.tx].Claiming?
    && id in m.action.stamps
    && exists c | c in s.retries ::
         s.retries[c].worker == s.fine.open[m.action.tx].worker && s.retries[c].id == id
  }

  lemma SelfReclaimIsTakeBack(s: Service, m: Step, id: Id)
    requires CanStep(s, m)
    ensures TakesBack(s, m, id) <==> Split.SelfReclaims(Split.Sys(s.fine.db, s.retries), AsMove(s, m), id)
  {
  }

  // A job's cap holds for as long as that has not happened to it; a retry that was given up is no
  // longer open.
  lemma ServiceKeepsCap(t: History, n: nat, id: Id)
    requires IsHistory(t) && n < |t.states|
    requires forall i | 0 <= i < n :: !TakesBack(t.states[i], t.steps[i], id)
    ensures id in t.states[n].fine.db.rows ==> CapOk(t.states[n].fine.db.rows[id])
    ensures IsRun(Linearised(Fines(t))) && NeverOverruns(Linearised(Fines(t)), n, id)
  {
    ViewsAgree(t);
    forall i | 0 <= i < n ensures !Split.SelfReclaims(Splits(t).states[i], Splits(t).moves[i], id) {
      assert SteppedAt(t, i);
      SelfReclaimIsTakeBack(t.states[i], t.steps[i], id);
    }
    Split.CapHoldsWithoutSelfReclaim(Splits(t), n, id);
  }

  // Recovered rather than lost: under the same condition, 2 * max_attempts rounds settle the job,
  // whatever its workers do.
  lemma ServiceSettles(t: History, marks: seq<nat>, id: Id, n: nat)
    requires IsHistory(t) && Rounds(Fines(t), marks, id, n) && marks != []
    requires id in t.states[marks[0]].fine.db.rows
    requires 2 * t.states[marks[0]].fine.db.rows[id].maxAttempts < |marks|
    requires forall i | 0 <= i < marks[|marks| - 1] :: !TakesBack(t.states[i], t.steps[i], id)
    ensures exists m | marks[0] <= m <= marks[|marks| - 1] ::
      id in t.states[m].fine.db.rows && t.states[m].fine.db.rows[id].status.Terminal()
  {
    var u := Linearised(Fines(t));
    ServiceKeepsCap(t, marks[|marks| - 1], id);
    JobSettles(Fines(t), marks, id, n);
    var m :| marks[0] <= m <= marks[|marks| - 1] && RowAt(u, m, id).Some? && RowAt(u, m, id).value.status.Terminal();
    assert t.states[m].fine.db.rows[id].status.Terminal();
  }

  /* What a call gets done. */

  lemma EndHoldsRow(s: Service, m: Step)
    requires CanStep(s, m) && FineInv(s.fine) && RetriesMatch(s) && m.Ends?
    ensures var o := s.retries[m.call];
      && o.id in s.fine.db.rows && Holds(s.fine.db.rows[o.id], o.worker)
      && m.call in s.fine.open && s.fine.open[m.call].Writing?
  {
    assert Matches(s.fine.open[m.call], RetryOf(s, m.call));
    CommitReports(s.fine, AsAction(s, m));
  }

  // A retryable failure that commits leaves the job as its report and its read decided, and every
  // other job alone.
  lemma ServiceRetryLeaves(t: History, i: nat, n: nat)
    requires IsHistory(t) && i < n < |t.steps| && t.steps[i].Reads? && t.steps[n].Ends?
    requires t.steps[n].call == t.steps[i].call && forall k | i < k <= n :: t.steps[i].call in t.states[k].retries
    ensures var m, f, read := t.steps[i], t.states[n].fine, t.states[i].fine.db.rows;
      && m.id in read && m.id in f.db.rows && m.call in f.open && f.open[m.call].Writing?
      && var r, w := f.db.rows[m.id], StampOf(f.open[m.call].event);
         && Holds(r, m.worker)
         && t.states[n + 1].fine.db.rows == f.db.rows[m.id :=
              if read[m.id].attempt < read[m.id].maxAttempts then RequeueRow(r, w.first)
              else SettleRow(r, Failure(m.error), w)]
  {
    EndIsSplitWrite(t, n);
    Split.CallStandsForRead(Splits(t), i, n, t.steps[i].call);
    Split.RetryLeaves(Splits(t), i, n, t.steps[i].call);
  }

  lemma EndIsSplitWrite(t: History, n: nat)
    requires IsHistory(t) && n < |t.steps| && t.steps[n].Ends?
    ensures Split.IsSplitRun(Splits(t)) && t.steps[n].call in t.states[n].retries
    ensures var c, f := t.steps[n].call, t.states[n].fine;
      var o := t.states[n].retries[c];
      && o.id in f.db.rows && Holds(f.db.rows[o.id], o.worker) && c in f.open && f.open[c].Writing?
      && Splits(t).moves[n] == Split.Write(c, StampOf(f.open[c].event), t.steps[n].done)
  {
    HistoryIsSplitRun(t);
    RetriesMatchAt(t, n);
    assert SteppedAt(t, n);
    EndHoldsRow(t.states[n], t.steps[n]);
  }

  // A retry waits for nothing but its row, and only to write it: it may read at any time, write once
  // it has read, get its row when nobody holds it, commit once it has it, and give up at any time.
  lemma RetriesWaitForRowsOnly(
    s: Service, call: nat, id: Id, worker: string, error: Option<Blob>, stamp: Stamp, done: Time)
    requires FineInv(s.fine) && RetriesMatch(s) && InOrder(s.fine.db.now, stamp, done)
    ensures call !in s.retries && call !in s.fine.open ==> CanStep(s, Reads(call, id, worker, error, done))
    ensures call in s.retries && call !in s.fine.open ==> CanStep(s, Writes(call, stamp, done))
    ensures call in s.retries && call in s.fine.open ==>
      if Waits(s.fine.open[call])
      then CanStep(s, Gets(call, done)) <==> s.fine.open[call].event.id !in Locked(s.fine)
      else CanStep(s, Ends(call, done))
    ensures call in s.retries ==> CanStep(s, Drops(call, done))
  {
    if call in s.fine.open {
      assert Matches(s.fine.open[call], RetryOf(s, call)) && Stands(s.fine.db, s.fine.open[call]);
    }
  }

  // An open retry stands in nobody else's way but through the row it holds.
  lemma OthersIgnoreRetries(s: Service, a: Action)
    requires CanAct(s.fine, a) && (a.Execute? ==> !a.event.Requeue?)
    requires a.Delete? || a.Pass? || a.tx !in s.retries
    ensures CanStep(s, Locks(a)) && Stepped(s, Locks(a)) == Service(Act(s.fine, a), s.retries)
  {
  }

  /* The service can do everything the queue can. */

  // The event's statement runs once everything before it is over, and finds nothing locked.
  ghost predicate InTurn(s: Db, e: Event) {
    && RunsFrom(e, s.now) && !e.Requeue?
    && (e.Claim? ==> e.skipped == {} && forall id | id in e.taken :: e.seen <= e.taken[id])
    && (e.Reap? ==> e.skipped == {} && forall id | id in e.recovered :: e.seen <= e.recovered[id].first)
  }

  function Twice(at: Time): Stamp {
    Stamp(at, at)
  }

  // The statement as transaction 0, in three steps.
  function StepsOf(s: Db, e: Event): (Step, Step, Step) {
    var pass := Locks(Pass(e.done));
    match e
    case Enqueue(_, _, done) => (Locks(Execute(0, e)), Locks(Commit(0, map[], done)), pass)
    case Settle(id, worker, _, _, done) =>
      (Locks(Execute(0, e)),
       if id in s.rows && Holds(s.rows[id], worker) then Locks(Commit(0, map[], done)) else pass,
       pass)
    case Claim(worker, kinds, limit, lease, _, seen, taken, done) =>
      (Locks(SelectClaim(0, worker, kinds, limit, lease, seen, taken.Keys, seen)),
       Locks(Commit(0, map id | id in taken :: Twice(taken[id]), done)), pass)
    case Reap(_, seen, recovered, done) => (Locks(SelectReap(0, seen, seen)), Locks(Commit(0, recovered, done)), pass)
    case Retry(id, worker, error, stamp, done) =>
      if id in s.rows && Holds(s.rows[id], worker)
      then (Reads(0, id, worker, error, s.now), Writes(0, stamp, done), Ends(0, done))
      else (Reads(0, id, worker, error, s.now), pass, pass)
    case Purge(seen, done) => (Locks(Delete(seen, done)), pass, pass)
    case _ => (pass, pass, pass)
  }

  function AtRest(s: Db): Service {
    Service(Fine(s, map[]), map[])
  }

  ghost predicate Leads(s: Service, m: Step, s': Service) {
    CanStep(s, m) && s' == Stepped(s, m)
  }

  // The three steps are possible one after the other, and lead from rest to rest.
  ghost predicate Plays(s: Db, e: Event, s1: Service, s2: Service) {
    var m := StepsOf(s, e);
    Leads(AtRest(s), m.0, s1) && Leads(s1, m.1, s2) && Leads(s2, m.2, AtRest(Apply(s, e)))
  }

  lemma LocksStep(f: Fine, a: Action)
    requires CanAct(f, a) && (a.Execute? ==> !a.event.Requeue?)
    ensures Leads(Service(f, map[]), Locks(a), Service(Act(f, a), map[]))
  {
  }

  lemma LockedPlay(s: Db, e: Event, a: Action, b: Action, f: Fine)
    requires StepsOf(s, e) == (Locks(a), Locks(b), Locks(Pass(e.done)))
    requires (a.Execute? ==> !a.event.Requeue?) && (b.Execute? ==> !b.event.Requeue?)
    requires CanAct(Fine(s, map[]), a) && f == Act(Fine(s, map[]), a)
    requires CanAct(f, b) && Act(f, b) == Fine(Apply(s, e), map[])
    ensures Plays(s, e, Service(f, map[]), AtRest(Apply(s, e)))
  {
    LocksStep(Fine(s, map[]), a);
    LocksStep(f, b);
    LocksStep(Fine(Apply(s, e), map[]), Pass(e.done));
  }

  lemma PlayEnqueue(s: Db, e: Event) returns (s1: Service, s2: Service)
    requires DbInv(s) && Enabled(s, e) && InTurn(s, e) && e.Enqueue?
    ensures Plays(s, e, s1, s2)
  {
    assert s.now <= ReadingOf(e, 0);
    if !Creates(s, e) {
      var w :| w in s.rows && SameKey(s.rows[w], e.job.owner, e.job.kind, e.job.key);
      assert w in Takes(s, e);
    }
    WriteAlone(s, e);
    var f := Act(Fine(s, map[]), Execute(0, e));
    LockedPlay(s, e, Execute(0, e), Commit(0, map[], e.done), f);
    s1, s2 := Service(f, map[]), AtRest(Apply(s, e));
  }

  lemma PlaySettle(s: Db, e: Event) returns (s1: Service, s2: Service)
    requires DbInv(s) && Enabled(s, e) && InTurn(s, e) && e.Settle?
    requires e.id in s.rows && Holds(s.rows[e.id], e.worker)
    ensures Plays(s, e, s1, s2)
  {
    assert s.now <= ReadingOf(e, 0);
    ReportTakes(s, e);
    WriteAlone(s, e);
    var f := Act(Fine(s, map[]), Execute(0, e));
    LockedPlay(s, e, Execute(0, e), Commit(0, map[], e.done), f);
    s1, s2 := Service(f, map[]), AtRest(Apply(s, e));
  }

  lemma PlayLostSettle(s: Db, e: Event) returns (s1: Service, s2: Service)
    requires DbInv(s) && Enabled(s, e) && InTurn(s, e) && e.Settle?
    requires e.id !in s.rows || !Holds(s.rows[e.id], e.worker)
    ensures Plays(s, e, s1, s2)
  {
    assert s.now <= ReadingOf(e, 0);
    ReportTakes(s, e);
    assert Apply(s, e).rows == s.rows;
    LockedPlay(s, e, Execute(0, e), Pass(e.done), Fine(Apply(s, e), map[]));
    s1, s2 := AtRest(Apply(s, e)), AtRest(Apply(s, e));
  }

  lemma PlayClaim(s: Db, e: Event) returns (s1: Service, s2: Service)
    requires DbInv(s) && Enabled(s, e) && InTurn(s, e) && e.Claim?
    ensures Plays(s, e, s1, s2)
  {
    var stamps := map id | id in e.taken :: Twice(e.taken[id]);
    ClaimAlone(s, e, stamps);
    var a := SelectClaim(0, e.worker, e.kinds, e.limit, e.lease, e.seen, e.taken.Keys, e.seen);
    var f := Act(Fine(s, map[]), a);
    LockedPlay(s, e, a, Commit(0, stamps, e.done), f);
    s1, s2 := Service(f, map[]), AtRest(Apply(s, e));
  }

  lemma PlayReap(s: Db, e: Event) returns (s1: Service, s2: Service)
    requires DbInv(s) && Enabled(s, e) && InTurn(s, e) && e.Reap?
    ensures Plays(s, e, s1, s2)
  {
    SweepAlone(s, e);
    var f := Act(Fine(s, map[]), SelectReap(0, e.seen, e.seen));
    LockedPlay(s, e, SelectReap(0, e.seen, e.seen), Commit(0, e.recovered, e.done), f);
    s1, s2 := Service(f, map[]), AtRest(Apply(s, e));
  }

  lemma RetryWrites(s: Db, e: Event, o: Split.Open)
    requires Enabled(s, e) && InTurn(s, e) && e.Retry? && e.id in s.rows && Holds(s.rows[e.id], e.worker)
    requires o == Split.Open(e.id, e.worker, e.error, s.rows[e.id].attempt, s.rows[e.id].maxAttempts)
    ensures var w := Split.WriteEvent(o, e.stamp, e.done);
      && Enabled(s, w) && s.now <= ReadingOf(w, 0) && Takes(s, w) == {e.id} && Apply(s, w) == Apply(s, e)
  {
    assert s.now <= ReadingOf(e, 0);
    ReportTakes(s, Split.WriteEvent(o, e.stamp, e.done));
    Split.FreshWriteIsAtomic(s.(minted := s.minted + {e.id}), o, e.stamp, e.done);
    assert Apply(s, Split.WriteEvent(o, e.stamp, e.done)).rows == Apply(s, e).rows;
  }

  // The call that read row `e.id`, and its write.
  function ReadOf(s: Db, e: Event): Split.Open
    requires e.Retry? && e.id in s.rows
  {
    Split.Open(e.id, e.worker, e.error, s.rows[e.id].attempt, s.rows[e.id].maxAttempts)
  }

  function WriteOf(s: Db, e: Event): Event
    requires e.Retry? && e.id in s.rows
  {
    Split.WriteEvent(ReadOf(s, e), e.stamp, e.done)
  }

  // The retry with its write run and not committed.
  ghost function Written(s: Db, e: Event): Service
    requires e.Retry? && e.id in s.rows && CanAct(Fine(s, map[]), Execute(0, WriteOf(s, e)))
  {
    Service(Act(Fine(s, map[]), Execute(0, WriteOf(s, e))), map[0 := ReadOf(s, e)])
  }

  ghost predicate HeldRetry(s: Db, e: Event) {
    Enabled(s, e) && InTurn(s, e) && e.Retry? && e.id in s.rows && Holds(s.rows[e.id], e.worker)
  }

  lemma RetryReads(s: Db, e: Event)
    requires HeldRetry(s, e)
    ensures Leads(AtRest(s), Reads(0, e.id, e.worker, e.error, s.now), Service(Fine(s, map[]), map[0 := ReadOf(s, e)]))
  {
  }

  lemma RetryRuns(s: Db, e: Event)
    requires HeldRetry(s, e)
    ensures CanAct(Fine(s, map[]), Execute(0, WriteOf(s, e)))
    ensures Leads(Service(Fine(s, map[]), map[0 := ReadOf(s, e)]), Writes(0, e.stamp, e.done), Written(s, e))
  {
    RetryWrites(s, e, ReadOf(s, e));
    WriteAlone(s, WriteOf(s, e));
  }

  lemma RetryEnds(s: Db, e: Event)
    requires HeldRetry(s, e) && CanAct(Fine(s, map[]), Execute(0, WriteOf(s, e)))
    ensures Leads(Written(s, e), Ends(0, e.done), AtRest(Apply(s, e)))
  {
    RetryWrites(s, e, ReadOf(s, e));
    WriteAlone(s, WriteOf(s, e));
    assert map[0 := ReadOf(s, e)] - {0} == map[];
  }

  lemma PlayRetry(s: Db, e: Event) returns (s1: Service, s2: Service)
    requires HeldRetry(s, e)
    ensures Plays(s, e, s1, s2)
  {
    RetryReads(s, e);
    RetryRuns(s, e);
    RetryEnds(s, e);
    s1, s2 := Service(Fine(s, map[]), map[0 := ReadOf(s, e)]), Written(s, e);
  }

  lemma PlayLostRetry(s: Db, e: Event) returns (s1: Service, s2: Service)
    requires DbInv(s) && Enabled(s, e) && InTurn(s, e) && e.Retry?
    requires e.id !in s.rows || !Holds(s.rows[e.id], e.worker)
    ensures Plays(s, e, s1, s2)
  {
    s1 := AtRest(s);
    s2 := AtRest(Apply(s, e));
    assert Apply(s, e).rows == s.rows;
  }

  lemma PlayRest(s: Db, e: Event) returns (s1: Service, s2: Service)
    requires DbInv(s) && Enabled(s, e) && InTurn(s, e) && (e.Purge? || e.Idle?)
    ensures Plays(s, e, s1, s2)
  {
    var m := StepsOf(s, e);
    s1 := Stepped(AtRest(s), m.0);
    s2 := Stepped(s1, m.1);
  }

  lemma EventIsPlayed(s: Db, e: Event) returns (s1: Service, s2: Service)
    requires DbInv(s) && Enabled(s, e) && InTurn(s, e)
    ensures Plays(s, e, s1, s2)
  {
    match e
    case Enqueue(_, _, _) => s1, s2 := PlayEnqueue(s, e);
    case Settle(id, worker, _, _, _) =>
      if id in s.rows && Holds(s.rows[id], worker) {
        s1, s2 := PlaySettle(s, e);
      } else {
        s1, s2 := PlayLostSettle(s, e);
      }
    case Claim(_, _, _, _, _, _, _, _) => s1, s2 := PlayClaim(s, e);
    case Reap(_, _, _, _) => s1, s2 := PlayReap(s, e);
    case Retry(id, worker, _, _, _) =>
      if id in s.rows && Holds(s.rows[id], worker) {
        s1, s2 := PlayRetry(s, e);
      } else {
        s1, s2 := PlayLostRetry(s, e);
      }
    case _ => s1, s2 := PlayRest(s, e);
  }

  // Three steps to an event, with nothing open in between.
  ghost predicate Serves(h: History, t: Run, n: nat) {
    && IsHistory(h) && |h.steps| == 3 * n && n < |t.states|
    && forall i | 0 <= i <= n :: h.states[3 * i] == AtRest(t.states[i])
  }

  lemma HistoryExtends(g: History, s: Db, e: Event, s1: Service, s2: Service) returns (h: History)
    requires IsHistory(g) && g.states[|g.steps|] == AtRest(s) && Plays(s, e, s1, s2)
    ensures IsHistory(h) && |h.steps| == |g.steps| + 3 && g.states <= h.states
    ensures h.states[|h.steps|] == AtRest(Apply(s, e))
  {
    var n, m := |g.steps|, StepsOf(s, e);
    h := History(g.states + [s1, s2, AtRest(Apply(s, e))], g.steps + [m.0, m.1, m.2]);
    forall i | 0 <= i < n ensures SteppedAt(h, i) { assert SteppedAt(g, i); }
    assert SteppedAt(h, n) && SteppedAt(h, n + 1) && SteppedAt(h, n + 2);
    forall i | 0 <= i < |h.steps| ensures SteppedAt(h, i) { assert i < n || i == n || i == n + 1 || i == n + 2; }
  }

  lemma ServesOneMore(g: History, t: Run, n: nat) returns (h: History)
    requires n < |t.events| < |t.states| && Serves(g, t, n)
    requires DbInv(t.states[n]) && StepAt(t, n) && InTurn(t.states[n], t.events[n])
    ensures Serves(h, t, n + 1)
  {
    h := PlayOn(g, t.states[n], t.events[n]);
    forall i | 0 <= i <= n ensures h.states[3 * i] == AtRest(t.states[i]) {
      assert h.states[3 * i] == g.states[3 * i];
    }
  }

  lemma PlayOn(g: History, s: Db, e: Event) returns (h: History)
    requires IsHistory(g) && g.states[|g.steps|] == AtRest(s) && DbInv(s) && Enabled(s, e) && InTurn(s, e)
    ensures IsHistory(h) && |h.steps| == |g.steps| + 3 && g.states <= h.states
    ensures h.states[|h.steps|] == AtRest(Apply(s, e))
  {
    var s1, s2 := EventIsPlayed(s, e);
    h := HistoryExtends(g, s, e, s1, s2);
  }

  // Every run of the queue whose statements take turns is a history of the service, with the same
  // tables.
  lemma {:induction false} EveryRunIsServed(t: Run, n: nat) returns (h: History)
    requires IsRun(t) && n < |t.states| && forall i | 0 <= i < n :: InTurn(t.states[i], t.events[i])
    ensures IsHistory(h) && |h.steps| == 3 * n
    ensures forall i | 0 <= i <= n :: h.states[3 * i] == AtRest(t.states[i])
  {
    if n == 0 {
      h := History([AtRest(t.states[0])], []);
    } else {
      h := EveryRunIsServed(t, n - 1);
      InvariantHolds(t, n - 1);
      assert StepAt(t, n - 1);
      h := ServesOneMore(h, t, n - 1);
    }
  }
}
