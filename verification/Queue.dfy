/**
 The queue as a state machine over the whole table. Every SQL statement is one event; an event
 carries the statement's parameters, the clock readings it took and the choices the database made
 (which rows were locked by others, how ties were broken), so that `Apply` is a function.

 A run is any interleaving of events of any number of workers, reapers and enqueuers.
 */
module Queue {
  import opened Jobs

  // `minted` holds every id ever generated: ids are fresh and never reused.
  datatype Db = Db(rows: map<Id, Row>, now: Time, minted: set<Id>)

  datatype Event =
    | Enqueue(job: NewJob, at: Time, done: Time)
    | Claim(worker: string, kinds: set<string>, limit: nat, lease: nat, skipped: set<Id>, seen: Time,
            taken: map<Id, Time>, done: Time)
    | Settle(id: Id, worker: string, outcome: Outcome, stamp: Stamp, done: Time)
    | Requeue(id: Id, worker: string, at: Time, done: Time)
    | Retry(id: Id, worker: string, error: Option<Blob>, stamp: Stamp, done: Time)
    | Reap(skipped: set<Id>, seen: Time, recovered: map<Id, Stamp>, done: Time)
    | Purge(seen: Time, done: Time)
    | Idle(done: Time)

  /* Selection. */

  // `batch` is what ORDER BY run_at LIMIT FOR UPDATE SKIP LOCKED may return: ties are broken
  // arbitrarily, and an eligible row is left behind only for a full batch that is no younger.
  ghost predicate IsClaimBatch(
    rows: map<Id, Row>, kinds: set<string>, limit: nat, seen: Time, skipped: set<Id>, batch: set<Id>)
  {
    && |batch| <= limit
    && (forall id | id in batch :: id in rows && Eligible(rows[id], kinds, seen) && id !in skipped)
    && (forall id | id in rows && Eligible(rows[id], kinds, seen) && id !in skipped && id !in batch ::
          |batch| == limit && forall b | b in batch :: rows[b].runAt <= rows[id].runAt)
  }

  function LapsedIds(rows: map<Id, Row>, seen: Time): set<Id> {
    set id | id in rows && Lapsed(rows[id], seen)
  }

  predicate InOrder(now: Time, at: Stamp, done: Time) {
    now <= at.first <= at.second <= done
  }

  predicate Stamped(at: Stamp, done: Time) {
    at.first <= at.second <= done
  }

  ghost predicate Conflicts(rows: map<Id, Row>, j: NewJob) {
    exists id | id in rows :: SameKey(rows[id], j.owner, j.kind, j.key)
  }

  predicate Insertable(j: NewJob) {
    j.kind != "" && j.key != Some("") && 1 <= j.maxAttempts <= SMALLINT_MAX
  }

  // When a statement can take effect: its readings are in order, its batch is one the database may
  // pick, and no column overflows or fails a CHECK. An event is the instant a statement's changes
  // become visible. What its SET clauses read of the clock may be older than that: a statement that
  // ran earlier and commits now has been overtaken by whatever committed in between.
  ghost predicate Enabled(s: Db, e: Event) {
    match e
    case Enqueue(j, at, done) =>
      s.now <= done && at <= done && j.id !in s.minted && j.id !in s.rows && Insertable(j)
    case Claim(_, kinds, limit, lease, skipped, seen, taken, done) =>
      && s.now <= seen <= done && limit > 0 && lease > 0
      && IsClaimBatch(s.rows, kinds, limit, seen, skipped, taken.Keys)
      && (forall id | id in taken :: taken[id] <= done)
      && (forall id | id in taken :: s.rows[id].attempt < SMALLINT_MAX)
    case Settle(_, _, _, stamp, done) => s.now <= done && Stamped(stamp, done)
    case Requeue(_, _, at, done) => s.now <= done && at <= done
    case Retry(_, _, _, stamp, done) => s.now <= done && Stamped(stamp, done)
    case Reap(skipped, seen, recovered, done) =>
      && s.now <= seen <= done
      && recovered.Keys == LapsedIds(s.rows, seen) - skipped
      && forall id | id in recovered :: Stamped(recovered[id], done)
    case Purge(seen, done) => s.now <= seen <= done
    case Idle(done) => s.now <= done
  }

  // What becomes of a row already in the table; None when the statement deletes it.
  function Fate(r: Row, id: Id, e: Event): Option<Row> {
    match e
    case Claim(worker, _, _, lease, _, _, taken, _) =>
      Some(if id in taken then ClaimRow(r, worker, lease, taken[id]) else r)
    case Settle(i, worker, outcome, stamp, _) =>
      Some(if id == i && Holds(r, worker) then SettleRow(r, outcome, stamp) else r)
    case Requeue(i, worker, at, _) =>
      Some(if id == i && Holds(r, worker) then RequeueRow(r, at) else r)
    case Retry(i, worker, error, stamp, _) =>
      Some(if id == i && Holds(r, worker) then RetryRow(r, error, stamp) else r)
    case Reap(_, _, recovered, _) =>
      Some(if id in recovered then ReapRow(r, recovered[id]) else r)
    case Purge(seen, _) => if Expired(r, seen) then None else Some(r)
    case Enqueue(_, _, _) => Some(r)
    case Idle(_) => Some(r)
  }

  ghost predicate Creates(s: Db, e: Event) {
    e.Enqueue? && !Conflicts(s.rows, e.job)
  }

  ghost function Apply(s: Db, e: Event): Db {
    var kept := map id | id in s.rows && Fate(s.rows[id], id, e).Some? :: Fate(s.rows[id], id, e).value;
    Db(if Creates(s, e) then kept[e.job.id := InsertRow(e.job, e.at)] else kept,
       e.done,
       if e.Enqueue? then s.minted + {e.job.id} else s.minted)
  }

  /* The row-wise UPDATE of a claim and of a sweep. */

  function TakeRows(rows: map<Id, Row>, worker: string, lease: nat, taken: map<Id, Time>): map<Id, Row> {
    map id | id in rows :: if id in taken then ClaimRow(rows[id], worker, lease, taken[id]) else rows[id]
  }

  function RecoverRows(rows: map<Id, Row>, recovered: map<Id, Stamp>): map<Id, Row> {
    map id | id in rows :: if id in recovered then ReapRow(rows[id], recovered[id]) else rows[id]
  }

  lemma ClaimTakesRows(s: Db, e: Event)
    requires e.Claim?
    ensures Apply(s, e) == s.(rows := TakeRows(s.rows, e.worker, e.lease, e.taken), now := e.done)
  {
  }

  lemma ReapRecoversRows(s: Db, e: Event)
    requires e.Reap?
    ensures Apply(s, e) == s.(rows := RecoverRows(s.rows, e.recovered), now := e.done)
  {
  }

  /* Runs. */

  datatype Run = Run(states: seq<Db>, events: seq<Event>)

  ghost predicate StepAt(t: Run, i: nat)
    requires i < |t.events| < |t.states|
  {
    Enabled(t.states[i], t.events[i]) && t.states[i + 1] == Apply(t.states[i], t.events[i])
  }

  // Every run starts from the empty table of a fresh database.
  ghost predicate IsRun(t: Run) {
    && |t.states| == |t.events| + 1
    && t.states[0].rows == map[] && t.states[0].minted == {}
    && forall i | 0 <= i < |t.events| :: StepAt(t, i)
  }

  // Row `id` of state `n`, if there is one.
  function RowAt(t: Run, n: nat, id: Id): Option<Row>
    requires n < |t.states|
  {
    if id in t.states[n].rows then Some(t.states[n].rows[id]) else None
  }

  /* How far a commit trails its clock. */

  // The earliest reading event `e` took of the clock for what it writes to row `id`.
  function ReadingOf(e: Event, id: Id): Time {
    match e
    case Enqueue(_, at, _) => at
    case Claim(_, _, _, _, _, _, taken, done) => if id in taken then taken[id] else done
    case Settle(_, _, _, stamp, _) => stamp.first
    case Requeue(_, _, at, _) => at
    case Retry(_, _, _, stamp, _) => stamp.first
    case Reap(_, _, recovered, done) => if id in recovered then recovered[id].first else done
    case Purge(_, done) => done
    case Idle(done) => done
  }

  // The last reading event `e` took for what it writes to row `id`.
  function LastReadingOf(e: Event, id: Id): Time {
    match e
    case Settle(_, _, _, stamp, _) => stamp.second
    case Retry(_, _, _, stamp, _) => stamp.second
    case Reap(_, _, recovered, done) => if id in recovered then recovered[id].second else done
    case _ => ReadingOf(e, id)
  }

  // All of the statement runs at or after `since`.
  ghost predicate RunsFrom(e: Event, since: Time) {
    forall id :: since <= ReadingOf(e, id)
  }

  predicate Rewrites(t: Run, i: nat, id: Id)
    requires i + 1 < |t.states|
  {
    RowAt(t, i, id) != RowAt(t, i + 1, id)
  }

  // Every change of row `id` at positions [i, n) becomes visible within `lag` of its reading.
  ghost predicate CommitsWithin(t: Run, i: nat, n: nat, id: Id, lag: nat)
    requires i <= n <= |t.events| < |t.states|
  {
    forall c | i <= c < n && Rewrites(t, c, id) :: t.states[c + 1].now <= ReadingOf(t.events[c], id) + lag
  }

  // What row locks add: a change of a row reads the clock only once every earlier change of that
  // row is visible. Runs of `Locking` have it.
  ghost predicate RowLocks(t: Run)
    requires |t.states| == |t.events| + 1
  {
    forall k, i, id | 0 <= k < i < |t.events| && Rewrites(t, k, id) && Rewrites(t, i, id) ::
      t.states[k + 1].now <= ReadingOf(t.events[i], id)
  }
}
