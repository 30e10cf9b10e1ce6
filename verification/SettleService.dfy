/**
 Reporting the outcome of a run: dispatch to one guarded write, or to the retry's read, decision
 and write. The two halves of the retry are methods of their own, so that what happens when the
 claim is lost between them can be stated.
 */
module SettleService {
  import opened Jobs
  import opened Queue
  import opened Reachable
  import opened Errors
  import opened Table

  datatype Report = Finished(result: Option<Blob>) | Broke(error: Option<Blob>, retryable: bool)

  datatype Request = Request(id: Id, worker: string, report: Report)

  // `required` on a UUID rejects the zero one; on a string, the empty one.
  predicate WellFormed(q: Request) {
    q.id != 0 && q.worker != ""
  }

  ghost predicate Held(s: Db, q: Request) {
    q.id in s.rows && Holds(s.rows[q.id], q.worker)
  }

  method SettleOnce(table: JobTable, q: Request, outcome: Outcome) returns (r: Result<Row>, ghost e: Event)
    requires table.Valid()
    modifies table`rows, table`now
    ensures table.Valid()
    ensures e.Settle? && e.id == q.id && e.worker == q.worker && e.outcome == outcome
    ensures Enabled(old(table.Contents()), e) && table.Contents() == Apply(old(table.Contents()), e)
    ensures RunsFrom(e, old(table.now))
    ensures r.Ok? <==> Held(old(table.Contents()), q)
    ensures r.Ok? ==> q.id in table.rows && r.value == table.rows[q.id]
    ensures r.Err? ==> MapJobError(r.error) == FailedPrecondition
  {
    var row, ev := table.Settle(q.id, q.worker, outcome);
    e := ev;
    r := match row
      case Some(v) => Ok(v)
      case None => Err({SqlFailure, DaoSettleNotClaimed, ErrJobNotClaimed});
  }

  // Whether to requeue, decided from what the read returned.
  method RetryRead(table: JobTable, q: Request) returns (d: Result<bool>)
    ensures d.Ok? <==> Held(table.Contents(), q)
    ensures d.Ok? ==> d.value == (table.rows[q.id].attempt < table.rows[q.id].maxAttempts)
    ensures d.Err? ==> MapJobError(d.error) == FailedPrecondition
  {
    var row := table.GetByID(q.id);
    match row {
      case None => d := Err({SqlFailure, DaoGetByIDNotFound, ErrJobNotClaimed});
      case Some(v) =>
        if !v.status.Claimed? || v.claimedBy == None || v.claimedBy != Some(q.worker) {
          d := Err({ErrJobNotClaimed});
        } else {
          d := Ok(v.attempt < v.maxAttempts);
        }
    }
  }

  // The guarded write, on whatever table it finds. A claim lost since the read surfaces as the DAO's
  // own sentinel, which no handler rule names.
  method RetryWrite(table: JobTable, q: Request, error: Option<Blob>, requeue: bool)
    returns (r: Result<Row>, ghost e: Event)
    requires table.Valid()
    modifies table`rows, table`now
    ensures table.Valid()
    ensures if requeue then e.Requeue? && e.id == q.id && e.worker == q.worker
            else e.Settle? && e.id == q.id && e.worker == q.worker && e.outcome == Failure(error)
    ensures Enabled(old(table.Contents()), e) && table.Contents() == Apply(old(table.Contents()), e)
    ensures RunsFrom(e, old(table.now))
    ensures r.Ok? <==> Held(old(table.Contents()), q)
    ensures r.Ok? ==> q.id in table.rows && r.value == table.rows[q.id]
    ensures r.Err? ==> table.rows == old(table.rows) && MapJobError(r.error) == Internal
  {
    if requeue {
      var row, ev := table.Requeue(q.id, q.worker);
      e := ev;
      r := match row case Some(v) => Ok(v) case None => Err({SqlFailure, DaoRequeueNotClaimed});
    } else {
      var row, ev := table.Settle(q.id, q.worker, Failure(error));
      e := ev;
      r := match row case Some(v) => Ok(v) case None => Err({SqlFailure, DaoSettleNotClaimed});
    }
    OneTransitionOrNothing(old(table.Contents()), e);
  }

  // The whole call, uninterrupted: one event of the queue, and an answer that says whether the
  // caller held the job.
  method Exec(table: JobTable, q: Request) returns (r: Result<Row>, ghost e: Event)
    requires table.Valid()
    modifies table`rows, table`now
    ensures table.Valid()
    ensures (r.Err? && MapJobError(r.error) == InvalidArgument) <==> (q.id == 0 || q.worker == "")
    ensures !WellFormed(q) ==> table.Contents() == old(table.Contents())
    ensures WellFormed(q) ==>
      && Enabled(old(table.Contents()), e) && table.Contents() == Apply(old(table.Contents()), e)
      && RunsFrom(e, old(table.now))
      && (r.Ok? <==> Held(old(table.Contents()), q))
      && (r.Ok? ==> q.id in table.rows && r.value == table.rows[q.id] && SameJob(old(table.rows)[q.id], r.value)
                    && r.value.attempt == old(table.rows)[q.id].attempt && r.value.claimedBy == None)
      && (r.Err? ==> MapJobError(r.error) == FailedPrecondition && table.rows == old(table.rows))
    ensures r.Ok? && q.report.Finished? ==>
      && e.Settle? && e.id == q.id && e.worker == q.worker && e.outcome == Success(q.report.result)
      && r.value.status == Succeeded && r.value.result == q.report.result && r.value.error == None
    ensures r.Ok? && q.report.Broke? && !q.report.retryable ==>
      && e.Settle? && e.id == q.id && e.worker == q.worker && e.outcome == Failure(q.report.error)
      && r.value.status == Failed && r.value.result == None && r.value.error == q.report.error
    ensures r.Ok? && q.report.Broke? && q.report.retryable ==>
      && e.Retry? && e.id == q.id && e.worker == q.worker && e.error == q.report.error
      && if old(table.rows)[q.id].attempt < old(table.rows)[q.id].maxAttempts then r.value.status == Pending
         else r.value.status == Failed && r.value.result == None && r.value.error == q.report.error
  {
    e := Idle(table.now);
    if !WellFormed(q) { return Err({ErrInvalidRequest}), e; }
    ghost var before := table.Contents();
    match q.report {
      case Finished(result) =>
        r, e := SettleOnce(table, q, Success(result));
        OneTransitionOrNothing(before, e);
      case Broke(error, false) =>
        r, e := SettleOnce(table, q, Failure(error));
        OneTransitionOrNothing(before, e);
      case Broke(error, true) =>
        var d := RetryRead(table, q);
        if d.Err? {
          IdleChangesNothing(before, before.now);
          return Err(d.error), e;
        }
        r, e := RetryWrite(table, q, error, d.value);
        var stamp := if e.Requeue? then Stamp(e.at, e.at) else e.stamp;
        HeldWriteIsRetry(before, e, error, stamp);
        e := Retry(q.id, q.worker, error, stamp, e.done);
    }
  }

  // With nothing between read and write, the write is the indivisible retry.
  lemma HeldWriteIsRetry(s: Db, e: Event, error: Option<Blob>, stamp: Stamp)
    requires Enabled(s, e) && (e.Requeue? || e.Settle?) && e.id in s.rows
    requires e.Requeue? ==> s.rows[e.id].attempt < s.rows[e.id].maxAttempts && stamp == Stamp(e.at, e.at)
    requires e.Settle? ==>
      s.rows[e.id].maxAttempts <= s.rows[e.id].attempt && stamp == e.stamp && e.outcome == Failure(error)
    ensures var a := Retry(e.id, e.worker, error, stamp, e.done);
      Enabled(s, a) && Apply(s, a) == Apply(s, e) && ReadingOf(a, e.id) == ReadingOf(e, e.id)
  {
  }

  // Over any state: a report moves exactly the named job, out of the caller's own claim, or
  // nothing at all.
  lemma OneTransitionOrNothing(s: Db, e: Event)
    requires Enabled(s, e) && (e.Settle? || e.Requeue? || e.Retry?)
    ensures var rows := Apply(s, e).rows;
      if e.id in s.rows && Holds(s.rows[e.id], e.worker) then
        && rows.Keys == s.rows.Keys
        && (forall id | id in rows && id != e.id :: rows[id] == s.rows[id])
        && rows[e.id].claimedBy == None && rows[e.id].lease == None && SameJob(s.rows[e.id], rows[e.id])
        && rows[e.id].attempt == s.rows[e.id].attempt
        && (rows[e.id].status.Pending? || rows[e.id].status.Succeeded? || rows[e.id].status.Failed?)
      else rows == s.rows
  {
  }
}
