/**
 Claiming a batch: validation, then the claim statement.
 */
module ClaimService {
  import opened Jobs
  import opened Queue
  import opened Errors
  import opened Table

  // core.JobClaim.Exec. A worker that names no kinds claims nothing; a nonsensical limit, lease or
  // worker is refused before the database is asked.
  method Exec(table: JobTable, worker: string, kinds: set<string>, limit: int, lease: int, locked: set<Id>)
    returns (r: Result<set<Id>>, ghost e: Event)
    requires table.Valid()
    modifies table`rows, table`now
    ensures table.Valid()
    ensures (r.Err? && MapJobError(r.error) == InvalidArgument) <==> (worker == "" || limit <= 0 || lease <= 0)
    ensures worker == "" || limit <= 0 || lease <= 0 ==> table.Contents() == old(table.Contents())
    ensures r.Ok? ==>
      && e.Claim? && Enabled(old(table.Contents()), e) && table.Contents() == Apply(old(table.Contents()), e)
      && RunsFrom(e, old(table.now)) && e.worker == worker && e.lease == lease && r.value == e.taken.Keys
    ensures r.Ok? ==> limit > 0 && IsClaimBatch(old(table.rows), kinds, limit, e.seen, locked, r.value)
    ensures r.Ok? ==> forall id | id in r.value ::
      && id in table.rows && Holds(table.rows[id], worker) && table.rows[id].kind in kinds
      && table.rows[id].lease.Some? && old(table.now) + lease <= table.rows[id].lease.value <= table.now + lease
    ensures r.Err? ==> table.rows == old(table.rows)
    ensures r.Err? && MapJobError(r.error) != InvalidArgument ==>
      && MapJobError(r.error) == Internal
      && exists id | id in table.rows :: table.rows[id].status.Pending? && SMALLINT_MAX <= table.rows[id].attempt
  {
    e := Idle(table.now);
    if worker == "" || limit <= 0 || lease <= 0 { return Err({ErrInvalidRequest}), e; }
    var batch, ev := table.Claim(worker, kinds, limit, lease, locked);
    e := ev;
    r := match batch case Some(ids) => Ok(ids) case None => Err({SqlFailure});
  }
}
