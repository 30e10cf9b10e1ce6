/**
 One row of the `jobs` table: its columns, the CHECK constraints of the migration, the partial
 unique index, and the effect each SQL statement has on a single row it matches.

 Timestamps are readings of the database clock, in whole ticks. `payload`, `result`, `error` and
 the fingerprint are opaque strings of bytes.
 */
module Jobs {

  datatype Option<+T> = None | Some(value: T)

  type Time = int
  type Id = nat
  type Owner = nat
  type Blob = string

  // Seven days (cmd/grpc/main.go), in microseconds.
  const RETENTION: Time := 7 * 24 * 60 * 60 * 1_000_000
  const SMALLINT_MAX: int := 32_767
  const REAP_ERROR: Blob := "{\"reason\":\"lease expired\"}"

  datatype Status = Pending | Claimed | Succeeded | Failed | Abandoned | Cancelled {
    predicate Terminal() {
      Succeeded? || Failed? || Abandoned? || Cancelled?
    }
  }

  datatype Row = Row(
    kind: string, payload: Blob, owner: Owner, key: Option<string>, fingerprint: Blob,
    status: Status, attempt: int, maxAttempts: int,
    runAt: Time, lease: Option<Time>, claimedBy: Option<string>,
    result: Option<Blob>, error: Option<Blob>,
    settledAt: Option<Time>, expiresAt: Option<Time>)

  // The parameters of the INSERT, the id included: it is minted by the caller.
  datatype NewJob = NewJob(
    id: Id, kind: string, payload: Blob, owner: Owner, key: Option<string>, fingerprint: Blob, maxAttempts: int)

  // What a worker reports: the arguments core passes down for a success and for a terminal failure.
  datatype Outcome = Success(result: Option<Blob>) | Failure(error: Option<Blob>)

  // Two clock readings of one statement, in the order they are written.
  datatype Stamp = Stamp(first: Time, second: Time)

  /* Constraints of the migration. */

  predicate LeaseMatchesStatus(r: Row) {
    r.status.Claimed? == r.lease.Some?
  }

  predicate TerminalFields(r: Row) {
    r.status.Terminal() == (r.settledAt.Some? && r.expiresAt.Some?)
  }

  predicate ColumnChecks(r: Row) {
    && r.kind != ""
    && r.key != Some("")
    && 0 <= r.attempt <= SMALLINT_MAX
    && 1 <= r.maxAttempts <= SMALLINT_MAX
  }

  predicate Checks(r: Row) {
    LeaseMatchesStatus(r) && TerminalFields(r) && ColumnChecks(r)
  }

  // Rows that collide on jobs_idempotency_idx; a null key collides with nothing.
  predicate SameKey(r: Row, owner: Owner, kind: string, key: Option<string>) {
    key.Some? && r.owner == owner && r.kind == kind && r.key == key
  }

  ghost predicate UniqueKeys(rows: map<Id, Row>) {
    forall a, b | a in rows && b in rows && SameKey(rows[a], rows[b].owner, rows[b].kind, rows[b].key) :: a == b
  }

  /* The WHERE clauses. */

  predicate Eligible(r: Row, kinds: set<string>, seen: Time) {
    r.status.Pending? && r.runAt <= seen && r.kind in kinds
  }

  predicate Lapsed(r: Row, seen: Time) {
    r.status.Claimed? && r.lease.Some? && r.lease.value < seen
  }

  predicate Expired(r: Row, seen: Time) {
    r.expiresAt.Some? && r.expiresAt.value < seen
  }

  predicate Holds(r: Row, worker: string) {
    r.status.Claimed? && r.claimedBy == Some(worker)
  }

  /* The SET clauses. */

  function InsertRow(j: NewJob, at: Time): Row {
    Row(j.kind, j.payload, j.owner, j.key, j.fingerprint, Pending, 0, j.maxAttempts, at,
        None, None, None, None, None, None)
  }

  function ClaimRow(r: Row, worker: string, lease: nat, at: Time): Row {
    r.(status := Claimed, attempt := r.attempt + 1, claimedBy := Some(worker), lease := Some(at + lease))
  }

  function RequeueRow(r: Row, at: Time): Row {
    r.(status := Pending, claimedBy := None, lease := None, runAt := at)
  }

  function SettleRow(r: Row, o: Outcome, at: Stamp): Row {
    r.(status := if o.Success? then Succeeded else Failed,
       result := if o.Success? then o.result else None,
       error := if o.Success? then None else o.error,
       claimedBy := None, lease := None,
       settledAt := Some(at.first), expiresAt := Some(at.second + RETENTION))
  }

  function RetryRow(r: Row, error: Option<Blob>, at: Stamp): Row {
    if r.attempt < r.maxAttempts then RequeueRow(r, at.first) else SettleRow(r, Failure(error), at)
  }

  function ReapRow(r: Row, at: Stamp): Row {
    if r.attempt < r.maxAttempts then
      r.(status := Pending, claimedBy := None, lease := None, runAt := at.first, settledAt := None, expiresAt := None)
    else
      r.(status := Abandoned, claimedBy := None, lease := None,
         settledAt := Some(at.first), expiresAt := Some(at.second + RETENTION), error := Some(REAP_ERROR))
  }
}
