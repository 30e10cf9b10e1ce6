/**
 Submission: validation, the attempt cap's default, the fingerprint, and the decision between
 created, replayed and conflicting. The digest is any function on bytes.
 */
module EnqueueService {
  import opened Jobs
  import opened Queue
  import opened Reachable
  import opened Errors
  import opened Table

  datatype Request = Request(kind: string, payload: Blob, owner: Owner, key: Option<string>, maxAttempts: int)

  datatype Answer = Created(id: Id, row: Row) | Replayed(id: Id, row: Row) | Refused(error: Error)

  // unicode.IsSpace.
  predicate IsSpace(c: char) {
    var n := c as int;
    9 <= n <= 13 || n == 32 || n == 0x85 || n == 0xA0 || n == 0x1680 || 0x2000 <= n <= 0x200A
    || n == 0x2028 || n == 0x2029 || n == 0x202F || n == 0x205F || n == 0x3000
  }

  // The 25 code points of Unicode's White_Space property.
  const WHITE_SPACE: string :=
    "\t\n\U{B}\U{C}\r \U{85}\U{A0}\U{1680}\U{2000}\U{2001}\U{2002}\U{2003}\U{2004}\U{2005}\U{2006}\U{2007}"
    + "\U{2008}\U{2009}\U{200A}\U{2028}\U{2029}\U{202F}\U{205F}\U{3000}"

  lemma SpaceIsWhiteSpace(c: char)
    ensures IsSpace(c) <==> c in WHITE_SPACE
  {
  }

  predicate WellFormed(q: Request) {
    (exists c | c in q.kind :: !IsSpace(c)) && q.owner != 0 && 0 <= q.maxAttempts
  }

  // An absent payload is stored, and digested, as an empty object.
  function PayloadOr(payload: Blob): Blob {
    if payload == "" then "{}" else payload
  }

  function Submission(q: Request, id: Id, digest: Blob -> Blob): NewJob {
    NewJob(id, q.kind, PayloadOr(q.payload), q.owner, q.key, digest(PayloadOr(q.payload)),
           if q.maxAttempts == 0 then 1 else q.maxAttempts)
  }

  // What the caller is told about the row the statement returned.
  function Decide(id: Id, got: Id, row: Row, fingerprint: Blob): Answer {
    if got == id then Created(got, row)
    else if row.fingerprint != fingerprint then Refused({ErrJobConflict})
    else Replayed(got, row)
  }

  // core.JobEnqueue.Exec: one enqueue event, and an answer that names the job holding the key.
  method Exec(table: JobTable, q: Request, id: Id, digest: Blob -> Blob) returns (a: Answer, ghost e: Event)
    requires table.Valid() && id !in table.minted
    modifies table
    ensures table.Valid()
    ensures (a.Refused? && MapJobError(a.error) == InvalidArgument) <==>
      q.owner == 0 || q.maxAttempts < 0 || forall c | c in q.kind :: IsSpace(c)
    ensures !WellFormed(q) ==> table.Contents() == old(table.Contents())
    ensures WellFormed(q) && !Insertable(Submission(q, id, digest)) ==>
      a.Refused? && MapJobError(a.error) == Internal && table.rows == old(table.rows)
    ensures WellFormed(q) && Insertable(Submission(q, id, digest)) ==>
      && e.Enqueue? && e.job == Submission(q, id, digest)
      && Enabled(old(table.Contents()), e) && table.Contents() == Apply(old(table.Contents()), e)
      && RunsFrom(e, old(table.now))
      && (a.Created? <==> Creates(old(table.Contents()), e))
      && (a.Created? ==> a.id == id && id in table.rows && a.row == table.rows[id])
      && (a.Created? ==> a.row.fingerprint == digest(a.row.payload))
      && (a.Created? ==>
            && a.row.kind == q.kind && a.row.owner == q.owner && a.row.key == q.key
            && a.row.status.Pending? && a.row.attempt == 0
            && (q.payload != "" ==> a.row.payload == q.payload) && (q.payload == "" ==> a.row.payload == "{}")
            && (q.maxAttempts > 0 ==> a.row.maxAttempts == q.maxAttempts)
            && (q.maxAttempts == 0 ==> a.row.maxAttempts == 1))
      && (!a.Created? ==> table.rows == old(table.rows))
      && (a.Replayed? ==> a.id in table.rows && a.row == table.rows[a.id] && SameKey(a.row, q.owner, q.kind, q.key)
                          && a.row.fingerprint == e.job.fingerprint)
      && (a.Refused? ==> MapJobError(a.error) == AlreadyExists)
      && (a.Refused? ==>
            exists w | w in table.rows ::
              SameKey(table.rows[w], q.owner, q.kind, q.key) && table.rows[w].fingerprint != e.job.fingerprint)
  {
    e := Idle(table.now);
    if !WellFormed(q) { return Refused({ErrInvalidRequest}), e; }
    ghost var before := table.Contents();
    var job := Submission(q, id, digest);
    var r, ev := table.Enqueue(job);
    e := ev;
    if r.None? { return Refused({SqlFailure}), e; }
    a := Decide(id, r.value.0, r.value.1, job.fingerprint);
    if r.value.0 != id {
      assert !Creates(before, e);
      assert Apply(before, e).rows == before.rows;
    }
  }

  // A row under the request's key holds something other than its payload.
  ghost predicate KeyIsTaken(rows: map<Id, Row>, q: Request, digest: Blob -> Blob) {
    exists w | w in rows ::
      && SameKey(rows[w], q.owner, q.kind, q.key)
      && rows[w].fingerprint != digest(if q.payload == "" then "{}" else q.payload)
  }

  // handlers.JobEnqueue: the wire's int32 reaches the smallint column only inside its range. Each
  // code has its reason, and what is answered is the row that holds the submission.
  method Handle(table: JobTable, q: Request, id: Id, digest: Blob -> Blob)
    returns (r: Result<(Row, bool)>, ghost a: Answer, ghost e: Event)
    requires table.Valid() && id !in table.minted
    modifies table
    ensures table.Valid()
    ensures !(0 <= q.maxAttempts <= SMALLINT_MAX) ==>
      r == Err({ErrInvalidRequest}) && table.Contents() == old(table.Contents())
    ensures r.Ok? ==>
      && e.Enqueue? && Enabled(old(table.Contents()), e) && table.Contents() == Apply(old(table.Contents()), e)
      && RunsFrom(e, old(table.now))
      && 1 <= e.job.maxAttempts <= SMALLINT_MAX
      && (r.value.1 <==> Creates(old(table.Contents()), e))
    ensures r.Ok? ==> exists w | w in table.rows ::
      && r.value.0 == table.rows[w] && (r.value.1 <==> w == id)
      && (w != id ==> SameKey(r.value.0, q.owner, q.kind, q.key) && table.rows == old(table.rows))
      && r.value.0.fingerprint == digest(if q.payload == "" then "{}" else q.payload)
    ensures r.Err? ==> table.rows == old(table.rows)
    ensures (r.Err? && MapJobError(r.error) == InvalidArgument) <==>
      !(0 <= q.maxAttempts <= SMALLINT_MAX) || q.owner == 0 || forall c | c in q.kind :: IsSpace(c)
    ensures r.Err? && MapJobError(r.error) != InvalidArgument ==>
      if q.key == Some("") then MapJobError(r.error) == Internal
      else MapJobError(r.error) == AlreadyExists && KeyIsTaken(old(table.rows), q, digest)
    ensures r.Ok? ==> q.key != Some("") && !KeyIsTaken(old(table.rows), q, digest)
  {
    a, e := Refused({ErrInvalidRequest}), Idle(table.now);
    if q.maxAttempts < 0 || SMALLINT_MAX < q.maxAttempts { return Err({ErrInvalidRequest}), a, e; }
    var answer, ev := Exec(table, q, id, digest);
    a, e := answer, ev;
    r := match answer
      case Created(_, row) => Ok((row, true))
      case Replayed(_, row) => Ok((row, false))
      case Refused(err) => Err(err);
  }

  /* Over whole runs. */

  // Every submission went through the service with one digest. A row's `payload` stands for the bytes
  // as submitted, which is what core digests.
  ghost predicate ServedBy(t: Run, digest: Blob -> Blob) {
    forall i | 0 <= i < |t.events| ::
      t.events[i].Enqueue? ==> t.events[i].job.fingerprint == digest(t.events[i].job.payload)
  }

  lemma {:induction false} FingerprintsAreDigests(t: Run, digest: Blob -> Blob, n: nat, id: Id)
    requires IsRun(t) && ServedBy(t, digest) && n < |t.states|
    ensures RowAt(t, n, id).Some? ==> RowAt(t, n, id).value.fingerprint == digest(RowAt(t, n, id).value.payload)
  {
    if n > 0 {
      FingerprintsAreDigests(t, digest, n - 1, id);
      RowStep(t, n - 1, id);
    }
  }

  // Under a live key the answer depends on the normalised bytes alone: equal bytes are always a
  // replay, a conflict proves the bytes differ, and a collision-free digest makes it exact.
  lemma AnswerFollowsBytes(t: Run, digest: Blob -> Blob, n: nat, q: Request, w: Id, id: Id)
    requires IsRun(t) && ServedBy(t, digest) && n < |t.states|
    requires w in t.states[n].rows && SameKey(t.states[n].rows[w], q.owner, q.kind, q.key) && id != w
    ensures var row := t.states[n].rows[w];
            var a := Decide(id, w, row, Submission(q, id, digest).fingerprint);
      && (PayloadOr(q.payload) == row.payload ==> a == Replayed(w, row))
      && (a.Refused? ==> PayloadOr(q.payload) != row.payload)
      && ((forall x, y | digest(x) == digest(y) :: x == y) ==> (a.Replayed? <==> PayloadOr(q.payload) == row.payload))
  {
    FingerprintsAreDigests(t, digest, n, w);
  }
}
