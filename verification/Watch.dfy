/**
 The watch stream: a polling loop that sends a snapshot on subscribe and on each status change.
 */
module Watch {
  import opened Jobs
  import opened Queue
  import opened Reachable
  import opened Lifecycle
  import opened Attempts
  import Errors

  // One owner-scoped read through the get service.
  datatype Poll = Found(row: Row) | Failed(error: Errors.Error)

  // How the stream ended: the job settled, a poll failed, a send failed, or the caller hung up.
  datatype End = Settled | PollFailed(code: Errors.Code) | SendFailed | HungUp

  // The rows the stream reads: polls from the i-th on, up to a failed one or through a settled one.
  function HeardFrom(polls: seq<Poll>, i: nat): seq<Row>
    requires i <= |polls|
    decreases |polls| - i
  {
    if i == |polls| || polls[i].Failed? then []
    else if polls[i].row.status.Terminal() then [polls[i].row]
    else [polls[i].row] + HeardFrom(polls, i + 1)
  }

  function Heard(polls: seq<Poll>): seq<Row> {
    HeardFrom(polls, 0)
  }

  lemma {:induction false} HeardShape(polls: seq<Poll>, i: nat)
    requires i <= |polls|
    ensures var rows := HeardFrom(polls, i);
      && i + |rows| <= |polls|
      && (forall j | 0 <= j < |rows| :: polls[i + j] == Found(rows[j]))
      && (forall j | 0 <= j < |rows| - 1 :: !rows[j].status.Terminal())
      && (i + |rows| == |polls| || polls[i + |rows|].Failed? || (rows != [] && rows[|rows| - 1].status.Terminal()))
    decreases |polls| - i
  {
    if i < |polls| && polls[i].Found? && !polls[i].row.status.Terminal() { HeardShape(polls, i + 1); }
  }

  // From the i-th on, the rows whose status differs from the one before, `last` coming first.
  function ChangesFrom(rows: seq<Row>, i: nat, last: Option<Status>): seq<Row>
    requires i <= |rows|
    decreases |rows| - i
  {
    if i == |rows| then []
    else (if last == Some(rows[i].status) then [] else [rows[i]]) + ChangesFrom(rows, i + 1, Some(rows[i].status))
  }

  // Consecutive repeats removed.
  function Changes(rows: seq<Row>): seq<Row> {
    ChangesFrom(rows, 0, None)
  }

  // `sent` is what `rows` owes up to the i-th, the status before it being `last`.
  ghost predicate SentSoFar(sent: seq<Row>, rows: seq<Row>, i: nat, last: Option<Status>) {
    i <= |rows| && Changes(rows) == sent + ChangesFrom(rows, i, last)
  }

  lemma SendNext(sent: seq<Row>, rows: seq<Row>, i: nat, last: Option<Status>)
    requires SentSoFar(sent, rows, i, last) && i < |rows|
    ensures last == Some(rows[i].status) ==> SentSoFar(sent, rows, i + 1, last)
    ensures last != Some(rows[i].status) ==>
      |sent| < |Changes(rows)| && SentSoFar(sent + [rows[i]], rows, i + 1, Some(rows[i].status))
  {
  }

  lemma SentAll(sent: seq<Row>, rows: seq<Row>, last: Option<Status>)
    requires SentSoFar(sent, rows, |rows|, last)
    ensures sent == Changes(rows)
  {
  }

  // The stream sends exactly the rows heard, with consecutive repeats removed, up to the first send
  // the caller's side refuses (`accepts` counts the ones it takes).
  method Stream(polls: seq<Poll>, accepts: nat) returns (sent: seq<Row>, end: End)
    ensures sent <= Changes(Heard(polls))
    ensures |sent| == if |Changes(Heard(polls))| <= accepts then |Changes(Heard(polls))| else accepts
    ensures end == SendFailed <==> accepts < |Changes(Heard(polls))|
    ensures end == Settled ==> Heard(polls) != [] && Heard(polls)[|Heard(polls)| - 1].status.Terminal()
    ensures end.PollFailed? ==>
      var n := |Heard(polls)|;
      && n < |polls| && polls[n].Failed? && end.code == Errors.MapJobError(polls[n].error)
      && (n > 0 ==> !Heard(polls)[n - 1].status.Terminal())
    ensures end == HungUp ==> |Heard(polls)| == |polls|
    ensures end == HungUp && polls != [] ==> polls[|polls| - 1].Found? && !polls[|polls| - 1].row.status.Terminal()
  {
    sent, end := [], HungUp;
    var last: Option<Status> := None;
    ghost var heard := Heard(polls);
    HeardShape(polls, 0);
    for i := 0 to |polls|
      invariant SentSoFar(sent, heard, i, last) && |sent| <= accepts
      invariant i > 0 ==> !heard[i - 1].status.Terminal()
    {
      match polls[i] {
        case Failed(error) =>
          SentAll(sent, heard, last);
          return sent, PollFailed(Errors.MapJobError(error));
        case Found(row) =>
          SendNext(sent, heard, i, last);
          if last != Some(row.status) {
            if |sent| == accepts { return sent, SendFailed; }
            sent := sent + [row];
            last := Some(row.status);
          }
          if row.status.Terminal() {
            SentAll(sent, heard, last);
            return sent, Settled;
          }
      }
    }
    SentAll(sent, heard, last);
  }

  // At most one snapshot is terminal, and only the last; no two in a row repeat a status, and the
  // last one sent is up to date.
  lemma {:induction false} SnapshotsAreWellFormed(rows: seq<Row>, i: nat, last: Option<Status>)
    requires i <= |rows| && forall j | i <= j < |rows| - 1 :: !rows[j].status.Terminal()
    ensures var c := ChangesFrom(rows, i, last);
      && (forall j | 0 <= j < |c| - 1 :: !c[j].status.Terminal())
      && (forall j | 0 < j < |c| :: c[j].status != c[j - 1].status)
      && (c != [] ==> last != Some(c[0].status) && c[|c| - 1].status == rows[|rows| - 1].status)
      && (c == [] && i < |rows| ==> last == Some(rows[|rows| - 1].status))
    decreases |rows| - i
  {
    if i < |rows| { SnapshotsAreWellFormed(rows, i + 1, Some(rows[i].status)); }
  }

  /* Watching an evolving run. */

  // No such job and somebody else's job are the same answer.
  function Read(s: Db, id: Id, owner: Owner): (p: Poll)
    ensures p.Failed? ==> Errors.MapJobError(p.error) == Errors.NotFound
  {
    if id in s.rows && s.rows[id].owner == owner then Found(s.rows[id])
    else Poll.Failed({Errors.SqlFailure, Errors.ErrJobNotFound})
  }

  // `polled` is what reads at the nondecreasing positions `at` found.
  ghost predicate PolledAlong(t: Run, id: Id, owner: Owner, at: seq<nat>, polled: seq<Row>) {
    && |polled| <= |at|
    && (forall i | 0 <= i < |at| :: at[i] < |t.states|)
    && (forall i, j | 0 <= i < j < |at| :: at[i] <= at[j])
    && (forall i | 0 <= i < |polled| :: Read(t.states[at[i]], id, owner) == Found(polled[i]))
  }

  // A polled row lies between the floor and the top of the measure.
  lemma PolledRow(t: Run, id: Id, owner: Owner, at: nat, r: Row)
    requires IsRun(t) && NeverOverruns(t, |t.events|, id) && at < |t.states|
    requires Read(t.states[at], id, owner) == Found(r)
    ensures RowAt(t, at, id) == Some(r)
    ensures 0 <= Measure(r) <= 2 * r.maxAttempts + 1 && 1 <= r.maxAttempts
    ensures !r.status.Terminal() ==> 2 <= Measure(r)
  {
    RowInvariant(t, at, id);
    CapHolds(t, at, id);
  }

  // Two polled rows of one job: the later is further down the measure, strictly if the status moved.
  lemma PolledLater(t: Run, id: Id, owner: Owner, i: nat, j: nat, p: Row, r: Row)
    requires IsRun(t) && NeverOverruns(t, |t.events|, id) && i <= j < |t.states|
    requires Read(t.states[i], id, owner) == Found(p) && Read(t.states[j], id, owner) == Found(r)
    ensures p.maxAttempts == r.maxAttempts && Measure(r) <= Measure(p)
    ensures p.status != r.status ==> Measure(r) < Measure(p) && !p.status.Terminal()
  {
    PolledRow(t, id, owner, i, p);
    PolledRow(t, id, owner, j, r);
    MeasureOverRun(t, i, j, id);
    SettledIsFinal(t, i, j, id);
  }

  // What is still to be sent after a poll is bounded by the measure it found.
  lemma {:induction false} RestIsBounded(t: Run, id: Id, owner: Owner, at: seq<nat>, polled: seq<Row>, i: nat)
    requires IsRun(t) && NeverOverruns(t, |t.events|, id) && PolledAlong(t, id, owner, at, polled)
    requires i < |polled|
    ensures |ChangesFrom(polled, i + 1, Some(polled[i].status))| <=
      if polled[i].status.Terminal() then 0 else Measure(polled[i]) - 1
    decreases |polled| - i
  {
    PolledRow(t, id, owner, at[i], polled[i]);
    if i + 1 < |polled| {
      RestIsBounded(t, id, owner, at, polled, i + 1);
      PolledRow(t, id, owner, at[i + 1], polled[i + 1]);
      PolledLater(t, id, owner, at[i], at[i + 1], polled[i], polled[i + 1]);
    }
  }

  // A watch over any run within the attempt cap sends at most 2 * max_attempts + 1 snapshots.
  lemma SnapshotsAreBounded(t: Run, id: Id, owner: Owner, at: seq<nat>, polled: seq<Row>)
    requires IsRun(t) && NeverOverruns(t, |t.events|, id) && polled != []
    requires PolledAlong(t, id, owner, at, polled)
    ensures |Changes(polled)| <= 2 * polled[0].maxAttempts + 1
  {
    RestIsBounded(t, id, owner, at, polled, 0);
    PolledRow(t, id, owner, at[0], polled[0]);
  }

  // A job that was live at one position is read, as it stands, by its owner at any other no further on
  // than the retention period, less what its settle takes to commit.
  lemma LiveJobIsNeverMissing(t: Run, id: Id, i: nat, j: nat, lag: nat)
    requires IsRun(t) && i <= j < |t.states| && CommitsWithin(t, i, j, id, lag)
    requires RowAt(t, i, id).Some? && !RowAt(t, i, id).value.status.Terminal()
    requires t.states[j].now + lag <= t.states[i].now + RETENTION
    ensures RowAt(t, j, id).Some? && Read(t.states[j], id, RowAt(t, i, id).value.owner) == Found(RowAt(t, j, id).value)
  {
    if RowAt(t, j, id).None? {
      GoneTakesRetention(t, i, j, id, lag);
    } else {
      SettledIsFinal(t, i, j, id);
    }
  }

  // ... and by nobody else.
  lemma OnlyOwnersRead(s: Db, id: Id, owner: Owner)
    ensures Read(s, id, owner).Found? <==> id in s.rows && s.rows[id].owner == owner
    ensures Read(s, id, owner).Failed? ==> Errors.MapJobError(Read(s, id, owner).error) == Errors.NotFound
  {
  }

  // `polls` are reads at the positions `at` of the run, except that any of them may have failed for
  // a reason of its own; no gap between two outlasts the retention period less `lag`.
  ghost predicate PollsAlong(t: Run, id: Id, owner: Owner, at: seq<nat>, polls: seq<Poll>, lag: nat) {
    && |polls| == |at|
    && (forall k | 0 <= k < |at| :: at[k] < |t.states|)
    && (forall j, k | 0 <= j < k < |at| :: at[j] <= at[k])
    && (forall k | 0 <= k < |at| ::
          || polls[k] == Read(t.states[at[k]], id, owner)
          || (polls[k].Failed? && Errors.MapJobError(polls[k].error) != Errors.NotFound))
    && (forall k | 0 < k < |at| :: t.states[at[k]].now + lag <= t.states[at[k - 1]].now + RETENTION)
  }

  lemma HeardAlong(t: Run, id: Id, owner: Owner, at: seq<nat>, polls: seq<Poll>, lag: nat)
    requires PollsAlong(t, id, owner, at, polls, lag)
    ensures PolledAlong(t, id, owner, at, Heard(polls))
  {
    HeardShape(polls, 0);
  }

  // A poll that follows a live row is not answered "not found".
  lemma NextIsNotMissing(t: Run, id: Id, owner: Owner, at: seq<nat>, polls: seq<Poll>, lag: nat, k: nat)
    requires IsRun(t) && CommitsWithin(t, 0, |t.events|, id, lag) && PollsAlong(t, id, owner, at, polls, lag)
    requires 0 < k < |polls| && polls[k - 1].Found? && !polls[k - 1].row.status.Terminal() && polls[k].Failed?
    ensures Errors.MapJobError(polls[k].error) != Errors.NotFound
  {
    LiveJobIsNeverMissing(t, id, at[k - 1], at[k], lag);
  }

  // The stream over an evolving run: a bounded number of snapshots, and "not found" only as the
  // answer to the first poll.
  method StreamOverRun(
    polls: seq<Poll>, accepts: nat, id: Id, owner: Owner, ghost t: Run, ghost at: seq<nat>, ghost lag: nat)
    returns (sent: seq<Row>, end: End)
    requires IsRun(t) && NeverOverruns(t, |t.events|, id) && CommitsWithin(t, 0, |t.events|, id, lag)
    requires PollsAlong(t, id, owner, at, polls, lag)
    ensures sent != [] ==> sent[0].owner == owner && |sent| <= 2 * sent[0].maxAttempts + 1
    ensures forall k | 0 <= k < |sent| - 1 :: !sent[k].status.Terminal() && sent[k].status != sent[k + 1].status
    ensures end == PollFailed(Errors.NotFound) ==> sent == [] && polls != [] && polls[0].Failed?
    ensures end == PollFailed(Errors.NotFound) ==>
      var row := RowAt(t, at[0], id); row.Some? ==> row.value.owner != owner
    ensures sent != [] ==> at != [] && RowAt(t, at[0], id) == Some(sent[0])
  {
    sent, end := Stream(polls, accepts);
    ghost var heard := Heard(polls);
    HeardShape(polls, 0);
    HeardAlong(t, id, owner, at, polls, lag);
    SnapshotsAreWellFormed(heard, 0, None);
    if heard != [] {
      SnapshotsAreBounded(t, id, owner, at, heard);
      if end.PollFailed? { NextIsNotMissing(t, id, owner, at, polls, lag, |heard|); }
    }
  }
}
