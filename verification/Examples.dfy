/**
 The steps concrete runs are made of: a table with one row in it, and what single statements do to
 that row.
 */
module Examples {
  import opened Jobs
  import opened Queue

  const EMPTY: Db := Db(map[], 0, {})

  function Submission(id: Id, maxAttempts: int): NewJob {
    NewJob(id, "k", "{}", 1, None, "f", maxAttempts)
  }

  function Single(r: Row, now: Time): Db {
    Db(map[1 := r], now, {1})
  }

  lemma SingleStep(r: Row, now: Time, e: Event)
    requires !e.Enqueue? && Fate(r, 1, e).Some?
    ensures Apply(Single(r, now), e) == Single(Fate(r, 1, e).value, e.done)
  {
  }

  lemma EnqueueStep(job: NewJob)
    requires job.id == 1 && Insertable(job)
    ensures var e := Enqueue(job, 0, 0); Enabled(EMPTY, e) && Apply(EMPTY, e) == Single(InsertRow(job, 0), 0)
  {
  }

  function Take(worker: string, at: Time): Event {
    Claim(worker, {"k"}, 1, 1, {}, at, map[1 := at], at)
  }

  lemma TakeStep(r: Row, worker: string, at: Time)
    requires r.status.Pending? && r.runAt <= at && r.kind == "k" && r.attempt < SMALLINT_MAX
    ensures var s, e := Single(r, at), Take(worker, at);
      Enabled(s, e) && Apply(s, e) == Single(ClaimRow(r, worker, 1, at), at)
  {
  }

  function SweepUp(at: Time): Event {
    Reap({}, at, map[1 := Stamp(at, at)], at)
  }

  lemma SweepStep(r: Row, now: Time, at: Time)
    requires now <= at && Lapsed(r, at)
    ensures var s, e := Single(r, now), SweepUp(at);
      Enabled(s, e) && Apply(s, e) == Single(ReapRow(r, Stamp(at, at)), at)
  {
  }

  lemma FiveSteps(t: Run)
    requires |t.events| == 5 && |t.states| == 6 && t.states[0] == EMPTY
    requires StepAt(t, 0) && StepAt(t, 1) && StepAt(t, 2) && StepAt(t, 3) && StepAt(t, 4)
    ensures IsRun(t)
  {
    forall i | 0 <= i < |t.events| ensures StepAt(t, i) { assert i == 0 || i == 1 || i == 2 || i == 3 || i == 4; }
  }
}
