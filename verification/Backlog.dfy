/**
 The two backlog queries, and what a claim would make of the backlog they report.
 */
module Backlog {
  import opened Jobs
  import opened Queue
  import opened Reachable

  // OldestPendingAge is absent, not zero, when nothing is pending.
  datatype Depth = Depth(pending: nat, age: Option<Time>)

  function PendingIds(rows: map<Id, Row>): set<Id> {
    set id | id in rows && rows[id].status.Pending?
  }

  function DueIds(rows: map<Id, Row>, seen: Time): set<Id> {
    set id | id in rows && rows[id].status.Pending? && rows[id].runAt <= seen
  }

  // min(run_at) over a non-empty group.
  ghost function MinRunAt(rows: map<Id, Row>, ids: set<Id>): (m: Time)
    requires ids != {} && ids <= rows.Keys
    ensures exists id | id in ids :: rows[id].runAt == m
    ensures forall id | id in ids :: m <= rows[id].runAt
  {
    var x :| x in ids;
    if ids == {x} then rows[x].runAt else
      var rest := MinRunAt(rows, ids - {x});
      assert ids == (ids - {x}) + {x};
      if rows[x].runAt <= rest then rows[x].runAt else rest
  }

  // pg.jobQueueDepth.sql: `seen` is read in the WHERE clause, `asked` for the age.
  ghost function QueueDepth(s: Db, seen: Time, asked: Time): Depth {
    var due := DueIds(s.rows, seen);
    Depth(|due|, if due == {} then None else Some(asked - MinRunAt(s.rows, due)))
  }

  // pg.jobCountPending.sql: no due test, and an empty queue's age is coalesced to zero.
  ghost function CountPending(s: Db, asked: Time): (nat, Time) {
    var ids := PendingIds(s.rows);
    (|ids|, if ids == {} then 0 else asked - MinRunAt(s.rows, ids))
  }

  // No reachable row is scheduled in the future, so every pending row is due.
  lemma EveryPendingIsDue(t: Run, n: nat, seen: Time)
    requires IsRun(t) && n < |t.states| && t.states[n].now <= seen
    ensures DueIds(t.states[n].rows, seen) == PendingIds(t.states[n].rows)
  {
    InvariantHolds(t, n);
  }

  // In every reachable state the two queries agree, and the age is well-behaved.
  lemma BacklogsAgree(t: Run, n: nat, seen: Time, asked: Time)
    requires IsRun(t) && n < |t.states| && t.states[n].now <= seen <= asked
    ensures var d, p := QueueDepth(t.states[n], seen, asked), CountPending(t.states[n], asked);
      && d.pending == p.0
      && (d.age.None? <==> d.pending == 0)
      && (d.age.Some? ==> 0 <= d.age.value == p.1)
      && (d.age.None? ==> p.1 == 0)
  {
    EveryPendingIsDue(t, n, seen);
    var due := DueIds(t.states[n].rows, seen);
    if due != {} {
      var id :| id in due && t.states[n].rows[id].runAt == MinRunAt(t.states[n].rows, due);
    }
  }

  // Off the reachable states they differ: a row scheduled ahead is counted by one query only, with
  // a negative age.
  lemma ScheduledRowSplitsQueries()
    ensures exists s: Db, now: Time ::
      QueueDepth(s, now, now).pending != CountPending(s, now).0 && CountPending(s, now).1 < 0
  {
    var r := InsertRow(NewJob(1, "k", "{}", 1, None, "f", 1), 5);
    var s := Db(map[1 := r], 0, {1});
    assert PendingIds(s.rows) == {1} && DueIds(s.rows, 0) == {};
    assert QueueDepth(s, 0, 0).pending != CountPending(s, 0).0;
  }

  /* What a claim makes of it. */

  // A claim over every pending kind that finds nothing locked.
  ghost predicate OpenClaim(s: Db, e: Event) {
    e.Claim? && e.skipped == {} && forall id | id in PendingIds(s.rows) :: s.rows[id].kind in e.kinds
  }

  lemma OpenClaimTakesOldest(s: Db, e: Event)
    requires Enabled(s, e) && OpenClaim(s, e)
    ensures e.taken.Keys <= DueIds(s.rows, e.seen)
    ensures |e.taken| == if |DueIds(s.rows, e.seen)| <= e.limit then |DueIds(s.rows, e.seen)| else e.limit
  {
    var due := DueIds(s.rows, e.seen);
    assert e.taken.Keys <= due;
    if e.taken.Keys != due {
      var x :| x in due && x !in e.taken;
      assert x in PendingIds(s.rows);
      assert due == (due - e.taken.Keys) + e.taken.Keys;
      assert |e.taken.Keys| == e.limit && x in due - e.taken.Keys;
    }
  }

  // An unlimited claim takes exactly what the status surface reports as backlog.
  lemma BacklogIsWhatAClaimTakes(t: Run, n: nat, e: Event, asked: Time)
    requires IsRun(t) && n < |t.states| && Enabled(t.states[n], e) && OpenClaim(t.states[n], e)
    requires |PendingIds(t.states[n].rows)| <= e.limit
    ensures |e.taken| == QueueDepth(t.states[n], e.seen, asked).pending
    ensures QueueDepth(Apply(t.states[n], e), e.done, asked) == Depth(0, None)
  {
    EveryPendingIsDue(t, n, e.seen);
    OpenClaimTakesOldest(t.states[n], e);
    OpenClaimShrinksBacklog(t.states[n], e);
    assert DueIds(Apply(t.states[n], e).rows, e.done) <= PendingIds(Apply(t.states[n], e).rows);
  }

  lemma OpenClaimShrinksBacklog(s: Db, e: Event)
    requires Enabled(s, e) && e.Claim?
    ensures PendingIds(Apply(s, e).rows) == PendingIds(s.rows) - e.taken.Keys
    ensures |PendingIds(Apply(s, e).rows)| == |PendingIds(s.rows)| - |e.taken|
  {
  }

  /* What the ages say. */

  // The reported age is how long ago the oldest row counted became due, and no row counted is older.
  lemma AgeIsOldest(s: Db, seen: Time, asked: Time)
    ensures var d := QueueDepth(s, seen, asked);
      && (d.age.None? <==> d.pending == 0)
      && (d.age.Some? ==>
            && (exists id | id in s.rows && s.rows[id].status.Pending? && s.rows[id].runAt <= seen ::
                  s.rows[id].runAt + d.age.value == asked)
            && forall id | id in s.rows && s.rows[id].status.Pending? && s.rows[id].runAt <= seen ::
                  asked <= s.rows[id].runAt + d.age.value)
  {
    var due := DueIds(s.rows, seen);
    if due != {} {
      var id :| id in due && s.rows[id].runAt == MinRunAt(s.rows, due);
    }
  }

  lemma CountAgeIsOldest(s: Db, asked: Time)
    ensures var p := CountPending(s, asked);
      && (p.0 == 0 ==> p.1 == 0)
      && (p.0 > 0 ==>
            && (exists id | id in s.rows && s.rows[id].status.Pending? :: s.rows[id].runAt + p.1 == asked)
            && forall id | id in s.rows && s.rows[id].status.Pending? :: asked <= s.rows[id].runAt + p.1)
  {
    var ids := PendingIds(s.rows);
    if ids != {} {
      var id :| id in ids && s.rows[id].runAt == MinRunAt(s.rows, ids);
    }
  }
}
