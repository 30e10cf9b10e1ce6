/**
 The table as the database keeps it: rows updated in place, the partial unique index beside them,
 and a clock every statement reads. Each method is one SQL statement; its ghost result is the event
 of `Queue` it amounts to, and its contract says the table is now exactly what that event makes of
 it.
 */
module Table {
  import opened Jobs
  import opened Queue
  import opened Idempotency
  import opened Backlog

  function KeyOf(r: Row): Option<Key> {
    match r.key
    case None => None
    case Some(k) => Some(Key(r.owner, r.kind, k))
  }

  // The index holds exactly the keyed rows, each under its key.
  ghost predicate Indexed(rows: map<Id, Row>, index: map<Key, Id>) {
    && (forall k | k in index :: index[k] in rows && KeyOf(rows[index[k]]) == Some(k))
    && (forall id | id in rows && KeyOf(rows[id]).Some? ::
          KeyOf(rows[id]).value in index && index[KeyOf(rows[id]).value] == id)
  }

  class JobTable {
    var rows: map<Id, Row>
    var index: map<Key, Id>
    var now: Time
    ghost var minted: set<Id>

    ghost predicate Valid()
      reads this
    {
      rows.Keys <= minted && Indexed(rows, index)
    }

    ghost function Contents(): Db
      reads this
    {
      Db(rows, now, minted)
    }

    constructor (start: Time)
      ensures Valid() && Contents() == Db(map[], start, {})
    {
      rows, index, now, minted := map[], map[], start, {};
    }

    // clock_timestamp(): never behind an earlier reading.
    method Clock() returns (t: Time)
      modifies this`now
      ensures t == now && old(now) <= now
    {
      t :| now <= t;
      now := t;
    }

    // INSERT ... ON CONFLICT DO UPDATE. A failed CHECK fails the statement.
    method Enqueue(j: NewJob) returns (r: Option<(Id, Row)>, ghost e: Event)
      requires Valid() && j.id !in minted
      modifies this
      ensures Valid()
      ensures r.Some? <==> Insertable(j)
      ensures r.None? ==> rows == old(rows) && minted == old(minted) && old(now) <= now
      ensures r.Some? ==>
        && e.Enqueue? && e.job == j && Enabled(old(Contents()), e) && Contents() == Apply(old(Contents()), e)
        && RunsFrom(e, old(now))
        && r.value.0 in rows && rows[r.value.0] == r.value.1
        && (r.value.0 == j.id <==> Creates(old(Contents()), e))
        && (r.value.0 != j.id ==> SameKey(r.value.1, j.owner, j.kind, j.key))
    {
      ghost var before := Contents();
      e := Idle(now);
      if !Insertable(j) { return None, e; }
      var at := Clock();
      e := Event.Enqueue(j, at, now);
      minted := minted + {j.id};
      if j.key.Some? && Key(j.owner, j.kind, j.key.value) in index {
        var winner := index[Key(j.owner, j.kind, j.key.value)];
        EnqueueReplays(before, e, winner);
        return Some((winner, rows[winner])), e;
      }
      EnqueueInserts(before, e, index);
      IndexOne(rows, index, j.id, InsertRow(j, at));
      rows := rows[j.id := InsertRow(j, at)];
      if j.key.Some? { index := index[Key(j.owner, j.kind, j.key.value) := j.id]; }
      r := Some((j.id, rows[j.id]));
    }

    // The candidate with the least run_at.
    method Oldest(ids: set<Id>) returns (o: Id)
      requires ids != {} && ids <= rows.Keys
      ensures o in ids && forall x | x in ids :: rows[o].runAt <= rows[x].runAt
    {
      o :| o in ids;
      var rest := ids - {o};
      while rest != {}
        invariant rest <= ids && o in ids && o !in rest
        invariant forall x | x in ids && x !in rest :: rows[o].runAt <= rows[x].runAt
        decreases rest
      {
        var x :| x in rest;
        rest := rest - {x};
        if rows[x].runAt < rows[o].runAt { o := x; }
      }
    }

    // The claimable CTE: oldest first, up to the limit.
    method SelectClaimable(kinds: set<string>, limit: nat, seen: Time, skipped: set<Id>) returns (batch: set<Id>)
      ensures IsClaimBatch(rows, kinds, limit, seen, skipped, batch)
    {
      batch := {};
      var left := Candidates(rows, kinds, seen, skipped);
      ghost var all := left;
      while |batch| < limit && left != {}
        invariant batch !! left && batch + left == all && |batch| <= limit
        invariant NoYounger(rows, batch, left)
        decreases left
      {
        var o := Oldest(left);
        batch, left := batch + {o}, left - {o};
      }
      SelectionIsBatch(rows, kinds, limit, seen, skipped, batch, left);
    }

    // The UPDATE of the claim, row by row.
    method TakeAll(batch: set<Id>, worker: string, lease: nat) returns (ghost taken: map<Id, Time>)
      requires batch <= rows.Keys
      modifies this`rows, this`now
      ensures taken.Keys == batch && old(now) <= now && rows == TakeRows(old(rows), worker, lease, taken)
      ensures forall id | id in taken :: old(now) <= taken[id] <= now
    {
      var todo := batch;
      taken := map[];
      assert rows == TakeRows(rows, worker, lease, map[]);
      while todo != {}
        invariant todo <= batch && taken.Keys == batch - todo && old(now) <= now
        invariant rows == TakeRows(old(rows), worker, lease, taken)
        invariant forall id | id in taken :: old(now) <= taken[id] <= now
        decreases todo
      {
        var id :| id in todo;
        var at := Clock();
        TakeOne(old(rows), worker, lease, taken, id, at);
        rows := rows[id := ClaimRow(rows[id], worker, lease, at)];
        taken := taken[id := at];
        todo := todo - {id};
      }
    }

    // The whole claim statement. An attempt counter that would leave smallint fails it.
    method Claim(worker: string, kinds: set<string>, limit: nat, lease: nat, skipped: set<Id>)
      returns (r: Option<set<Id>>, ghost e: Event)
      requires Valid() && limit > 0 && lease > 0
      modifies this`rows, this`now
      ensures Valid()
      ensures r.Some? ==>
        && e.Claim? && e.worker == worker && e.kinds == kinds && e.limit == limit && e.lease == lease
        && e.skipped == skipped
        && Enabled(old(Contents()), e) && Contents() == Apply(old(Contents()), e) && RunsFrom(e, old(now))
        && r.value == e.taken.Keys
      ensures r.Some? ==> |r.value| <= limit && r.value !! skipped
      ensures r.Some? ==> forall id | id in r.value ::
        && id in old(rows) && old(rows)[id].status.Pending? && old(rows)[id].kind in kinds
        && id in rows && Holds(rows[id], worker) && rows[id].attempt == old(rows)[id].attempt + 1
        && rows[id].lease.Some? && old(now) + lease <= rows[id].lease.value <= now + lease
      ensures r.None? ==>
        && rows == old(rows) && old(now) <= now
        && exists id | id in rows :: rows[id].status.Pending? && SMALLINT_MAX <= rows[id].attempt
    {
      ghost var before := Contents();
      var seen := Clock();
      e := Idle(seen);
      var batch := SelectClaimable(kinds, limit, seen, skipped);
      if exists id | id in batch :: SMALLINT_MAX <= rows[id].attempt {
        return None, e;
      }
      ghost var taken := TakeAll(batch, worker, lease);
      e := Event.Claim(worker, kinds, limit, lease, skipped, seen, taken, now);
      ClaimApplies(before, e, index);
      r := Some(batch);
    }

    // UPDATE ... WHERE id AND claimed_by AND status = 'claimed': None when the guard matches no row.
    method Settle(id: Id, worker: string, outcome: Outcome) returns (r: Option<Row>, ghost e: Event)
      requires Valid()
      modifies this`rows, this`now
      ensures Valid()
      ensures e.Settle? && e.id == id && e.worker == worker && e.outcome == outcome
      ensures Enabled(old(Contents()), e) && Contents() == Apply(old(Contents()), e) && RunsFrom(e, old(now))
      ensures r.Some? <==> id in old(rows) && Holds(old(rows)[id], worker)
      ensures r.Some? ==> id in rows && r.value == rows[id]
    {
      ghost var before := Contents();
      r := None;
      var first := Clock();
      var second := Clock();
      e := Event.Settle(id, worker, outcome, Stamp(first, second), second);
      if id in rows && Holds(rows[id], worker) {
        rows := rows[id := SettleRow(rows[id], outcome, Stamp(first, second))];
        r := Some(rows[id]);
      }
      ReportApplies(before, e, index);
    }

    method Requeue(id: Id, worker: string) returns (r: Option<Row>, ghost e: Event)
      requires Valid()
      modifies this`rows, this`now
      ensures Valid()
      ensures e.Requeue? && e.id == id && e.worker == worker
      ensures Enabled(old(Contents()), e) && Contents() == Apply(old(Contents()), e) && RunsFrom(e, old(now))
      ensures r.Some? <==> id in old(rows) && Holds(old(rows)[id], worker)
      ensures r.Some? ==> id in rows && r.value == rows[id]
    {
      ghost var before := Contents();
      r := None;
      var at := Clock();
      e := Event.Requeue(id, worker, at, now);
      if id in rows && Holds(rows[id], worker) {
        rows := rows[id := RequeueRow(rows[id], at)];
        r := Some(rows[id]);
      }
      ReportApplies(before, e, index);
    }

    method GetByID(id: Id) returns (r: Option<Row>)
      ensures r == if id in rows then Some(rows[id]) else None
    {
      r := if id in rows then Some(rows[id]) else None;
    }

    // The UPDATE of the sweep, row by row.
    method RecoverAll(batch: set<Id>) returns (ghost recovered: map<Id, Stamp>)
      requires batch <= rows.Keys
      modifies this`rows, this`now
      ensures recovered.Keys == batch && old(now) <= now && rows == RecoverRows(old(rows), recovered)
      ensures forall id | id in recovered :: InOrder(old(now), recovered[id], now)
    {
      var todo := batch;
      recovered := map[];
      assert rows == RecoverRows(rows, map[]);
      while todo != {}
        invariant todo <= batch && recovered.Keys == batch - todo && old(now) <= now
        invariant rows == RecoverRows(old(rows), recovered)
        invariant forall id | id in recovered :: InOrder(old(now), recovered[id], now)
        decreases todo
      {
        var id :| id in todo;
        var first := Clock();
        var second := Clock();
        RecoverOne(old(rows), recovered, id, Stamp(first, second));
        rows := rows[id := ReapRow(rows[id], Stamp(first, second))];
        recovered := recovered[id := Stamp(first, second)];
        todo := todo - {id};
      }
    }

    // The sweep: every lapsed lease not locked by others.
    method Reap(skipped: set<Id>) returns (batch: set<Id>, ghost e: Event)
      requires Valid()
      modifies this`rows, this`now
      ensures Valid()
      ensures e.Reap? && e.skipped == skipped && batch == e.recovered.Keys
      ensures Enabled(old(Contents()), e) && Contents() == Apply(old(Contents()), e) && RunsFrom(e, old(now))
    {
      ghost var before := Contents();
      var seen := Clock();
      batch := LapsedIds(rows, seen) - skipped;
      ghost var recovered := RecoverAll(batch);
      e := Event.Reap(skipped, seen, recovered, now);
      ReapApplies(before, e, index);
    }

    // The rows go one by one, each with its index entry.
    method DeleteAll(ids: set<Id>)
      requires Valid() && ids <= rows.Keys
      modifies this`rows, this`index
      ensures Valid() && rows == old(rows) - ids
    {
      var todo := ids;
      while todo != {}
        invariant todo <= ids && rows == old(rows) - (ids - todo) && Indexed(rows, index)
        decreases todo
      {
        var id :| id in todo;
        UnindexOne(rows, index, id);
        if rows[id].key.Some? { index := index - {Key(rows[id].owner, rows[id].kind, rows[id].key.value)}; }
        rows := rows - {id};
        todo := todo - {id};
      }
      assert ids - todo == ids;
    }

    // DELETE FROM jobs WHERE expires_at IS NOT NULL AND expires_at < clock_timestamp().
    method Purge() returns (ghost e: Event)
      requires Valid()
      modifies this`rows, this`index, this`now
      ensures Valid()
      ensures e.Purge? && RunsFrom(e, old(now))
      ensures Enabled(old(Contents()), e) && Contents() == Apply(old(Contents()), e)
    {
      ghost var before := Contents();
      var seen := Clock();
      var expired := set id | id in rows && Expired(rows[id], seen);
      e := Event.Purge(seen, seen);
      PurgeApplies(before, e, expired);
      DeleteAll(expired);
    }

    // Claiming until nothing is left takes exactly ceil(backlog / limit) claims and ends at zero.
    method Drain(worker: string, kinds: set<string>, limit: nat, lease: nat) returns (claims: nat)
      requires Valid() && limit > 0 && lease > 0 && Claimable(rows, kinds, now)
      modifies this`rows, this`now
      ensures Valid() && PendingIds(rows) == {}
      ensures |PendingIds(old(rows))| <= limit * claims < |PendingIds(old(rows))| + limit
    {
      claims := 0;
      ghost var backlog := |PendingIds(rows)|;
      while PendingIds(rows) != {}
        invariant Valid() && Claimable(rows, kinds, now)
        invariant PendingIds(rows) != {} ==> |PendingIds(rows)| + limit * claims == backlog
        invariant PendingIds(rows) == {} ==> IsCeiling(claims, backlog, limit)
        decreases |PendingIds(rows)|
      {
        ghost var s := Contents();
        var r, e := Claim(worker, kinds, limit, lease, {});
        DrainStep(s, e);
        CeilingStep(claims, backlog, limit, |PendingIds(s.rows)|);
        claims := claims + 1;
      }
    }
  }

  /* What the statements do to the whole table, and to the index. */

  lemma TakeOne(rows: map<Id, Row>, worker: string, lease: nat, taken: map<Id, Time>, id: Id, at: Time)
    requires id in rows && id !in taken
    ensures var r := TakeRows(rows, worker, lease, taken);
      && r[id] == rows[id]
      && r[id := ClaimRow(rows[id], worker, lease, at)] == TakeRows(rows, worker, lease, taken[id := at])
  {
  }

  lemma RecoverOne(rows: map<Id, Row>, recovered: map<Id, Stamp>, id: Id, at: Stamp)
    requires id in rows && id !in recovered
    ensures var r := RecoverRows(rows, recovered);
      r[id] == rows[id] && r[id := ReapRow(rows[id], at)] == RecoverRows(rows, recovered[id := at])
  {
  }

  // Statements that keep every row's key keep the index.
  lemma SameKeysSameIndex(rows: map<Id, Row>, rows': map<Id, Row>, index: map<Key, Id>)
    requires Indexed(rows, index) && rows.Keys == rows'.Keys
    requires forall id | id in rows :: KeyOf(rows'[id]) == KeyOf(rows[id])
    ensures Indexed(rows', index)
  {
  }

  lemma ClaimApplies(s: Db, e: Event, index: map<Key, Id>)
    requires e.Claim? && Indexed(s.rows, index)
    ensures Apply(s, e).rows == TakeRows(s.rows, e.worker, e.lease, e.taken) && Indexed(Apply(s, e).rows, index)
  {
  }

  lemma ReapApplies(s: Db, e: Event, index: map<Key, Id>)
    requires e.Reap? && Indexed(s.rows, index)
    ensures Apply(s, e).rows == RecoverRows(s.rows, e.recovered) && Indexed(Apply(s, e).rows, index)
  {
  }

  // The rows after a report: the named one settled or handed back if the worker holds it.
  function Reported(s: Db, e: Event): map<Id, Row>
    requires e.Settle? || e.Requeue? || e.Retry?
  {
    if e.id in s.rows && Holds(s.rows[e.id], e.worker)
    then s.rows[e.id := Fate(s.rows[e.id], e.id, e).value] else s.rows
  }

  lemma ReportRewritesOne(s: Db, e: Event)
    requires e.Settle? || e.Requeue? || e.Retry?
    ensures Apply(s, e).rows == Reported(s, e)
  {
  }

  lemma ReportApplies(s: Db, e: Event, index: map<Key, Id>)
    requires (e.Settle? || e.Requeue? || e.Retry?) && Indexed(s.rows, index)
    ensures Apply(s, e).rows == Reported(s, e) && Indexed(Reported(s, e), index)
  {
    ReportRewritesOne(s, e);
    SameKeysSameIndex(s.rows, Reported(s, e), index);
  }

  lemma PurgeApplies(s: Db, e: Event, gone: set<Id>)
    requires e.Purge? && gone == set id | id in s.rows && Expired(s.rows[id], e.seen)
    ensures Apply(s, e) == s.(rows := s.rows - gone, now := e.done)
  {
  }

  lemma UnindexOne(rows: map<Id, Row>, index: map<Key, Id>, id: Id)
    requires Indexed(rows, index) && id in rows
    ensures Indexed(rows - {id}, match KeyOf(rows[id]) case None => index case Some(k) => index - {k})
  {
  }

  lemma EnqueueReplays(s: Db, e: Event, winner: Id)
    requires e.Enqueue? && winner in s.rows && SameKey(s.rows[winner], e.job.owner, e.job.kind, e.job.key)
    ensures Apply(s, e).rows == s.rows && !Creates(s, e)
  {
  }

  lemma EnqueueInserts(s: Db, e: Event, index: map<Key, Id>)
    requires e.Enqueue? && Indexed(s.rows, index) && e.job.id !in s.rows
    requires e.job.key.Some? ==> Key(e.job.owner, e.job.kind, e.job.key.value) !in index
    ensures Creates(s, e) && Apply(s, e).rows == s.rows[e.job.id := InsertRow(e.job, e.at)]
  {
  }

  lemma IndexOne(rows: map<Id, Row>, index: map<Key, Id>, id: Id, r: Row)
    requires Indexed(rows, index) && id !in rows && (KeyOf(r).Some? ==> KeyOf(r).value !in index)
    ensures Indexed(rows[id := r], match KeyOf(r) case None => index case Some(k) => index[k := id])
  {
  }

  /* The selection loop. */

  function Candidates(rows: map<Id, Row>, kinds: set<string>, seen: Time, skipped: set<Id>): set<Id> {
    set id | id in rows && Eligible(rows[id], kinds, seen) && id !in skipped
  }

  ghost predicate NoYounger(rows: map<Id, Row>, batch: set<Id>, left: set<Id>) {
    forall b, x | b in batch && b in rows && x in left && x in rows :: rows[b].runAt <= rows[x].runAt
  }

  lemma SelectionIsBatch(
    rows: map<Id, Row>, kinds: set<string>, limit: nat, seen: Time, skipped: set<Id>, batch: set<Id>, left: set<Id>)
    requires batch + left == Candidates(rows, kinds, seen, skipped) && |batch| <= limit
    requires NoYounger(rows, batch, left) && (|batch| == limit || left == {})
    ensures IsClaimBatch(rows, kinds, limit, seen, skipped, batch)
  {
    forall id | id in rows && Eligible(rows[id], kinds, seen) && id !in skipped && id !in batch
      ensures id in left
    {
      assert id in Candidates(rows, kinds, seen, skipped);
    }
    forall id | id in batch ensures id in rows && Eligible(rows[id], kinds, seen) && id !in skipped {
      assert id in Candidates(rows, kinds, seen, skipped);
    }
  }

  /* The drain loop. */

  // Every pending row is of a served kind, due, and within smallint.
  ghost predicate Claimable(rows: map<Id, Row>, kinds: set<string>, now: Time) {
    forall id | id in rows && rows[id].status.Pending? ::
      rows[id].kind in kinds && rows[id].runAt <= now && rows[id].attempt < SMALLINT_MAX
  }

  ghost predicate IsCeiling(k: nat, n: nat, d: nat) {
    n <= d * k < n + d
  }

  lemma DrainStep(s: Db, e: Event)
    requires Enabled(s, e) && e.Claim? && e.skipped == {} && Claimable(s.rows, e.kinds, s.now)
    ensures var p, p' := |PendingIds(s.rows)|, |PendingIds(Apply(s, e).rows)|;
      p' == if p <= e.limit then 0 else p - e.limit
    ensures Claimable(Apply(s, e).rows, e.kinds, e.done)
  {
    assert DueIds(s.rows, e.seen) == PendingIds(s.rows);
    OpenClaimTakesOldest(s, e);
    OpenClaimShrinksBacklog(s, e);
    forall id | id in PendingIds(Apply(s, e).rows) ensures id in s.rows && Apply(s, e).rows[id] == s.rows[id] {
      assert id in PendingIds(s.rows);
    }
  }

  lemma CeilingStep(k: nat, n: nat, d: nat, left: nat)
    requires left + d * k == n && 0 < left && 0 < d
    ensures left <= d ==> IsCeiling(k + 1, n, d)
    ensures d < left ==> left - d + d * (k + 1) == n
  {
  }
}
