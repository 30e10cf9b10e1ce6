/**
 What reachability adds to the CHECK constraints: a row invariant no constraint states, kept by
 every statement and therefore true of every row of every run.
 */
module Reachable {
  import opened Jobs
  import opened Queue

  ghost predicate RowInv(r: Row, now: Time) {
    && r.status.Claimed? == r.lease.Some? == r.claimedBy.Some?
    && r.status.Terminal() == r.settledAt.Some? == r.expiresAt.Some?
    && !r.status.Cancelled?
    && r.runAt <= now
    && (r.status.Terminal() ==>
          r.settledAt.value <= now && r.settledAt.value + RETENTION <= r.expiresAt.value <= now + RETENTION)
    && (r.result.Some? ==> r.status.Succeeded?)
    && (r.error.Some? ==> r.status.Failed? || r.status.Abandoned?)
    && (r.status.Abandoned? ==> r.error == Some(REAP_ERROR) && r.maxAttempts <= r.attempt)
    && (!r.status.Pending? ==> 1 <= r.attempt)
    && ColumnChecks(r)
  }

  ghost predicate DbInv(s: Db) {
    && s.rows.Keys <= s.minted
    && UniqueKeys(s.rows)
    && forall id | id in s.rows :: RowInv(s.rows[id], s.now)
  }

  lemma RowKept(s: Db, e: Event, id: Id)
    requires Enabled(s, e) && id in s.rows && RowInv(s.rows[id], s.now)
    ensures var f := Fate(s.rows[id], id, e); f.Some? ==> RowInv(f.value, e.done)
  {
  }

  // What the caller submitted; no statement ever rewrites it.
  predicate SameJob(r: Row, r': Row) {
    && r.kind == r'.kind && r.payload == r'.payload && r.owner == r'.owner
    && r.key == r'.key && r.fingerprint == r'.fingerprint && r.maxAttempts == r'.maxAttempts
  }

  // A state's rows are its predecessor's, each gone its own way, and at most one inserted row.
  lemma Successor(s: Db, e: Event, id: Id)
    requires Enabled(s, e)
    ensures id in s.rows ==>
      var f := Fate(s.rows[id], id, e);
      && (id in Apply(s, e).rows <==> f.Some?)
      && (f.Some? ==> Apply(s, e).rows[id] == f.value && SameJob(s.rows[id], f.value))
    ensures id !in s.rows ==>
      && (id in Apply(s, e).rows <==> Creates(s, e) && id == e.job.id)
      && (id in Apply(s, e).rows ==> Apply(s, e).rows[id] == InsertRow(e.job, e.at))
  {
  }

  lemma IdleChangesNothing(s: Db, done: Time)
    ensures Apply(s, Idle(done)) == s.(now := done)
  {
  }

  lemma KeysStayUnique(s: Db, e: Event, a: Id, b: Id)
    requires UniqueKeys(s.rows) && Enabled(s, e)
    requires var rows := Apply(s, e).rows;
      a in rows && b in rows && SameKey(rows[a], rows[b].owner, rows[b].kind, rows[b].key)
    ensures a == b
  {
    Successor(s, e, a);
    Successor(s, e, b);
    if a in s.rows && b in s.rows {
      assert SameKey(s.rows[a], s.rows[b].owner, s.rows[b].kind, s.rows[b].key);
    }
  }

  // Each statement keeps the invariant.
  lemma StatementKeepsInvariant(s: Db, e: Event)
    requires DbInv(s) && Enabled(s, e)
    ensures DbInv(Apply(s, e))
  {
    var s' := Apply(s, e);
    forall id | id in s'.rows
      ensures RowInv(s'.rows[id], s'.now) && id in s'.minted
    {
      Successor(s, e, id);
      if id in s.rows { RowKept(s, e, id); }
    }
    forall a, b | a in s'.rows && b in s'.rows && SameKey(s'.rows[a], s'.rows[b].owner, s'.rows[b].kind, s'.rows[b].key)
      ensures a == b
    {
      KeysStayUnique(s, e, a, b);
    }
  }

  // ... so it holds of every state of every run.
  lemma {:induction false} InvariantHolds(t: Run, n: nat)
    requires IsRun(t) && n < |t.states|
    ensures DbInv(t.states[n])
  {
    if n > 0 {
      InvariantHolds(t, n - 1);
      assert StepAt(t, n - 1);
      StatementKeepsInvariant(t.states[n - 1], t.events[n - 1]);
    }
  }

  lemma RowInvariant(t: Run, n: nat, id: Id)
    requires IsRun(t) && n < |t.states|
    ensures RowAt(t, n, id).Some? ==> RowInv(RowAt(t, n, id).value, t.states[n].now)
    ensures RowAt(t, n, id).Some? ==> id in t.states[n].minted
  {
    InvariantHolds(t, n);
  }

  // The same as `Successor`, at a position of a run.
  lemma RowStep(t: Run, i: nat, id: Id)
    requires IsRun(t) && i < |t.events|
    ensures Enabled(t.states[i], t.events[i]) && t.states[i + 1] == Apply(t.states[i], t.events[i])
    ensures match RowAt(t, i, id)
            case Some(r) =>
              && RowAt(t, i + 1, id) == Fate(r, id, t.events[i])
              && (RowAt(t, i + 1, id).Some? ==> SameJob(r, RowAt(t, i + 1, id).value))
            case None =>
              RowAt(t, i + 1, id) ==
              if Creates(t.states[i], t.events[i]) && id == t.events[i].job.id
              then Some(InsertRow(t.events[i].job, t.events[i].at)) else None
  {
    assert StepAt(t, i);
    Successor(t.states[i], t.events[i], id);
  }

  lemma {:induction false} ClockAdvances(t: Run, i: nat, j: nat)
    requires IsRun(t) && i <= j < |t.states|
    ensures t.states[i].now <= t.states[j].now && t.states[i].minted <= t.states[j].minted
    decreases j
  {
    if i < j {
      ClockAdvances(t, i, j - 1);
      RowStep(t, j - 1, 0);
    }
  }

  // A row the table no longer holds never comes back: its id is spent.
  lemma {:induction false} GoneForGood(t: Run, i: nat, j: nat, id: Id)
    requires IsRun(t) && i <= j < |t.states|
    requires id in t.states[i].minted && RowAt(t, i, id).None?
    ensures RowAt(t, j, id).None?
    decreases j
  {
    if i < j {
      GoneForGood(t, i, j - 1, id);
      ClockAdvances(t, i, j - 1);
      RowStep(t, j - 1, id);
    }
  }

  // The position at which a row that was there and is not any more was last seen.
  lemma {:induction false} LastSeen(t: Run, i: nat, j: nat, id: Id) returns (m: nat)
    requires IsRun(t) && i <= j < |t.states| && id in t.states[i].rows && id !in t.states[j].rows
    ensures i <= m < j && id in t.states[m].rows && id !in t.states[m + 1].rows
    decreases j
  {
    if id in t.states[j - 1].rows { m := j - 1; } else { m := LastSeen(t, i, j - 1, id); }
  }

  /* The invariant says strictly more than the constraints. */

  lemma InvariantImpliesChecks(r: Row, now: Time)
    requires RowInv(r, now)
    ensures Checks(r)
  {
  }

  // A live row with an expiry, or with a holder and no claim, passes every CHECK.
  lemma ChecksAdmitMore()
    ensures exists r :: Checks(r) && r.status.Pending? && Expired(r, 1) && !RowInv(r, 1)
    ensures exists r :: Checks(r) && r.status.Pending? && r.claimedBy.Some? && !RowInv(r, 1)
  {
    var r := InsertRow(NewJob(1, "k", "{}", 1, None, "f", 1), 0);
    assert Checks(r.(expiresAt := Some(0))) && Expired(r.(expiresAt := Some(0)), 1);
    assert Checks(r.(claimedBy := Some("w"))) && r.(claimedBy := Some("w")).claimedBy.Some?;
  }

  // The INSERT goes through exactly when the row it makes meets every constraint.
  lemma InsertMeetsChecks(j: NewJob, at: Time)
    ensures Insertable(j) <==> Checks(InsertRow(j, at))
  {
  }

  // A statement that moved the status and forgot what goes with it would be refused: a claim without
  // a lease, a hand-back or a settle that keeps it, a settle without its two timestamps, and either
  // timestamp pair on a row still running.
  lemma PartialWritesAreRefused(r: Row, worker: string, lease: nat, o: Outcome, at: Stamp)
    ensures !Checks(ClaimRow(r, worker, lease, at.first).(lease := None))
    ensures r.lease.Some? ==> !Checks(RequeueRow(r, at.first).(lease := r.lease))
    ensures r.lease.Some? ==> !Checks(SettleRow(r, o, at).(lease := r.lease))
    ensures !Checks(SettleRow(r, o, at).(settledAt := None)) && !Checks(SettleRow(r, o, at).(expiresAt := None))
    ensures !Checks(ClaimRow(r, worker, lease, at.first).(settledAt := Some(at.first), expiresAt := Some(at.second)))
    ensures !Checks(SettleRow(r, o, at).(status := Cancelled, settledAt := None))
    ensures Checks(r) ==> Checks(SettleRow(r, o, at)) && Checks(SettleRow(r, o, at).(status := Cancelled))
  {
  }
}
