/**
 Bounded bypass in the fine-grained system, where what can still get ahead of a job is known as soon
 as it waits: the pending rows no younger than it, and the rows that transactions begun before it was
 due hold or wait for.
 */
module Contention {
  import opened Jobs
  import opened Queue
  import opened Reachable
  import opened Attempts
  import opened Dispatch
  import opened Locking

  // Rows a transaction begun by `due` may still put into the queue.
  function Brewing(f: Fine, due: Time): set<Id> {
    set x, id | x in f.open && !f.open[x].Claiming? && f.open[x].seen <= due && id in Stakes(f.open[x]) :: id
  }

  function Contenders(f: Fine, due: Time): set<Id> {
    Ahead(f.db, due) + Brewing(f, due)
  }

  lemma JoinerIsChanged(s: Db, e: Event, due: Time, id: Id)
    requires Enabled(s, e) && id in Joined(s, e, due)
    ensures Changed(s, e, id) && !e.Claim?
  {
    Successor(s, e, id);
  }

  // What joins the queue ahead of `due` was brewing.
  lemma JoinersWereBrewing(f: Fine, a: Action, due: Time, id: Id)
    requires CanAct(f, a) && a.Commit? && Stands(f.db, f.open[a.tx]) && Enabled(f.db, AsEvent(f, a))
    requires id in Joined(f.db, AsEvent(f, a), due)
    ensures id in Brewing(f, due)
  {
    JoinerIsChanged(f.db, AsEvent(f, a), due, id);
    CommitChanges(f, a, id);
    CommitReadsLater(f, a, id);
    assert id in Stakes(f.open[a.tx]);
  }

  lemma OnlyCommitsJoin(f: Fine, a: Action, due: Time)
    requires FineInv(f) && CanAct(f, a)
    ensures Joined(f.db, AsEvent(f, a), due) <= Brewing(f, due)
  {
    var e := AsEvent(f, a);
    ActionIsOneEvent(f, a);
    if a.Commit? {
      assert Stands(f.db, f.open[a.tx]);
      forall id | id in Joined(f.db, e, due) ensures id in Brewing(f, due) { JoinersWereBrewing(f, a, due, id); }
    }
  }

  // Transactions that begin later read the clock later.
  lemma NothingNewBrews(f: Fine, a: Action, due: Time)
    requires CanAct(f, a) && due < f.db.now
    ensures Brewing(Act(f, a), due) <= Brewing(f, due)
  {
    var open := Act(f, a).open;
    forall x, id | x in open && !open[x].Claiming? && open[x].seen <= due && id in Stakes(open[x])
      ensures id in Brewing(f, due)
    {
      assert x in f.open && id in Stakes(f.open[x]);
    }
  }

  // What a claim takes, no other transaction holds.
  lemma TakenIsNotBrewing(f: Fine, a: Action, due: Time)
    requires CanAct(f, a) && Disjoint(f.open)
    ensures Brewing(Act(f, a), due) !! TakenBy(AsEvent(f, a))
  {
  }

  // Once the clock has passed `due`, nothing joins the contenders, and a claim's batch leaves them.
  lemma ContendersOnlyShrink(f: Fine, a: Action, due: Time)
    requires FineInv(f) && CanAct(f, a) && due < f.db.now
    ensures Contenders(Act(f, a), due) <= Contenders(f, due) - TakenBy(AsEvent(f, a))
  {
    var e := AsEvent(f, a);
    ActionIsOneEvent(f, a);
    AheadChanges(f.db, e, due);
    NothingNewBrews(f, a, due);
    TakenIsNotBrewing(f, a, due);
    OnlyCommitsJoin(f, a, due);
  }

  // One action the job waits through.
  lemma WaitOneAction(f: Fine, a: Action, id: Id, n: nat)
    requires FineInv(f) && CanAct(f, a) && id in f.db.rows && f.db.rows[id].status.Pending?
    requires f.db.rows[id].runAt < f.db.now && !ClaimsJob(AsEvent(f, a), id)
    ensures var r := f.db.rows[id];
      && |Contenders(Act(f, a), r.runAt)| + (if Serves(AsEvent(f, a), r.kind, n, id) then n else 0)
      <= |Contenders(f, r.runAt)|
  {
    var e, r := AsEvent(f, a), f.db.rows[id];
    ActionIsOneEvent(f, a);
    ContendersOnlyShrink(f, a, r.runAt);
    Within(Contenders(Act(f, a), r.runAt), Contenders(f, r.runAt) - TakenBy(e));
    if Serves(e, r.kind, n, id) {
      PassingOverCosts(f.db, e, id, n);
    } else {
      Within(Contenders(f, r.runAt) - TakenBy(e), Contenders(f, r.runAt));
    }
  }

  lemma WaitAt(t: FineRun, k: nat, id: Id, n: nat, r: Row)
    requires IsFineRun(t) && k < |t.actions| && !ClaimsJob(AsEvent(t.states[k], t.actions[k]), id)
    requires id in t.states[k].db.rows && t.states[k].db.rows[id] == r
    requires r.status.Pending? && r.runAt < t.states[k].db.now
    ensures id in t.states[k + 1].db.rows && t.states[k + 1].db.rows[id] == r
    ensures t.states[k].db.now <= t.states[k + 1].db.now
    ensures |Contenders(t.states[k + 1], r.runAt)|
      + (if Serves(AsEvent(t.states[k], t.actions[k]), r.kind, n, id) then n else 0)
      <= |Contenders(t.states[k], r.runAt)|
  {
    FineInvariantHolds(t, k);
    FineStepIsEvent(t, k);
    assert FineStepAt(t, k);
    WaitOneAction(t.states[k], t.actions[k], id, n);
    RowStays(t.states[k].db, AsEvent(t.states[k], t.actions[k]), id);
  }

  lemma RowStays(s: Db, e: Event, id: Id)
    requires Enabled(s, e) && DbInv(s) && id in s.rows && s.rows[id].status.Pending? && !ClaimsJob(e, id)
    ensures id in Apply(s, e).rows && Apply(s, e).rows[id] == s.rows[id]
  {
    Successor(s, e, id);
  }

  lemma {:induction false} WaitingShrinksContenders(t: FineRun, i: nat, m: nat, id: Id, n: nat, r: Row)
    requires IsFineRun(t) && i <= m <= |t.actions|
    requires id in t.states[i].db.rows && t.states[i].db.rows[id] == r
    requires r.status.Pending? && r.runAt < t.states[i].db.now
    requires forall c | i <= c < m :: !ClaimsJob(Linearised(t).events[c], id)
    ensures id in t.states[m].db.rows && t.states[m].db.rows[id] == r && r.runAt < t.states[m].db.now
    ensures |Contenders(t.states[m], r.runAt)| + Served(Linearised(t), i, m, r.kind, n, id)
         <= |Contenders(t.states[i], r.runAt)|
    decreases m
  {
    if i < m {
      WaitingShrinksContenders(t, i, m - 1, id, n, r);
      assert !ClaimsJob(Linearised(t).events[m - 1], id);
      WaitAt(t, m - 1, id, n, r);
    }
  }

  lemma Contends(f: Fine, id: Id, r: Row)
    requires id in f.db.rows && f.db.rows[id] == r && r.status.Pending?
    ensures 0 < |Contenders(f, r.runAt)|
  {
    assert id in Contenders(f, r.runAt);
  }

  // A job waiting among k contenders, itself included, has been taken once ceil(k / n) claims have
  // served it, whatever else ran, committed late or rolled back in between.
  lemma LockedBypass(t: FineRun, i: nat, m: nat, id: Id, n: nat)
    requires IsFineRun(t) && i <= m <= |t.actions| && id in t.states[i].db.rows
    requires var r := t.states[i].db.rows[id];
      && r.status.Pending? && r.runAt < t.states[i].db.now
      && |Contenders(t.states[i], r.runAt)| <= n * ServedCount(Linearised(t), i, m, r.kind, n, id)
    ensures exists c | i <= c < m :: ClaimsJob(Linearised(t).events[c], id)
  {
    var u, r := Linearised(t), t.states[i].db.rows[id];
    if !exists c | i <= c < m :: ClaimsJob(u.events[c], id) {
      ServedTotal(u, i, m, r.kind, n, id);
      WaitingShrinksContenders(t, i, m, id, n, r);
      Contends(t.states[m], id, r);
    }
  }

  // A claim that found the job due and unlocked when it selected serves it at its commit, whichever
  // other rows were locked.
  lemma UnobstructedClaimServes(f: Fine, a: Action, id: Id, n: nat)
    requires CanAct(f, a) && a.Commit? && f.open[a.tx].Claiming? && id in f.db.rows
    requires var x, r := f.open[a.tx], f.db.rows[id];
      r.kind in x.kinds && n <= x.limit && id !in x.skipped && r.runAt < x.seen
    ensures Serves(AsEvent(f, a), f.db.rows[id].kind, n, id)
  {
  }
}
