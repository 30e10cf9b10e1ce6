/**
 The fine-grained system. A claim and a sweep select and lock their rows, skipping those others
 hold, and later update and commit, or roll back. An insert and a report wait for the rows they
 would change, write, and commit later too; until then nobody sees what they wrote. Every run of it
 commits the same sequence of tables as a run of `Queue`, where each statement is one step.
 */
module Locking {
  import opened Jobs
  import opened Queue
  import opened Reachable
  import opened Lifecycle

  // An open transaction: what it runs, the clock when it began to, and the rows it locked. A claim
  // and a sweep remember the rows they found locked or waited for. A new row is locked from its
  // insertion on. A report that found its row locked holds nothing while it waits.
  datatype Txn =
    | Claiming(worker: string, kinds: set<string>, limit: nat, lease: nat, seen: Time, batch: set<Id>, skipped: set<Id>)
    | Reaping(seen: Time, batch: set<Id>, skipped: set<Id>)
    | Writing(event: Event, seen: Time, batch: set<Id>)

  datatype Fine = Fine(db: Db, open: map<nat, Txn>)

  datatype Action =
    | SelectClaim(tx: nat, worker: string, kinds: set<string>, limit: nat, lease: nat, seen: Time,
                  batch: set<Id>, done: Time)
    | SelectReap(tx: nat, seen: Time, done: Time)
    | Execute(tx: nat, event: Event)
    | Resume(tx: nat, done: Time)
    | Commit(tx: nat, stamps: map<Id, Stamp>, done: Time)
    | Rollback(tx: nat, done: Time)
    | Delete(seen: Time, done: Time)
    | Pass(done: Time)

  function Locked(f: Fine): set<Id> {
    set x, id | x in f.open && id in f.open[x].batch :: id
  }

  // Statements that write a single row named by the caller.
  predicate Reporting(e: Event) {
    e.Settle? || e.Requeue?
  }

  predicate SingleRow(e: Event) {
    e.Enqueue? || Reporting(e)
  }

  predicate Waits(x: Txn) {
    x.Writing? && Reporting(x.event) && x.batch == {}
  }

  // Rows a transaction holds, or waits for.
  function Stakes(x: Txn): set<Id> {
    if Waits(x) then {x.event.id} else x.batch
  }

  function Staked(f: Fine): set<Id> {
    set x, id | x in f.open && id in Stakes(f.open[x]) :: id
  }

  // Rows such a statement changes, or in the case of a replayed enqueue locks.
  predicate Touches(s: Db, e: Event, id: Id)
    requires id in s.rows
  {
    if e.Enqueue? then SameKey(s.rows[id], e.job.owner, e.job.kind, e.job.key)
    else Fate(s.rows[id], id, e) != Some(s.rows[id])
  }

  ghost function Takes(s: Db, e: Event): set<Id> {
    (set id | id in s.rows && Touches(s, e, id)) + if Creates(s, e) then {e.job.id} else {}
  }

  // The same write, visible from `done` on.
  function Ending(e: Event, done: Time): Event {
    match e
    case Enqueue(j, at, _) => Enqueue(j, at, done)
    case Settle(id, worker, outcome, stamp, _) => Settle(id, worker, outcome, stamp, done)
    case Requeue(id, worker, at, _) => Requeue(id, worker, at, done)
    case _ => Idle(done)
  }

  predicate Inserting(x: Txn) {
    x.Writing? && x.event.Enqueue?
  }

  // A second insert of a key waits for the first, its run_at already read. It goes ahead if the first
  // is rolled back, that is, if the unique index still lets it commit what it inserted; if the first
  // commits, it starts over and is answered with that row. Likewise a report that waited writes the
  // times it read before, if the holder left the row as it was; if the row changed, it starts over.
  ghost predicate CanAct(f: Fine, a: Action) {
    match a
    case SelectClaim(tx, _, kinds, limit, lease, seen, batch, done) =>
      && tx !in f.open && limit > 0 && lease > 0 && f.db.now <= seen <= done
      && IsClaimBatch(f.db.rows, kinds, limit, seen, Locked(f), batch)
    case SelectReap(tx, seen, done) =>
      tx !in f.open && f.db.now <= seen <= done
    case Execute(tx, e) =>
      && tx !in f.open && SingleRow(e) && Enabled(f.db, e) && f.db.now <= ReadingOf(e, 0)
      && (e.Enqueue? ==>
            && Takes(f.db, e) !! Locked(f)
            && forall x | x in f.open && Inserting(f.open[x]) :: f.open[x].event.job.id != e.job.id)
    case Resume(tx, done) =>
      tx in f.open && Waits(f.open[tx]) && f.open[tx].event.id !in Locked(f) && f.db.now <= done
    case Commit(tx, stamps, done) =>
      && tx in f.open && !Waits(f.open[tx]) && f.db.now <= done
      && stamps.Keys == (if f.open[tx].Writing? then {} else f.open[tx].batch)
      && (Inserting(f.open[tx]) ==> Takes(f.db, f.open[tx].event) == f.open[tx].batch)
      && (forall id | id in stamps :: InOrder(f.open[tx].seen, stamps[id], done))
      && (f.open[tx].Claiming? ==> forall id | id in stamps && id in f.db.rows :: f.db.rows[id].attempt < SMALLINT_MAX)
    case Rollback(tx, done) => tx in f.open && f.db.now <= done
    case Delete(seen, done) =>
      && f.db.now <= seen <= done
      && forall id | id in f.db.rows && Expired(f.db.rows[id], seen) :: id !in Locked(f)
    case Pass(done) => f.db.now <= done
  }

  // The UPDATE half of a claim or a sweep, over the rows it locked earlier.
  function Updated(rows: map<Id, Row>, x: Txn, stamps: map<Id, Stamp>): map<Id, Row>
    requires !x.Writing?
  {
    if x.Claiming? then TakeRows(rows, x.worker, x.lease, Firsts(stamps)) else RecoverRows(rows, stamps)
  }

  function Firsts(stamps: map<Id, Stamp>): map<Id, Time> {
    map id | id in stamps :: stamps[id].first
  }

  // Waiting reports whose row has changed leave: they start over.
  function Undisturbed(open: map<nat, Txn>, rows: map<Id, Row>, rows': map<Id, Row>): map<nat, Txn> {
    map x | x in open && (Waits(open[x]) ==> Same(rows, rows', open[x].event.id)) :: open[x]
  }

  predicate Same(rows: map<Id, Row>, rows': map<Id, Row>, id: Id) {
    id in rows && id in rows' && rows[id] == rows'[id]
  }

  ghost function Committed(f: Fine, x: Txn, stamps: map<Id, Stamp>, done: Time): Db {
    if x.Writing? then Apply(f.db, Ending(x.event, done)) else f.db.(rows := Updated(f.db.rows, x, stamps), now := done)
  }

  // A report whose guard matches no row has nothing to commit.
  ghost function Act(f: Fine, a: Action): Fine
    requires CanAct(f, a)
  {
    match a
    case SelectClaim(tx, worker, kinds, limit, lease, seen, batch, done) =>
      Fine(f.db.(now := done), f.open[tx := Claiming(worker, kinds, limit, lease, seen, batch, Staked(f))])
    case SelectReap(tx, seen, done) =>
      Fine(f.db.(now := done), f.open[tx := Reaping(seen, LapsedIds(f.db.rows, seen) - Locked(f), Staked(f))])
    case Execute(tx, e) =>
      var wants := Takes(f.db, e);
      Fine(f.db.(now := e.done),
           if wants == {} then f.open
           else f.open[tx := Writing(e, f.db.now, if wants !! Locked(f) then wants else {})])
    case Resume(tx, done) =>
      Fine(f.db.(now := done), f.open[tx := Writing(f.open[tx].event, f.open[tx].seen, {f.open[tx].event.id})])
    case Commit(tx, stamps, done) =>
      var db := Committed(f, f.open[tx], stamps, done);
      Fine(db, Undisturbed(f.open - {tx}, f.db.rows, db.rows))
    case Rollback(tx, done) => Fine(f.db.(now := done), f.open - {tx})
    case Delete(seen, done) => Fine(Apply(f.db, Purge(seen, done)), f.open)
    case Pass(done) => Fine(f.db.(now := done), f.open)
  }

  /* What locking preserves. */

  // While a claim is open its rows stay as selected, and whatever else could outrank them was
  // locked when it looked or has turned pending since.
  ghost predicate ClaimStands(s: Db, x: Txn)
    requires x.Claiming?
  {
    && x.limit > 0 && x.lease > 0 && |x.batch| <= x.limit && x.seen <= s.now
    && (forall id | id in x.batch :: id in s.rows && Eligible(s.rows[id], x.kinds, x.seen))
    && (forall id |
          && id in s.rows && Eligible(s.rows[id], x.kinds, x.seen) && s.rows[id].runAt < x.seen
          && id !in x.batch && id !in x.skipped ::
          |x.batch| == x.limit && forall b | b in x.batch :: s.rows[b].runAt <= s.rows[id].runAt)
  }

  ghost predicate ReapStands(s: Db, x: Txn)
    requires x.Reaping?
  {
    && x.seen <= s.now
    && (forall id | id in x.batch :: id in s.rows && Lapsed(s.rows[id], x.seen))
    && (forall id | id in s.rows && Lapsed(s.rows[id], x.seen) :: id in x.batch || id in x.skipped)
  }

  // What a report did when it ran, or will do once it has its row, is what it would do now; an
  // insert's id is still unused.
  ghost predicate WriteStands(s: Db, x: Txn)
    requires x.Writing?
  {
    && SingleRow(x.event) && x.seen <= s.now && x.seen <= ReadingOf(x.event, 0)
    && Enabled(s, Ending(x.event, s.now))
    && (Reporting(x.event) ==> Takes(s, x.event) == {x.event.id} && (x.batch == {} || x.batch == {x.event.id}))
  }

  ghost predicate Stands(s: Db, x: Txn) {
    if x.Claiming? then ClaimStands(s, x) else if x.Reaping? then ReapStands(s, x) else WriteStands(s, x)
  }

  ghost predicate Disjoint(open: map<nat, Txn>) {
    forall x, y | x in open && y in open && x != y :: open[x].batch !! open[y].batch
  }

  ghost predicate IdsDiffer(open: map<nat, Txn>) {
    forall x, y | x in open && y in open && x != y && Inserting(open[x]) && Inserting(open[y]) ::
      open[x].event.job.id != open[y].event.job.id
  }

  // A selecting transaction found another's rows locked or waited for, or the other came later.
  ghost predicate SkippedOrLater(open: map<nat, Txn>) {
    forall x, y, id | x in open && y in open && x != y && !open[x].Writing? && id in Stakes(open[y]) ::
      id in open[x].skipped || open[x].seen <= open[y].seen
  }

  ghost predicate FineInv(f: Fine) {
    && DbInv(f.db)
    && Disjoint(f.open) && IdsDiffer(f.open) && SkippedOrLater(f.open)
    && forall x | x in f.open :: Stands(f.db, f.open[x])
  }

  /* Linearisation: each action, as one event at the instant it takes effect. */

  // Rows the committed statement passes over.
  function PassedOver(s: Db, x: Txn): set<Id> {
    if x.Claiming? then
      set id |
        && id in s.rows && Eligible(s.rows[id], x.kinds, s.now) && id !in x.batch
        && (id in x.skipped || x.seen <= s.rows[id].runAt)
    else
      LapsedIds(s.rows, s.now) - x.batch
  }

  function AsEvent(f: Fine, a: Action): Event {
    match a
    case Commit(tx, stamps, done) =>
      if tx !in f.open then Idle(done) else (
        var x := f.open[tx];
        match x
        case Claiming(_, _, _, _, _, _, _) =>
          Claim(x.worker, x.kinds, x.limit, x.lease, PassedOver(f.db, x), f.db.now,
                Firsts(stamps), done)
        case Reaping(_, _, _) => Reap(PassedOver(f.db, x), f.db.now, stamps, done)
        case Writing(e, _, _) => Ending(e, done)
      )
    case Delete(seen, done) => Purge(seen, done)
    case SelectClaim(_, _, _, _, _, _, _, done) => Idle(done)
    case SelectReap(_, _, done) => Idle(done)
    case Execute(_, e) => Idle(e.done)
    case Resume(_, done) => Idle(done)
    case Rollback(_, done) => Idle(done)
    case Pass(done) => Idle(done)
  }

  // Seen from the commit, the rows locked at selection are still a batch the claim may take.
  lemma LockedBatchIsCurrent(s: Db, x: Txn)
    requires x.Claiming? && ClaimStands(s, x)
    ensures IsClaimBatch(s.rows, x.kinds, x.limit, s.now, PassedOver(s, x), x.batch)
  {
  }

  lemma CommitIsOneClaim(f: Fine, a: Action)
    requires CanAct(f, a) && a.Commit? && Stands(f.db, f.open[a.tx]) && f.open[a.tx].Claiming?
    ensures Enabled(f.db, AsEvent(f, a)) && Act(f, a).db == Apply(f.db, AsEvent(f, a))
  {
    var x, e, s := f.open[a.tx], AsEvent(f, a), f.db;
    LockedBatchIsCurrent(s, x);
    assert e.taken.Keys == x.batch;
    ClaimTakesRows(s, e);
  }

  lemma CommitIsOneReap(f: Fine, a: Action)
    requires CanAct(f, a) && a.Commit? && Stands(f.db, f.open[a.tx]) && f.open[a.tx].Reaping?
    ensures Enabled(f.db, AsEvent(f, a)) && Act(f, a).db == Apply(f.db, AsEvent(f, a))
  {
    ReapRecoversRows(f.db, AsEvent(f, a));
  }

  lemma WriteCanEnd(s: Db, x: Txn, done: Time)
    requires x.Writing? && WriteStands(s, x) && s.now <= done
    ensures Enabled(s, Ending(x.event, done))
  {
  }

  lemma CommitIsOneWrite(f: Fine, a: Action)
    requires CanAct(f, a) && a.Commit? && Stands(f.db, f.open[a.tx]) && f.open[a.tx].Writing?
    ensures Enabled(f.db, AsEvent(f, a)) && Act(f, a).db == Apply(f.db, AsEvent(f, a))
  {
  }

  // Each action commits exactly the table its event produces.
  lemma ActionIsOneEvent(f: Fine, a: Action)
    requires FineInv(f) && CanAct(f, a)
    ensures Enabled(f.db, AsEvent(f, a)) && Act(f, a).db == Apply(f.db, AsEvent(f, a))
  {
    match a
    case Commit(tx, _, _) =>
      assert Stands(f.db, f.open[tx]);
      if f.open[tx].Claiming? { CommitIsOneClaim(f, a); }
      if f.open[tx].Reaping? { CommitIsOneReap(f, a); }
      if f.open[tx].Writing? { CommitIsOneWrite(f, a); }
    case Delete(_, _) =>
    case SelectClaim(_, _, _, _, _, _, _, done) => IdleChangesNothing(f.db, done);
    case SelectReap(_, _, done) => IdleChangesNothing(f.db, done);
    case Execute(_, e) => IdleChangesNothing(f.db, e.done);
    case Resume(_, done) => IdleChangesNothing(f.db, done);
    case Rollback(_, done) => IdleChangesNothing(f.db, done);
    case Pass(done) => IdleChangesNothing(f.db, done);
  }

  // What an event linearised at commit passes over was locked, or waited for, when its statement
  // looked, or became eligible only afterwards.
  lemma PassedOverIsExcused(f: Fine, tx: nat, id: Id)
    requires FineInv(f) && tx in f.open && !f.open[tx].Writing? && id in PassedOver(f.db, f.open[tx])
    ensures var x, r := f.open[tx], f.db.rows[id];
      id in x.skipped || (if x.Claiming? then x.seen <= r.runAt else r.lease.Some? && x.seen <= r.lease.value)
  {
  }

  /* One transaction under another's commit. */

  ghost predicate Untouched(s: Db, e: Event, ids: set<Id>) {
    forall id | id in ids && id in s.rows :: Fate(s.rows[id], id, e) == Some(s.rows[id])
  }

  // Neither due nor lapsed at the given clock.
  predicate NotYet(r: Row, seen: Time) {
    !(r.status.Pending? && r.runAt < seen) && !Lapsed(r, seen)
  }

  // A row an event changes, or creates.
  ghost predicate Changed(s: Db, e: Event, id: Id)
    requires id in Apply(s, e).rows
  {
    id !in s.rows || Apply(s, e).rows[id] != s.rows[id]
  }

  // Whatever the event leaves behind is no business of a transaction that looked at `seen`.
  ghost predicate Unseen(s: Db, e: Event, seen: Time, skipped: set<Id>) {
    forall id | id in Apply(s, e).rows && Changed(s, e, id) :: id in skipped || NotYet(Apply(s, e).rows[id], seen)
  }

  lemma ClaimStandsThrough(s: Db, e: Event, x: Txn)
    requires Enabled(s, e) && x.Claiming? && ClaimStands(s, x)
    requires Untouched(s, e, x.batch) && Unseen(s, e, x.seen, x.skipped)
    ensures ClaimStands(Apply(s, e), x)
  {
  }

  lemma ReapStandsThrough(s: Db, e: Event, x: Txn)
    requires Enabled(s, e) && x.Reaping? && ReapStands(s, x)
    requires Untouched(s, e, x.batch) && Unseen(s, e, x.seen, x.skipped)
    ensures ReapStands(Apply(s, e), x)
  {
  }

  lemma ReportTakes(s: Db, e: Event)
    requires Reporting(e)
    ensures Takes(s, e) == if e.id in s.rows && Holds(s.rows[e.id], e.worker) then {e.id} else {}
  {
  }

  lemma ReportStandsThrough(s: Db, e: Event, x: Txn)
    requires Enabled(s, e) && x.Writing? && Reporting(x.event) && WriteStands(s, x) && Untouched(s, e, Stakes(x))
    ensures WriteStands(Apply(s, e), x)
  {
    ReportTakes(s, x.event);
    Successor(s, e, x.event.id);
    ReportTakes(Apply(s, e), x.event);
  }

  lemma InsertStandsThrough(s: Db, e: Event, x: Txn)
    requires Enabled(s, e) && Inserting(x) && WriteStands(s, x)
    requires e.Enqueue? ==> x.event.job.id != e.job.id
    ensures WriteStands(Apply(s, e), x)
  {
  }

  lemma StandsThrough(s: Db, e: Event, x: Txn)
    requires Enabled(s, e) && Stands(s, x) && Untouched(s, e, Stakes(x))
    requires !x.Writing? ==> Unseen(s, e, x.seen, x.skipped)
    requires e.Enqueue? && Inserting(x) ==> x.event.job.id != e.job.id
    ensures Stands(Apply(s, e), x)
  {
    match x
    case Claiming(_, _, _, _, _, _, _) => ClaimStandsThrough(s, e, x);
    case Reaping(_, _, _) => ReapStandsThrough(s, e, x);
    case Writing(_, _, _) => if Inserting(x) { InsertStandsThrough(s, e, x); } else { ReportStandsThrough(s, e, x); }
  }

  lemma WriteChanges(s: Db, x: Txn, done: Time, id: Id)
    requires x.Writing? && WriteStands(s, x) && s.now <= done && Takes(s, x.event) == x.batch
    requires var e := Ending(x.event, done); id in Apply(s, e).rows && Changed(s, e, id)
    ensures id in x.batch && NotYet(Apply(s, Ending(x.event, done)).rows[id], x.seen)
  {
    var e := Ending(x.event, done);
    WriteCanEnd(s, x, done);
    Successor(s, e, id);
    assert id in s.rows ==> Touches(s, x.event, id);
  }

  // A commit changes only rows it holds, and reads the clock for them after it began.
  lemma CommitChanges(f: Fine, a: Action, id: Id)
    requires CanAct(f, a) && a.Commit? && Stands(f.db, f.open[a.tx])
    requires id in Apply(f.db, AsEvent(f, a)).rows && Changed(f.db, AsEvent(f, a), id)
    ensures id in f.open[a.tx].batch
    ensures NotYet(Apply(f.db, AsEvent(f, a)).rows[id], f.open[a.tx].seen)
  {
    var x := f.open[a.tx];
    match x
    case Claiming(_, _, _, _, _, _, _) => CommitIsOneClaim(f, a);
    case Reaping(_, _, _) => CommitIsOneReap(f, a);
    case Writing(_, _, _) => WriteChanges(f.db, x, a.done, id);
  }

  lemma CommitLeavesRow(f: Fine, a: Action, y: nat, id: Id)
    requires CanAct(f, a) && a.Commit? && Stands(f.db, f.open[a.tx]) && Enabled(f.db, AsEvent(f, a))
    requires y in f.open && f.open[a.tx].batch !! f.open[y].batch && id in f.open[y].batch && id in f.db.rows
    ensures Fate(f.db.rows[id], id, AsEvent(f, a)) == Some(f.db.rows[id])
  {
  }

  lemma CommitIsUnseen(f: Fine, a: Action, y: nat, id: Id)
    requires CanAct(f, a) && a.Commit? && Stands(f.db, f.open[a.tx]) && SkippedOrLater(f.open)
    requires y in f.open && y != a.tx && !f.open[y].Writing?
    requires id in Apply(f.db, AsEvent(f, a)).rows && Changed(f.db, AsEvent(f, a), id)
    ensures id in f.open[y].skipped || NotYet(Apply(f.db, AsEvent(f, a)).rows[id], f.open[y].seen)
  {
  }

  lemma CommitLeavesOthers(f: Fine, a: Action, y: nat)
    requires FineInv(f) && CanAct(f, a) && a.Commit? && y in f.open && y != a.tx
    ensures var e := AsEvent(f, a);
      && Untouched(f.db, e, f.open[y].batch)
      && (!f.open[y].Writing? ==> Unseen(f.db, e, f.open[y].seen, f.open[y].skipped))
      && (e.Enqueue? && Inserting(f.open[y]) ==> f.open[y].event.job.id != e.job.id)
  {
    var e := AsEvent(f, a);
    ActionIsOneEvent(f, a);
    assert Stands(f.db, f.open[a.tx]);
    assert e.Enqueue? ==> Inserting(f.open[a.tx]) && e.job == f.open[a.tx].event.job;
    forall id | id in f.open[y].batch && id in f.db.rows ensures Fate(f.db.rows[id], id, e) == Some(f.db.rows[id]) {
      CommitLeavesRow(f, a, y, id);
    }
    forall id | id in Apply(f.db, e).rows && Changed(f.db, e, id) && !f.open[y].Writing?
      ensures id in f.open[y].skipped || NotYet(Apply(f.db, e).rows[id], f.open[y].seen)
    {
      CommitIsUnseen(f, a, y, id);
    }
  }

  lemma DeleteLeavesOthers(f: Fine, a: Action, y: nat)
    requires CanAct(f, a) && a.Delete? && y in f.open
    ensures Untouched(f.db, AsEvent(f, a), f.open[y].batch)
    ensures forall id | id in Apply(f.db, AsEvent(f, a)).rows :: !Changed(f.db, AsEvent(f, a), id)
  {
  }

  lemma WaitedRowIsHeld(f: Fine, x: nat)
    requires FineInv(f) && x in f.open && Waits(f.open[x])
    ensures var id := f.open[x].event.id;
      id in f.db.rows && f.db.rows[id].status.Claimed? && f.db.rows[id].expiresAt.None?
  {
    var id := f.open[x].event.id;
    assert Stands(f.db, f.open[x]);
    ReportTakes(f.db, f.open[x].event);
    assert RowInv(f.db.rows[id], f.db.now);
  }

  // A report still waiting after an action finds its row as it was.
  lemma WaiterUndisturbed(f: Fine, a: Action, y: nat)
    requires FineInv(f) && CanAct(f, a) && y in f.open && y in Act(f, a).open && Waits(f.open[y])
    ensures Untouched(f.db, AsEvent(f, a), Stakes(f.open[y]))
  {
    WaitedRowIsHeld(f, y);
    ActionIsOneEvent(f, a);
    Successor(f.db, AsEvent(f, a), f.open[y].event.id);
  }

  lemma OthersUntouched(f: Fine, a: Action, y: nat)
    requires FineInv(f) && CanAct(f, a) && y in f.open && y in Act(f, a).open
    ensures var e := AsEvent(f, a);
      && Untouched(f.db, e, Stakes(f.open[y]))
      && (!f.open[y].Writing? ==> Unseen(f.db, e, f.open[y].seen, f.open[y].skipped))
      && (e.Enqueue? && Inserting(f.open[y]) ==> f.open[y].event.job.id != e.job.id)
  {
    if Waits(f.open[y]) { WaiterUndisturbed(f, a, y); }
    if a.Commit? {
      CommitLeavesOthers(f, a, y);
    } else if a.Delete? {
      DeleteLeavesOthers(f, a, y);
    } else {
      IdleChangesNothing(f.db, AsEvent(f, a).done);
    }
  }

  lemma LockedIsStaked(f: Fine)
    ensures Locked(f) <= Staked(f)
  {
    forall x, id | x in f.open && id in f.open[x].batch ensures id in Stakes(f.open[x]) {
    }
  }

  lemma NewClaimStands(f: Fine, a: Action)
    requires FineInv(f) && CanAct(f, a) && a.SelectClaim?
    ensures Stands(Act(f, a).db, Act(f, a).open[a.tx])
  {
    LockedIsStaked(f);
  }

  lemma NewReapStands(f: Fine, a: Action)
    requires FineInv(f) && CanAct(f, a) && a.SelectReap?
    ensures Stands(Act(f, a).db, Act(f, a).open[a.tx])
  {
    LockedIsStaked(f);
  }

  lemma JustWritten(s: Db, e: Event, batch: set<Id>)
    requires SingleRow(e) && Enabled(s, e) && s.now <= ReadingOf(e, 0) && Takes(s, e) != {}
    requires batch == Takes(s, e) || (Reporting(e) && batch == {})
    ensures WriteStands(s.(now := e.done), Writing(e, s.now, batch))
  {
    var s' := s.(now := e.done);
    assert Takes(s', e) == Takes(s, e);
    if Reporting(e) { ReportTakes(s, e); }
  }

  lemma NewWriteStands(f: Fine, a: Action)
    requires CanAct(f, a) && a.Execute? && a.tx in Act(f, a).open
    ensures Stands(Act(f, a).db, Act(f, a).open[a.tx])
  {
    JustWritten(f.db, a.event, Act(f, a).open[a.tx].batch);
  }

  lemma BatchesStayDisjoint(f: Fine, a: Action)
    requires FineInv(f) && CanAct(f, a)
    ensures Disjoint(Act(f, a).open)
  {
  }

  lemma IdsStayDifferent(f: Fine, a: Action)
    requires FineInv(f) && CanAct(f, a)
    ensures IdsDiffer(Act(f, a).open)
  {
  }

  lemma OrderIsKept(f: Fine, a: Action)
    requires FineInv(f) && CanAct(f, a)
    ensures SkippedOrLater(Act(f, a).open)
  {
  }

  lemma ActionKeepsInvariant(f: Fine, a: Action)
    requires FineInv(f) && CanAct(f, a)
    ensures FineInv(Act(f, a))
  {
    ActionIsOneEvent(f, a);
    StatementKeepsInvariant(f.db, AsEvent(f, a));
    BatchesStayDisjoint(f, a);
    IdsStayDifferent(f, a);
    OrderIsKept(f, a);
    var f' := Act(f, a);
    forall y | y in f'.open ensures Stands(f'.db, f'.open[y]) {
      if y in f.open {
        OthersUntouched(f, a, y);
        StandsThrough(f.db, AsEvent(f, a), f.open[y]);
        assert a.Resume? && a.tx == y ==> f'.open[y].event == f.open[y].event && f'.open[y].seen == f.open[y].seen;
      } else if a.SelectClaim? {
        NewClaimStands(f, a);
      } else if a.SelectReap? {
        NewReapStands(f, a);
      } else {
        NewWriteStands(f, a);
      }
    }
  }

  /* What a commit leaves in the table, statement by statement. */

  // Nothing but what the transaction holds.
  lemma CommitLeavesRest(f: Fine, a: Action, id: Id)
    requires FineInv(f) && CanAct(f, a) && a.Commit? && id !in f.open[a.tx].batch
    ensures var rows, rows' := f.db.rows, Act(f, a).db.rows;
      (id in rows' <==> id in rows) && (id in rows ==> rows'[id] == rows[id])
  {
    ActionIsOneEvent(f, a);
    assert Stands(f.db, f.open[a.tx]);
    Successor(f.db, AsEvent(f, a), id);
    if id in Act(f, a).db.rows && Changed(f.db, AsEvent(f, a), id) { CommitChanges(f, a, id); }
  }

  // A claim's rows are claimed for its worker under its lease, a sweep's recovered.
  lemma CommitTakesBatch(f: Fine, a: Action, id: Id)
    requires FineInv(f) && CanAct(f, a) && a.Commit? && !f.open[a.tx].Writing? && id in f.open[a.tx].batch
    ensures var x, rows' := f.open[a.tx], Act(f, a).db.rows;
      && id in f.db.rows && id in rows' && id in a.stamps
      && rows'[id] == if x.Claiming? then ClaimRow(f.db.rows[id], x.worker, x.lease, a.stamps[id].first)
                      else ReapRow(f.db.rows[id], a.stamps[id])
  {
    assert Stands(f.db, f.open[a.tx]);
  }

  // A report settles or hands back the row it holds, with the times it read.
  lemma CommitReports(f: Fine, a: Action)
    requires FineInv(f) && CanAct(f, a) && a.Commit? && f.open[a.tx].Writing? && !Inserting(f.open[a.tx])
    ensures var e, rows' := f.open[a.tx].event, Act(f, a).db.rows;
      && f.open[a.tx].batch == {e.id} && e.id in f.db.rows && e.id in rows' && Holds(f.db.rows[e.id], e.worker)
      && rows'[e.id] == if e.Settle? then SettleRow(f.db.rows[e.id], e.outcome, e.stamp)
                        else RequeueRow(f.db.rows[e.id], e.at)
  {
    var x := f.open[a.tx];
    assert Stands(f.db, x);
    ReportTakes(f.db, x.event);
    CommitIsOneWrite(f, a);
    Successor(f.db, AsEvent(f, a), x.event.id);
  }

  lemma InsertLands(s: Db, x: Txn, done: Time)
    requires Inserting(x) && WriteStands(s, x) && Takes(s, x.event) == x.batch
    ensures var j, s' := x.event.job, Apply(s, Ending(x.event, done));
      && j.id in s'.minted
      && (j.id in x.batch ==> j.id !in s.rows && s'.rows == s.rows[j.id := InsertRow(j, x.event.at)])
      && (j.id !in x.batch ==> s'.rows == s.rows)
  {
    var e := Ending(x.event, done);
    assert x.event.job.id in x.batch <==> Creates(s, e);
  }

  // An insert that holds its new row leaves it there; one answered with another row leaves nothing.
  lemma CommitInserts(f: Fine, a: Action)
    requires CanAct(f, a) && a.Commit? && Inserting(f.open[a.tx]) && Stands(f.db, f.open[a.tx])
    ensures var x, rows' := f.open[a.tx], Act(f, a).db.rows;
      var j := x.event.job;
      && j.id in Act(f, a).db.minted
      && (j.id in x.batch ==> j.id !in f.db.rows && rows' == f.db.rows[j.id := InsertRow(j, x.event.at)])
      && (j.id !in x.batch ==> rows' == f.db.rows)
  {
    InsertLands(f.db, f.open[a.tx], a.done);
  }

  // Everybody else's transactions go on as they were, except for reports waiting for a changed row.
  lemma OthersGoOn(f: Fine, a: Action, y: nat)
    requires FineInv(f) && CanAct(f, a) && y in f.open
    requires (a.Commit? || a.Rollback? || a.Resume?) ==> y != a.tx
    ensures y in Act(f, a).open <==>
      !(a.Commit? && Waits(f.open[y]) && !Same(f.db.rows, Act(f, a).db.rows, f.open[y].event.id))
    ensures y in Act(f, a).open ==> Act(f, a).open[y] == f.open[y]
  {
  }

  /* Who waits for whom. */

  lemma {:induction false} Youngest(rows: map<Id, Row>, ids: set<Id>) returns (o: Id)
    requires ids != {} && ids <= rows.Keys
    ensures o in ids && forall x | x in ids :: rows[o].runAt <= rows[x].runAt
  {
    o :| o in ids;
    if ids != {o} {
      var rest := Youngest(rows, ids - {o});
      if rows[rest].runAt < rows[o].runAt { o := rest; }
    }
  }

  lemma {:induction false} BatchExists(rows: map<Id, Row>, kinds: set<string>, limit: nat, seen: Time, skipped: set<Id>)
    returns (batch: set<Id>)
    ensures IsClaimBatch(rows, kinds, limit, seen, skipped, batch)
  {
    batch := {};
    if limit > 0 {
      var fewer := BatchExists(rows, kinds, limit - 1, seen, skipped);
      batch := fewer;
      var left := set id | id in rows && Eligible(rows[id], kinds, seen) && id !in skipped && id !in fewer;
      if left != {} {
        var o := Youngest(rows, left);
        assert |fewer| == limit - 1;
        batch := fewer + {o};
        forall id | id in rows && Eligible(rows[id], kinds, seen) && id !in skipped && id !in batch
          ensures forall b | b in batch :: rows[b].runAt <= rows[id].runAt
        {
          assert id in left;
        }
      } else {
        assert forall id | id in rows && Eligible(rows[id], kinds, seen) && id !in skipped :: id in left || id in fewer;
      }
    }
  }

  // A claim and a sweep wait for nobody, whoever holds what.
  lemma LookingNeverWaits(f: Fine, tx: nat, worker: string, kinds: set<string>, limit: nat, lease: nat, seen: Time)
    returns (batch: set<Id>)
    requires tx !in f.open && limit > 0 && lease > 0 && f.db.now <= seen
    ensures CanAct(f, SelectClaim(tx, worker, kinds, limit, lease, seen, batch, seen))
    ensures CanAct(f, SelectReap(tx, seen, seen))
  {
    batch := BatchExists(f.db.rows, kinds, limit, seen, Locked(f));
  }

  // What a transaction that holds its rows needs to commit, if anything.
  ghost predicate MayCommit(f: Fine, x: Txn) {
    && !Waits(x)
    && (Inserting(x) ==> Takes(f.db, x.event) == x.batch)
    && (x.Claiming? ==> forall id | id in x.batch && id in f.db.rows :: f.db.rows[id].attempt < SMALLINT_MAX)
  }

  // Whoever holds its rows can commit whenever it likes: a sweep and a report always, an insert unless
  // its key has been taken, a claim unless an attempt would leave its column. Anybody can roll back.
  lemma HoldersNeverWait(f: Fine, tx: nat, done: Time)
    requires FineInv(f) && tx in f.open && f.db.now <= done
    ensures CanAct(f, Rollback(tx, done))
    ensures (exists stamps :: CanAct(f, Commit(tx, stamps, done))) <==> MayCommit(f, f.open[tx])
  {
    var x := f.open[tx];
    if MayCommit(f, x) {
      SeenBefore(f, tx);
      var stamps := if x.Writing? then map[] else map id | id in x.batch :: Stamp(done, done);
      assert CanAct(f, Commit(tx, stamps, done));
    }
  }

  lemma SeenBefore(f: Fine, tx: nat)
    requires FineInv(f) && tx in f.open
    ensures f.open[tx].seen <= f.db.now
  {
    assert Stands(f.db, f.open[tx]);
  }

  // A report can always be made. It gets its row at once if nobody holds it, waits for it otherwise,
  // and comes to nothing when its guard fails.
  lemma ReportingOutcome(f: Fine, tx: nat, e: Event)
    requires FineInv(f) && tx !in f.open && Reporting(e) && Enabled(f.db, e) && f.db.now <= ReadingOf(e, 0)
    ensures CanAct(f, Execute(tx, e))
    ensures var open := Act(f, Execute(tx, e)).open;
      if e.id in f.db.rows && Holds(f.db.rows[e.id], e.worker)
      then open == f.open[tx := Writing(e, f.db.now, if e.id in Locked(f) then {} else {e.id})]
      else open == f.open
  {
    ReportTakes(f.db, e);
  }

  lemma WaitersGetFreeRows(f: Fine, tx: nat, done: Time)
    requires FineInv(f) && tx in f.open && Waits(f.open[tx]) && f.db.now <= done
    ensures CanAct(f, Resume(tx, done)) <==> f.open[tx].event.id !in Locked(f)
  {
  }

  /* Whole runs. */

  datatype FineRun = FineRun(states: seq<Fine>, actions: seq<Action>)

  ghost predicate FineStepAt(t: FineRun, i: nat)
    requires i < |t.actions| < |t.states|
  {
    CanAct(t.states[i], t.actions[i]) && t.states[i + 1] == Act(t.states[i], t.actions[i])
  }

  ghost predicate IsFineRun(t: FineRun) {
    && |t.states| == |t.actions| + 1
    && t.states[0].db.rows == map[] && t.states[0].db.minted == {} && t.states[0].open == map[]
    && forall i | 0 <= i < |t.actions| :: FineStepAt(t, i)
  }

  lemma {:induction false} FineInvariantHolds(t: FineRun, n: nat)
    requires IsFineRun(t) && n < |t.states|
    ensures FineInv(t.states[n])
  {
    if n > 0 {
      FineInvariantHolds(t, n - 1);
      assert FineStepAt(t, n - 1);
      ActionKeepsInvariant(t.states[n - 1], t.actions[n - 1]);
    }
  }

  // In-flight batches never overlap.
  lemma InFlightBatchesAreDisjoint(t: FineRun, n: nat, x: nat, y: nat)
    requires IsFineRun(t) && n < |t.states| && x in t.states[n].open && y in t.states[n].open && x != y
    ensures t.states[n].open[x].batch !! t.states[n].open[y].batch
  {
    FineInvariantHolds(t, n);
  }

  function Linearised(t: FineRun): Run
    requires |t.states| == |t.actions| + 1
  {
    Run(seq(|t.states|, i requires 0 <= i < |t.states| => t.states[i].db),
        seq(|t.actions|, i requires 0 <= i < |t.actions| => AsEvent(t.states[i], t.actions[i])))
  }

  lemma FineStepIsEvent(t: FineRun, i: nat)
    requires IsFineRun(t) && i < |t.actions|
    ensures Enabled(t.states[i].db, AsEvent(t.states[i], t.actions[i]))
    ensures t.states[i + 1].db == Apply(t.states[i].db, AsEvent(t.states[i], t.actions[i]))
  {
    FineInvariantHolds(t, i);
    assert FineStepAt(t, i);
    ActionIsOneEvent(t.states[i], t.actions[i]);
  }

  lemma LinearisedIsRun(t: FineRun)
    requires IsFineRun(t)
    ensures IsRun(Linearised(t))
  {
    var u := Linearised(t);
    forall i | 0 <= i < |u.events| ensures StepAt(u, i) { FineStepIsEvent(t, i); }
  }

  /* What a row's locks say about the clock. */

  // Whoever holds row `id`, or waits for it, began no earlier than `since`.
  ghost predicate HeldSince(f: Fine, id: Id, since: Time) {
    since <= f.db.now && forall x | x in f.open && id in Stakes(f.open[x]) :: since <= f.open[x].seen
  }

  lemma ActionKeepsHeldSince(f: Fine, a: Action, id: Id, since: Time)
    requires CanAct(f, a) && HeldSince(f, id, since)
    ensures HeldSince(f.(open := Act(f, a).open), id, since)
  {
  }

  lemma {:induction false} HeldSinceKept(t: FineRun, i: nat, n: nat, id: Id, since: Time)
    requires IsFineRun(t) && i <= n < |t.states| && HeldSince(t.states[i], id, since)
    ensures HeldSince(t.states[n], id, since)
    decreases n
  {
    if i < n {
      HeldSinceKept(t, i, n - 1, id, since);
      assert FineStepAt(t, n - 1);
      ActionKeepsHeldSince(t.states[n - 1], t.actions[n - 1], id, since);
      FineStepIsEvent(t, n - 1);
    }
  }

  // A commit reads the clock for what it writes after it began.
  lemma CommitReadsLater(f: Fine, a: Action, id: Id)
    requires CanAct(f, a) && a.Commit? && Stands(f.db, f.open[a.tx]) && id in f.open[a.tx].batch
    ensures f.open[a.tx].seen <= ReadingOf(AsEvent(f, a), id)
  {
  }

  // The row is created, changed or deleted.
  ghost predicate Rewritten(f: Fine, a: Action, id: Id)
    requires CanAct(f, a)
  {
    (id in f.db.rows || id in Act(f, a).db.rows) && !Same(f.db.rows, Act(f, a).db.rows, id)
  }

  lemma CommitHadIt(f: Fine, a: Action, id: Id, since: Time)
    requires CanAct(f, a) && a.Commit? && Stands(f.db, f.open[a.tx]) && Disjoint(f.open) && HeldSince(f, id, since)
    requires id in Apply(f.db, AsEvent(f, a)).rows && Changed(f.db, AsEvent(f, a), id)
    requires Act(f, a).db == Apply(f.db, AsEvent(f, a))
    ensures since <= ReadingOf(AsEvent(f, a), id)
    ensures id !in Staked(Act(f, a))
  {
    CommitChanges(f, a, id);
    CommitReadsLater(f, a, id);
  }

  lemma CommitRewrites(f: Fine, a: Action, id: Id)
    requires FineInv(f) && CanAct(f, a) && a.Commit? && Rewritten(f, a, id)
    ensures Stands(f.db, f.open[a.tx]) && Act(f, a).db == Apply(f.db, AsEvent(f, a))
    ensures id in Apply(f.db, AsEvent(f, a)).rows && Changed(f.db, AsEvent(f, a), id)
  {
    ActionIsOneEvent(f, a);
    Successor(f.db, AsEvent(f, a), id);
  }

  lemma DeleteRewrites(f: Fine, a: Action, id: Id)
    requires FineInv(f) && CanAct(f, a) && a.Delete? && Rewritten(f, a, id)
    ensures id !in Staked(Act(f, a))
  {
    assert id in f.db.rows && Expired(f.db.rows[id], a.seen);
    forall x | x in f.open && Waits(f.open[x]) ensures f.open[x].event.id != id { WaitedRowIsHeld(f, x); }
  }

  // A change of the row reads the clock no earlier than that, and leaves the row free.
  lemma ChangeReadsLater(f: Fine, a: Action, id: Id, since: Time)
    requires FineInv(f) && CanAct(f, a) && HeldSince(f, id, since) && Rewritten(f, a, id)
    ensures since <= ReadingOf(AsEvent(f, a), id)
    ensures id !in Staked(Act(f, a))
  {
    if a.Commit? {
      CommitRewrites(f, a, id);
      CommitHadIt(f, a, id, since);
    } else if a.Delete? {
      DeleteRewrites(f, a, id);
    }
  }

  lemma ChangeReadsLaterAt(t: FineRun, i: nat, n: nat, id: Id, since: Time)
    requires IsFineRun(t) && i <= n < |t.actions| && HeldSince(t.states[i], id, since)
    requires Rewrites(Linearised(t), n, id)
    ensures since <= ReadingOf(Linearised(t).events[n], id)
    ensures HeldSince(t.states[n + 1], id, t.states[n + 1].db.now)
  {
    HeldSinceKept(t, i, n, id, since);
    FineInvariantHolds(t, n);
    assert FineStepAt(t, n);
    ChangeReadsLater(t.states[n], t.actions[n], id, since);
  }

  // Every run of the fine-grained system is a run of one-step statements with the same tables at
  // every position, in which a row's changes read the clock one after the other.
  lemma RunsLinearise(t: FineRun)
    requires IsFineRun(t)
    ensures IsRun(Linearised(t)) && RowLocks(Linearised(t))
    ensures forall n | 0 <= n < |t.states| :: Linearised(t).states[n] == t.states[n].db
  {
    LinearisedIsRun(t);
    var u := Linearised(t);
    forall k, i, id | 0 <= k < i < |u.events| && Rewrites(u, k, id) && Rewrites(u, i, id)
      ensures u.states[k + 1].now <= ReadingOf(u.events[i], id)
    {
      FirstChange(t, k, id);
      ChangeReadsLaterAt(t, k + 1, i, id, t.states[k + 1].db.now);
    }
  }

  lemma FirstChange(t: FineRun, k: nat, id: Id)
    requires IsFineRun(t) && k < |t.actions| && Rewrites(Linearised(t), k, id)
    ensures HeldSince(t.states[k + 1], id, t.states[k + 1].db.now)
  {
    ChangeReadsLaterAt(t, 0, k, id, t.states[0].db.now);
  }

  // A job seen live while nobody holds its row settles later than it was seen, and is kept for the
  // whole retention period from then on. Held since some time, it is kept from that time on.
  lemma SeenLiveIsKept(t: FineRun, i: nat, n: nat, id: Id, since: Time)
    requires IsFineRun(t) && i <= n < |t.states| && HeldSince(t.states[i], id, since)
    requires id in t.states[i].db.rows && !t.states[i].db.rows[id].status.Terminal()
    ensures id in t.states[n].db.rows && t.states[n].db.rows[id].status.Terminal() ==>
      var at := t.states[n].db.rows[id].settledAt; at.Some? && since <= at.value
    ensures id !in t.states[n].db.rows ==> since + RETENTION < t.states[n].db.now
  {
    var u := Linearised(t);
    LinearisedIsRun(t);
    if id !in t.states[n].db.rows {
      var m := LastSeen(u, i, n, id);
      PurgeIsSafe(u, m, id);
      SettlesAfterSight(t, i, m, id, since);
      ClockAdvances(u, m + 1, n);
    } else if t.states[n].db.rows[id].status.Terminal() {
      SettlesAfterSight(t, i, n, id, since);
    }
  }

  lemma SettlesAfterSight(t: FineRun, i: nat, n: nat, id: Id, since: Time)
    requires IsFineRun(t) && i <= n < |t.states| && HeldSince(t.states[i], id, since)
    requires id in t.states[i].db.rows && !t.states[i].db.rows[id].status.Terminal()
    requires id in t.states[n].db.rows && t.states[n].db.rows[id].status.Terminal()
    ensures var at := t.states[n].db.rows[id].settledAt; at.Some? && since <= at.value
  {
    var u := Linearised(t);
    LinearisedIsRun(t);
    assert RowAt(u, i, id).Some? && RowAt(u, n, id).Some?;
    var c := SettledBy(u, i, n, id);
    ChangeReadsLaterAt(t, i, c, id, since);
  }

  // No transaction stays open for longer than `lag`.
  ghost predicate ShortTransactions(t: FineRun, lag: nat)
    requires |t.states| == |t.actions| + 1
  {
    forall n | 0 <= n < |t.actions| && t.actions[n].Commit? && t.actions[n].tx in t.states[n].open ::
      t.actions[n].done <= t.states[n].open[t.actions[n].tx].seen + lag
  }

  lemma CommitComesWithin(f: Fine, a: Action, id: Id, lag: nat)
    requires FineInv(f) && CanAct(f, a) && Rewritten(f, a, id)
    requires a.Commit? ==> a.done <= f.open[a.tx].seen + lag
    ensures Act(f, a).db.now <= ReadingOf(AsEvent(f, a), id) + lag
  {
    if a.Commit? {
      CommitRewrites(f, a, id);
      CommitChanges(f, a, id);
      CommitReadsLater(f, a, id);
    }
  }

  // Then every change commits within that of its clock reading.
  lemma ShortTransactionsCommitWithin(t: FineRun, id: Id, lag: nat)
    requires IsFineRun(t) && ShortTransactions(t, lag)
    ensures CommitsWithin(Linearised(t), 0, |t.actions|, id, lag)
  {
    var u := Linearised(t);
    forall c | 0 <= c < |t.actions| && Rewrites(u, c, id)
      ensures u.states[c + 1].now <= ReadingOf(u.events[c], id) + lag
    {
      FineInvariantHolds(t, c);
      assert FineStepAt(t, c);
      CommitComesWithin(t.states[c], t.actions[c], id, lag);
    }
  }

  lemma HeldRowIsLive(f: Fine, x: nat, id: Id)
    requires FineInv(f) && x in f.open && !Inserting(f.open[x]) && id in f.open[x].batch
    ensures id in f.db.rows && f.db.rows[id].expiresAt.None?
  {
    assert Stands(f.db, f.open[x]);
    if f.open[x].Writing? { ReportTakes(f.db, f.open[x].event); }
    assert RowInv(f.db.rows[id], f.db.now);
  }

  // A purge waits for nothing but submissions being answered with a row it would delete: claims,
  // sweeps and reports hold only live rows.
  lemma PurgeWaitsForReplaysOnly(t: FineRun, n: nat, seen: Time, done: Time)
    requires IsFineRun(t) && n < |t.states| && t.states[n].db.now <= seen <= done
    ensures var f := t.states[n];
      CanAct(f, Delete(seen, done)) <==>
      forall x, id | x in f.open && Inserting(f.open[x]) && id in f.open[x].batch && id in f.db.rows ::
        !Expired(f.db.rows[id], seen)
  {
    FineInvariantHolds(t, n);
    var f := t.states[n];
    forall x, id | x in f.open && !Inserting(f.open[x]) && id in f.open[x].batch
      ensures id in f.db.rows && !Expired(f.db.rows[id], seen)
    {
      HeldRowIsLive(f, x, id);
    }
    if CanAct(f, Delete(seen, done)) {
      forall x, id | x in f.open && Inserting(f.open[x]) && id in f.open[x].batch && id in f.db.rows
        ensures !Expired(f.db.rows[id], seen)
      {
        assert id in Locked(f);
      }
    }
  }

  /* From request to commit. */

  // What the action asked for is what the transaction it opened is doing.
  ghost predicate Pursues(f: Fine, a: Action, x: Txn)
    requires CanAct(f, a)
  {
    match a
    case SelectClaim(_, worker, kinds, limit, lease, seen, batch, _) =>
      && x.Claiming? && x.worker == worker && x.kinds == kinds && x.limit == limit && x.lease == lease
      && x.seen == seen && x.batch == batch
    case SelectReap(_, seen, _) => x.Reaping? && x.seen == seen && x.batch == LapsedIds(f.db.rows, seen) - Locked(f)
    case Execute(_, e) => x.Writing? && x.event == e && x.seen == f.db.now
    case _ => false
  }

  lemma {:induction false} StillPursues(t: FineRun, p: nat, n: nat)
    requires IsFineRun(t) && p < n < |t.states|
    requires t.actions[p].SelectClaim? || t.actions[p].SelectReap? || t.actions[p].Execute?
    requires forall k | p < k <= n :: t.actions[p].tx in t.states[k].open
    ensures CanAct(t.states[p], t.actions[p])
    ensures Pursues(t.states[p], t.actions[p], t.states[n].open[t.actions[p].tx])
    decreases n
  {
    assert FineStepAt(t, p) && FineStepAt(t, n - 1);
    if p + 1 < n { StillPursues(t, p, n - 1); }
  }

  // A claim, sweep, insert or report that commits is the one that was asked for: same parameters, the
  // rows it selected, the times it read.
  lemma CommitIsWhatWasAsked(t: FineRun, p: nat, n: nat)
    requires IsFineRun(t) && p < n < |t.actions| && t.actions[n].Commit?
    requires t.actions[p].SelectClaim? || t.actions[p].SelectReap? || t.actions[p].Execute?
    requires t.actions[p].tx == t.actions[n].tx && forall k | p < k <= n :: t.actions[n].tx in t.states[k].open
    ensures var a, c, e := t.actions[p], t.actions[n], Linearised(t).events[n];
      match a
      case SelectClaim(_, worker, kinds, limit, lease, _, batch, _) =>
        && e.Claim? && e.worker == worker && e.kinds == kinds && e.limit == limit && e.lease == lease
        && e.taken.Keys == batch == c.stamps.Keys && forall id | id in batch :: e.taken[id] == c.stamps[id].first
      case SelectReap(_, seen, _) =>
        && e.Reap? && e.recovered == c.stamps
        && e.recovered.Keys == LapsedIds(t.states[p].db.rows, seen) - Locked(t.states[p])
      case Execute(_, w) =>
        if w.Enqueue? then e == Enqueue(w.job, w.at, c.done)
        else if w.Settle? then e == Settle(w.id, w.worker, w.outcome, w.stamp, c.done)
        else w.Requeue? && e == Requeue(w.id, w.worker, w.at, c.done)
  {
    StillPursues(t, p, n);
    assert FineStepAt(t, p) && FineStepAt(t, n);
  }

  /* A statement that finds nothing locked. */

  lemma WriteAlone(s: Db, e: Event)
    requires SingleRow(e) && Enabled(s, e) && s.now <= ReadingOf(e, 0) && Takes(s, e) != {}
    requires Reporting(e) ==> Takes(s, e) == {e.id}
    ensures CanAct(Fine(s, map[]), Execute(0, e))
    ensures var f := Act(Fine(s, map[]), Execute(0, e));
      && f == Fine(s.(now := e.done), map[0 := Writing(e, s.now, Takes(s, e))])
      && CanAct(f, Commit(0, map[], e.done)) && Act(f, Commit(0, map[], e.done)) == Fine(Apply(s, e), map[])
  {
    var f := Fine(s.(now := e.done), map[0 := Writing(e, s.now, Takes(s, e))]);
    assert Takes(f.db, e) == Takes(s, e);
    assert Ending(e, e.done) == e;
    assert Apply(f.db, e) == Apply(s, e);
    assert f.open - {0} == map[];
  }

  lemma SelectAlone(s: Db, e: Event)
    requires Enabled(s, e) && e.Claim? && e.skipped == {}
    ensures var a := SelectClaim(0, e.worker, e.kinds, e.limit, e.lease, e.seen, e.taken.Keys, e.seen);
      && CanAct(Fine(s, map[]), a)
      && Act(Fine(s, map[]), a) == Fine(s.(now := e.seen),
           map[0 := Claiming(e.worker, e.kinds, e.limit, e.lease, e.seen, e.taken.Keys, {})])
  {
    assert Locked(Fine(s, map[])) == {} && Staked(Fine(s, map[])) == {};
  }

  lemma ClaimAlone(s: Db, e: Event, stamps: map<Id, Stamp>)
    requires Enabled(s, e) && e.Claim? && e.skipped == {}
    requires stamps.Keys == e.taken.Keys
    requires forall id | id in stamps :: stamps[id].first == e.taken[id] && InOrder(e.seen, stamps[id], e.done)
    ensures var a := SelectClaim(0, e.worker, e.kinds, e.limit, e.lease, e.seen, e.taken.Keys, e.seen);
      && CanAct(Fine(s, map[]), a)
      && var f := Act(Fine(s, map[]), a);
         CanAct(f, Commit(0, stamps, e.done)) && Act(f, Commit(0, stamps, e.done)) == Fine(Apply(s, e), map[])
  {
    SelectAlone(s, e);
    var x := Claiming(e.worker, e.kinds, e.limit, e.lease, e.seen, e.taken.Keys, {});
    var f := Fine(s.(now := e.seen), map[0 := x]);
    ClaimTakesRows(s, e);
    assert Firsts(stamps) == e.taken;
    assert f.open - {0} == map[];
  }

  lemma SweepAlone(s: Db, e: Event)
    requires Enabled(s, e) && e.Reap? && e.skipped == {}
    requires forall id | id in e.recovered :: InOrder(e.seen, e.recovered[id], e.done)
    ensures var a := SelectReap(0, e.seen, e.seen);
      && CanAct(Fine(s, map[]), a)
      && var f := Act(Fine(s, map[]), a);
         && f.open == map[0 := Reaping(e.seen, e.recovered.Keys, {})]
         && CanAct(f, Commit(0, e.recovered, e.done))
         && Act(f, Commit(0, e.recovered, e.done)) == Fine(Apply(s, e), map[])
  {
    var f0, f := Fine(s, map[]), Fine(s.(now := e.seen), map[0 := Reaping(e.seen, e.recovered.Keys, {})]);
    assert Locked(f0) == {} && Staked(f0) == {};
    ReapRecoversRows(s, e);
    assert f.open - {0} == map[];
  }
}
