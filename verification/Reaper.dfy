/**
 The reaper's loop: one sweep at once, then one per tick until cancelled. A sweep that fails leaves
 the table as it was and does not stop the loop. What other processes do between ticks is the
 subject of `Sweep`, over whole runs.
 */
module Reaper {
  import opened Jobs
  import opened Queue
  import opened Table

  // A tick of the loop: the rows others hold locked, and whether the sweep's statement fails.
  datatype Tick = Tick(skipped: set<Id>, fails: bool)

  predicate IsSweep(e: Event, tick: Tick) {
    if tick.fails then e.Idle? else e.Reap? && e.skipped == tick.skipped
  }

  // `t` is one sweep per tick, in order.
  ghost predicate Sweeps(t: Queue.Run, ticks: seq<Tick>) {
    && |t.states| == |ticks| + 1 && |t.events| == |ticks|
    && forall i | 0 <= i < |ticks| :: StepAt(t, i) && IsSweep(t.events[i], ticks[i])
  }

  method SweepOnce(table: JobTable, tick: Tick) returns (recovered: nat, ghost e: Event)
    requires table.Valid()
    modifies table`rows, table`now
    ensures table.Valid() && IsSweep(e, tick)
    ensures Enabled(old(table.Contents()), e) && table.Contents() == Apply(old(table.Contents()), e)
    ensures RunsFrom(e, old(table.now))
    ensures recovered == if tick.fails then 0 else |e.recovered|
  {
    if tick.fails {
      ghost var before := table.Contents();
      e, recovered := Idle(table.now), 0;
      assert Apply(before, e).rows == before.rows;
    } else {
      var batch, ev := table.Reap(tick.skipped);
      e, recovered := ev, |batch|;
    }
  }

  method SweepNext(table: JobTable, tick: Tick, ghost t: Queue.Run, ghost ticks: seq<Tick>) returns (ghost u: Queue.Run)
    requires table.Valid() && Sweeps(t, ticks) && t.states[|ticks|] == table.Contents()
    modifies table`rows, table`now
    ensures table.Valid() && Sweeps(u, ticks + [tick])
    ensures u.states[0] == t.states[0] && u.states[|ticks| + 1] == table.Contents()
  {
    var _, e := SweepOnce(table, tick);
    u := Extended(t, e, tick, ticks);
  }

  // Every tick gets its sweep, whatever happened to the ones before.
  method Run(table: JobTable, boot: Tick, ticks: seq<Tick>) returns (ghost t: Queue.Run)
    requires table.Valid()
    modifies table`rows, table`now
    ensures table.Valid() && Sweeps(t, [boot] + ticks)
    ensures t.states[0] == old(table.Contents()) && t.states[|ticks| + 1] == table.Contents()
  {
    ghost var all := [boot] + ticks;
    t := Queue.Run([table.Contents()], []);
    t := SweepNext(table, boot, t, []);
    assert [] + [boot] == all[..1];
    for i := 0 to |ticks|
      invariant table.Valid() && Sweeps(t, all[..i + 1])
      invariant t.states[0] == old(table.Contents()) && t.states[i + 1] == table.Contents()
    {
      t := SweepNext(table, ticks[i], t, all[..i + 1]);
      assert all[..i + 1] + [ticks[i]] == all[..i + 2];
    }
    assert all[..|ticks| + 1] == all;
  }

  ghost function Extended(t: Queue.Run, e: Event, tick: Tick, ticks: seq<Tick>): (u: Queue.Run)
    requires Sweeps(t, ticks) && IsSweep(e, tick) && Enabled(t.states[|ticks|], e)
    ensures Sweeps(u, ticks + [tick])
    ensures u.states[0] == t.states[0] && u.states[|ticks| + 1] == Apply(t.states[|ticks|], e)
  {
    var u := Queue.Run(t.states + [Apply(t.states[|ticks|], e)], t.events + [e]);
    assert forall i | 0 <= i < |ticks| :: StepAt(t, i) ==> StepAt(u, i);
    assert StepAt(u, |ticks|);
    u
  }

  // If the last tick's sweep succeeds with nothing locked, no lease that had lapsed when it looked
  // is left, however many sweeps failed before it.
  lemma LastSweepClears(t: Queue.Run, ticks: seq<Tick>)
    requires Sweeps(t, ticks) && ticks != [] && ticks[|ticks| - 1] == Tick({}, false)
    ensures var e := t.events[|ticks| - 1]; e.Reap? && LapsedIds(t.states[|ticks|].rows, e.seen) == {}
  {
  }
}
