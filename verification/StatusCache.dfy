/**
 The status surface's backlog cache, shared by concurrent probes. A probe looks the cache up under
 the mutex; on a miss it measures outside the mutex and then stores under it.
 */
module StatusCache {
  import opened Jobs
  import opened Backlog

  // A backlog report with the instants its query began and returned.
  datatype Measurement = Measurement(depth: Depth, began: Time, ended: Time)

  datatype Entry = Entry(m: Measurement, storedAt: Time)

  function Lookup(cached: Option<Entry>, ttl: Time, at: Time): Option<Measurement> {
    if cached.Some? && at - cached.value.storedAt < ttl then Some(cached.value.m) else None
  }

  // The handler's own fields, and its two critical sections.
  class GrpcStatus {
    const cacheTTL: Time
    var cached: Option<Measurement>
    var cachedAt: Time

    ghost function Content(): Option<Entry>
      reads this
    {
      if cached.None? then None else Some(Entry(cached.value, cachedAt))
    }

    constructor (ttl: Time)
      ensures cacheTTL == ttl && Content() == None
    {
      cacheTTL, cached, cachedAt := ttl, None, 0;
    }

    method Fresh(at: Time) returns (hit: Option<Measurement>)
      ensures hit == Lookup(Content(), cacheTTL, at)
    {
      hit := if cached.Some? && at - cachedAt < cacheTTL then cached else None;
    }

    method Store(m: Measurement, at: Time)
      modifies this
      ensures Content() == Some(Entry(m, at))
    {
      cached, cachedAt := Some(m), at;
    }

    // One probe by itself; `measured` is None when the query fails.
    method ReportQueueDepth(at: Time, measured: Option<Measurement>, storedAt: Time) returns (report: Option<Depth>)
      modifies this
      ensures match Lookup(old(Content()), cacheTTL, at)
              case Some(m) => report == Some(m.depth) && Content() == old(Content())
              case None => match measured
                           case None => report == None && Content() == old(Content())
                           case Some(m) => report == Some(m.depth) && Content() == Some(Entry(m, storedAt))
    {
      var hit := Fresh(at);
      if hit.Some? { return Some(hit.value.depth); }
      if measured.None? { return None; }
      Store(measured.value, storedAt);
      report := Some(measured.value.depth);
    }
  }

  /* Any interleaving of probes. */

  datatype Phase = Measuring(began: Time) | Measured(m: Measurement)

  // A report handed out at `at`, and the instant its measurement was stored.
  datatype Served = Served(m: Measurement, storedAt: Time, at: Time)

  datatype State = State(cached: Option<Entry>, probes: map<nat, Phase>, served: seq<Served>, now: Time)

  datatype Action =
    | Look(probe: nat, at: Time)
    | Return(probe: nat, depth: Depth, at: Time)
    | Fail(probe: nat, at: Time)
    | Keep(probe: nat, at: Time)

  predicate Can(s: State, a: Action) {
    && s.now <= a.at
    && match a
       case Look(p, _) => p !in s.probes
       case Return(p, _, _) => p in s.probes && s.probes[p].Measuring?
       case Fail(p, _) => p in s.probes && s.probes[p].Measuring?
       case Keep(p, _) => p in s.probes && s.probes[p].Measured?
  }

  function Do(s: State, ttl: Time, a: Action): State
    requires Can(s, a)
  {
    match a
    case Look(p, at) =>
      (match Lookup(s.cached, ttl, at)
       case Some(m) => s.(served := s.served + [Served(m, s.cached.value.storedAt, at)], now := at)
       case None => s.(probes := s.probes[p := Measuring(at)], now := at))
    case Return(p, depth, at) =>
      s.(probes := s.probes[p := Measured(Measurement(depth, s.probes[p].began, at))], now := at)
    case Fail(p, at) => s.(probes := s.probes - {p}, now := at)
    case Keep(p, at) =>
      s.(cached := Some(Entry(s.probes[p].m, at)), probes := s.probes - {p},
         served := s.served + [Served(s.probes[p].m, at, at)], now := at)
  }

  // A probe ends when its query fails or its measurement is stored; a failure tells nobody anything;
  // other probes go on.
  lemma ProbesAreApart(s: State, ttl: Time, a: Action, q: nat)
    requires Can(s, a)
    ensures var s' := Do(s, ttl, a);
      && (q != a.probe ==> (q in s'.probes <==> q in s.probes) && (q in s.probes ==> s'.probes[q] == s.probes[q]))
      && (a.Fail? || a.Keep? ==> Can(s', Look(a.probe, s'.now)))
      && (a.Fail? || a.Return? ==> s'.cached == s.cached && s'.served == s.served)
      && (a.Keep? ==> s'.cached == Some(Entry(s.probes[a.probe].m, a.at)))
  {
  }

  ghost predicate DoneAt(ss: seq<State>, acts: seq<Action>, ttl: Time, i: nat)
    requires i < |acts| < |ss|
  {
    Can(ss[i], acts[i]) && ss[i + 1] == Do(ss[i], ttl, acts[i])
  }

  ghost predicate IsHistory(ss: seq<State>, acts: seq<Action>, ttl: Time) {
    && |ss| == |acts| + 1
    && ss[0].cached == None && ss[0].probes == map[] && ss[0].served == []
    && forall i | 0 <= i < |acts| :: DoneAt(ss, acts, ttl, i)
  }

  predicate Honest(m: Measurement, now: Time) {
    m.began <= m.ended <= now
  }

  // The bound: the report was stored less than one TTL ago (or just now), after its own measurement.
  predicate WithinTTL(v: Served, ttl: Time) {
    && Honest(v.m, v.storedAt) && v.storedAt <= v.at
    && (v.storedAt < v.at ==> v.at - v.storedAt < ttl)
  }

  ghost predicate CacheInv(s: State, ttl: Time) {
    && (s.cached.Some? ==> Honest(s.cached.value.m, s.cached.value.storedAt) && s.cached.value.storedAt <= s.now)
    && (forall p | p in s.probes ::
          if s.probes[p].Measuring? then s.probes[p].began <= s.now else Honest(s.probes[p].m, s.now))
    && (forall i | 0 <= i < |s.served| :: WithinTTL(s.served[i], ttl))
  }

  lemma ActionKeepsCacheInv(s: State, ttl: Time, a: Action)
    requires CacheInv(s, ttl) && Can(s, a)
    ensures CacheInv(Do(s, ttl, a), ttl)
  {
  }

  lemma {:induction false} CacheInvHolds(ss: seq<State>, acts: seq<Action>, ttl: Time, n: nat)
    requires IsHistory(ss, acts, ttl) && n < |ss|
    ensures CacheInv(ss[n], ttl)
  {
    if n > 0 {
      CacheInvHolds(ss, acts, ttl, n - 1);
      assert DoneAt(ss, acts, ttl, n - 1);
      ActionKeepsCacheInv(ss[n - 1], ttl, acts[n - 1]);
    }
  }

  // Every report ever served, however probes interleave and overwrite each other, was stored within
  // the last TTL. Its data is older than that by its own probe's time from query to store.
  lemma ReportsAreFresh(ss: seq<State>, acts: seq<Action>, ttl: Time, n: nat, i: nat)
    requires IsHistory(ss, acts, ttl) && n < |ss| && i < |ss[n].served| && 0 < ttl
    ensures var v := ss[n].served[i]; v.m.began <= v.m.ended <= v.storedAt <= v.at < v.storedAt + ttl
  {
    CacheInvHolds(ss, acts, ttl, n);
  }

  // ... and no bound on the age of the data would be better: one measured over `latency` ticks is
  // handed out when it is all of the TTL and the latency old, less the last tick.
  function AgedHistory(ttl: Time, latency: nat): (seq<State>, seq<Action>) {
    var d, late := Depth(0, None), latency + ttl - 1;
    var m := Measurement(d, 0, latency);
    var e := Some(Entry(m, latency));
    ([State(None, map[], [], 0),
      State(None, map[0 := Measuring(0)], [], 0),
      State(None, map[0 := Measured(m)], [], latency),
      State(e, map[], [Served(m, latency, latency)], latency),
      State(e, map[], [Served(m, latency, latency), Served(m, latency, late)], late)],
     [Look(0, 0), Return(0, d, latency), Keep(0, latency), Look(1, late)])
  }

  lemma FreshnessIsTight(ttl: Time, latency: nat)
    requires 0 < ttl
    ensures var h := AgedHistory(ttl, latency);
      && IsHistory(h.0, h.1, ttl) && |h.0[4].served| == 2
      && var v := h.0[4].served[1]; v.storedAt - v.m.began == latency && v.at - v.m.began == ttl + latency - 1
  {
  }

  // Every store of the history comes within `latency` of its measurement's start.
  ghost predicate StoresWithin(ss: seq<State>, acts: seq<Action>, latency: int) {
    |acts| < |ss| && forall k | 0 <= k < |acts| && acts[k].Keep? && Can(ss[k], acts[k]) ::
      acts[k].at - ss[k].probes[acts[k].probe].m.began <= latency
  }

  // No report is older than `bound` when it is handed out.
  ghost predicate AllYounger(served: seq<Served>, bound: int) {
    forall i | 0 <= i < |served| :: served[i].at - served[i].m.began < bound
  }

  lemma {:induction false} LatencyCarries(ss: seq<State>, acts: seq<Action>, ttl: Time, latency: int, n: nat)
    requires IsHistory(ss, acts, ttl) && StoresWithin(ss, acts, latency) && n < |ss|
    ensures ss[n].cached.Some? ==> ss[n].cached.value.storedAt - ss[n].cached.value.m.began <= latency
    ensures forall i | 0 <= i < |ss[n].served| :: ss[n].served[i].storedAt - ss[n].served[i].m.began <= latency
  {
    if n > 0 {
      LatencyCarries(ss, acts, ttl, latency, n - 1);
      assert DoneAt(ss, acts, ttl, n - 1);
    }
  }

  lemma ReportsAreYounger(ss: seq<State>, acts: seq<Action>, ttl: Time, latency: int)
    requires 0 < ttl && IsHistory(ss, acts, ttl) && StoresWithin(ss, acts, latency)
    ensures AllYounger(ss[|acts|].served, ttl + latency)
  {
    LatencyCarries(ss, acts, ttl, latency, |acts|);
    forall i | 0 <= i < |ss[|acts|].served|
      ensures ss[|acts|].served[i].at - ss[|acts|].served[i].m.began < ttl + latency
    {
      ReportsAreFresh(ss, acts, ttl, |acts|, i);
    }
  }

  // What bounds staleness: with measurements stored within `latency` of their start, the TTL and the
  // latency together, and nothing less.
  lemma StalenessBound(ttl: Time, latency: nat, bound: int)
    requires 0 < ttl
    ensures (forall ss: seq<State>, acts: seq<Action> |
               IsHistory(ss, acts, ttl) && StoresWithin(ss, acts, latency) ::
               AllYounger(ss[|acts|].served, bound))
       <==> ttl + latency <= bound
  {
    if ttl + latency <= bound {
      forall ss: seq<State>, acts: seq<Action> | IsHistory(ss, acts, ttl) && StoresWithin(ss, acts, latency)
        ensures AllYounger(ss[|acts|].served, bound)
      {
        ReportsAreYounger(ss, acts, ttl, latency);
      }
    } else {
      FreshnessIsTight(ttl, latency);
      var (ss, acts) := AgedHistory(ttl, latency);
      assert StoresWithin(ss, acts, latency);
      assert !AllYounger(ss[|acts|].served, bound) by {
        var v := ss[4].served[1];
        assert v.at - v.m.began == ttl + latency - 1;
      }
    }
  }

  // So the TTL alone bounds it if and only if every measurement is instantaneous.
  lemma TTLBoundsStalenessIff(ttl: Time, latency: nat)
    requires 0 < ttl
    ensures (forall ss: seq<State>, acts: seq<Action> |
               IsHistory(ss, acts, ttl) && StoresWithin(ss, acts, latency) ::
               AllYounger(ss[|acts|].served, ttl))
       <==> latency == 0
  {
    StalenessBound(ttl, latency, ttl);
  }

  lemma {:induction false} KeptUntilReplaced(ss: seq<State>, acts: seq<Action>, ttl: Time, k: nat, n: nat)
    requires IsHistory(ss, acts, ttl) && k < n <= |acts| && acts[k].Keep?
    requires forall j | k < j < n :: !acts[j].Keep?
    ensures Can(ss[k], acts[k]) && ss[n].cached == Some(Entry(ss[k].probes[acts[k].probe].m, acts[k].at))
    decreases n
  {
    assert DoneAt(ss, acts, ttl, n - 1);
    if k + 1 < n { KeptUntilReplaced(ss, acts, ttl, k, n - 1); }
  }

  // A store answers every probe for one TTL, unless replaced, and no probe after it: until then the
  // table is not asked again.
  lemma StoreLastsTheTTL(ss: seq<State>, acts: seq<Action>, ttl: Time, k: nat, n: nat)
    requires IsHistory(ss, acts, ttl) && k < n < |acts| && acts[k].Keep? && acts[n].Look?
    requires forall j | k < j < n :: !acts[j].Keep?
    ensures Can(ss[k], acts[k]) && var m := ss[k].probes[acts[k].probe].m;
      if acts[n].at < acts[k].at + ttl
      then ss[n + 1].probes == ss[n].probes && ss[n + 1].served == ss[n].served + [Served(m, acts[k].at, acts[n].at)]
      else acts[n].probe in ss[n + 1].probes && ss[n + 1].served == ss[n].served
  {
    KeptUntilReplaced(ss, acts, ttl, k, n);
    assert DoneAt(ss, acts, ttl, n);
  }

  /* Whether reports go back in time. */

  // The store is of a measurement begun before the one it replaces.
  predicate Regresses(s: State, a: Action) {
    && a.Keep? && a.probe in s.probes && s.probes[a.probe].Measured? && s.cached.Some?
    && s.probes[a.probe].m.began < s.cached.value.m.began
  }

  ghost predicate Forward(served: seq<Served>) {
    forall i, j | 0 <= i < j < |served| :: served[i].m.began <= served[j].m.began
  }

  // What was reported last is what the cache holds.
  ghost predicate LastIsCached(s: State) {
    if s.served == [] then s.cached == None
    else s.cached.Some? && s.served[|s.served| - 1].m == s.cached.value.m
  }

  lemma ForwardExtends(served: seq<Served>, v: Served)
    ensures Forward(served + [v]) <==> Forward(served) && (served == [] || served[|served| - 1].m.began <= v.m.began)
  {
    var longer := served + [v];
    assert forall i | 0 <= i < |served| :: longer[i] == served[i];
    if Forward(longer) && served != [] { assert longer[|served| - 1].m.began <= longer[|served|].m.began; }
  }

  lemma ActionKeepsLast(s: State, ttl: Time, a: Action)
    requires LastIsCached(s) && Can(s, a)
    ensures LastIsCached(Do(s, ttl, a))
    ensures Forward(Do(s, ttl, a).served) <==> Forward(s.served) && !Regresses(s, a)
  {
    var served' := Do(s, ttl, a).served;
    if served' != s.served { ForwardExtends(s.served, served'[|s.served|]); }
  }

  lemma {:induction false} ForwardUpTo(ss: seq<State>, acts: seq<Action>, ttl: Time, n: nat)
    requires IsHistory(ss, acts, ttl) && n < |ss|
    ensures LastIsCached(ss[n])
    ensures Forward(ss[n].served) <==> forall k | 0 <= k < n :: !Regresses(ss[k], acts[k])
  {
    if n > 0 {
      ForwardUpTo(ss, acts, ttl, n - 1);
      assert DoneAt(ss, acts, ttl, n - 1);
      ActionKeepsLast(ss[n - 1], ttl, acts[n - 1]);
    }
  }

  // Reports never go back, over a whole history, if and only if no store of it replaces a
  // measurement by one begun earlier: a comparison the second critical section could make.
  lemma ReportsGoForwardIff(ss: seq<State>, acts: seq<Action>, ttl: Time)
    requires IsHistory(ss, acts, ttl)
    ensures Forward(ss[|acts|].served) <==> forall k | 0 <= k < |acts| :: !Regresses(ss[k], acts[k])
  {
    ForwardUpTo(ss, acts, ttl, |acts|);
  }

  /* Where a report comes from. */

  // Some probe's query, begun and ended when the measurement says, returned its depth.
  ghost predicate WasMeasured(acts: seq<Action>, n: nat, m: Measurement) {
    n <= |acts| && exists j, k | 0 <= j < k < n ::
      acts[j] == Look(acts[k].probe, m.began) && acts[k] == Return(acts[k].probe, m.depth, m.ended)
  }

  ghost predicate BegunBy(acts: seq<Action>, n: nat, probe: nat, began: Time) {
    n <= |acts| && exists j | 0 <= j < n :: acts[j] == Look(probe, began)
  }

  ghost predicate PhaseHasSource(acts: seq<Action>, n: nat, probe: nat, phase: Phase) {
    if phase.Measuring? then BegunBy(acts, n, probe, phase.began) else WasMeasured(acts, n, phase.m)
  }

  // Whatever a probe carries, the cache holds or a caller was told, some query returned.
  lemma {:induction false} EverythingWasMeasured(ss: seq<State>, acts: seq<Action>, ttl: Time, n: nat)
    requires IsHistory(ss, acts, ttl) && n < |ss|
    ensures forall p | p in ss[n].probes :: PhaseHasSource(acts, n, p, ss[n].probes[p])
    ensures ss[n].cached.Some? ==> WasMeasured(acts, n, ss[n].cached.value.m)
    ensures forall i | 0 <= i < |ss[n].served| :: WasMeasured(acts, n, ss[n].served[i].m)
  {
    if n > 0 {
      EverythingWasMeasured(ss, acts, ttl, n - 1);
      assert DoneAt(ss, acts, ttl, n - 1);
      MeasuredStays(acts, n - 1);
      if acts[n - 1].Return? {
        var p := acts[n - 1].probe;
        assert PhaseHasSource(acts, n - 1, p, ss[n - 1].probes[p]);
        var j :| 0 <= j < n - 1 && acts[j] == Look(p, ss[n - 1].probes[p].began);
        assert WasMeasured(acts, n, Measurement(acts[n - 1].depth, ss[n - 1].probes[p].began, acts[n - 1].at));
      }
      if acts[n - 1].Look? { assert BegunBy(acts, n, acts[n - 1].probe, acts[n - 1].at); }
    }
  }

  lemma MeasuredStays(acts: seq<Action>, n: nat)
    requires n < |acts|
    ensures forall m | WasMeasured(acts, n, m) :: WasMeasured(acts, n + 1, m)
    ensures forall p, began | BegunBy(acts, n, p, began) :: BegunBy(acts, n + 1, p, began)
    ensures forall p, phase | PhaseHasSource(acts, n, p, phase) :: PhaseHasSource(acts, n + 1, p, phase)
  {
  }

  // So a report never says anything but what a query said.
  lemma ReportsWereMeasured(ss: seq<State>, acts: seq<Action>, ttl: Time, n: nat, i: nat)
    requires IsHistory(ss, acts, ttl) && n < |ss| && i < |ss[n].served|
    ensures var m := ss[n].served[i].m;
      exists j, k | 0 <= j < k < n ::
        acts[j] == Look(acts[k].probe, m.began) && acts[k] == Return(acts[k].probe, m.depth, m.ended)
  {
    EverythingWasMeasured(ss, acts, ttl, n);
    assert WasMeasured(acts, n, ss[n].served[i].m);
  }

  // The TTL alone bounds nothing: a slow probe overwrites a newer value, and a later report carries
  // the older measurement, begun more than a TTL before.
  function SlowHistory(): (seq<State>, seq<Action>) {
    var d := Depth(0, None);
    var acts := [Look(0, 0), Look(1, 5), Return(1, d, 6), Keep(1, 6), Return(0, d, 7), Keep(0, 7), Look(2, 8)];
    var fast, slow := Measurement(d, 5, 6), Measurement(d, 0, 7);
    var a, b := Served(fast, 6, 6), Served(slow, 7, 7);
    ([State(None, map[], [], 0),
      State(None, map[0 := Measuring(0)], [], 0),
      State(None, map[0 := Measuring(0), 1 := Measuring(5)], [], 5),
      State(None, map[0 := Measuring(0), 1 := Measured(fast)], [], 6),
      State(Some(Entry(fast, 6)), map[0 := Measuring(0)], [a], 6),
      State(Some(Entry(fast, 6)), map[0 := Measured(slow)], [a], 7),
      State(Some(Entry(slow, 7)), map[], [a, b], 7),
      State(Some(Entry(slow, 7)), map[], [a, b, Served(slow, 7, 8)], 8)], acts)
  }

  lemma ReportsCanGoBack()
    ensures var h := SlowHistory();
      && IsHistory(h.0, h.1, 2) && |h.0[7].served| == 3
      && h.0[7].served[2].m.began < h.0[7].served[0].m.began && Regresses(h.0[5], h.1[5])
      && 2 < h.0[7].served[2].at - h.0[7].served[2].m.began
  {
    var (ss, acts) := SlowHistory();
    assert map[0 := Measuring(0), 1 := Measured(Measurement(Depth(0, None), 5, 6))] - {1} == map[0 := Measuring(0)];
    assert map[0 := Measured(Measurement(Depth(0, None), 0, 7))] - {0} == map[];
    forall i | 0 <= i < |acts| ensures DoneAt(ss, acts, 2, i) {
      assert i == 0 || i == 1 || i == 2 || i == 3 || i == 4 || i == 5 || i == 6;
    }
  }
}
