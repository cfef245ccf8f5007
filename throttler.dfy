/**
 * The concurrency limiter of scripts/throttler.js: a growing list of
 * synchronizer lanes, each task routed to the first least-loaded lane, a new
 * lane created on demand while the cap allows.
 */
module Throttlers {
  import opened Wrappers
  import opened Synchronizers

  /** `Throttler.DEFAULT_MAX_CONCURRENT_PROCESSES`. */
  const DEFAULT_MAX_CONCURRENT_PROCESSES: int := 20

  /** Sum of a list of counts, added left to right as `numProcesses` does. */
  function Sum(cs: seq<int>): int
  {
    if cs == [] then 0 else Sum(cs[..|cs| - 1]) + cs[|cs| - 1]
  }

  lemma SumSnoc(cs: seq<int>, x: int)
    ensures Sum(cs + [x]) == Sum(cs) + x
  {
    assert (cs + [x])[..|cs|] == cs;
  }

  /** For non-negative counts, the total is zero exactly when every count is zero. */
  lemma {:induction false} SumZero(cs: seq<int>)
    requires forall i :: 0 <= i < |cs| ==> cs[i] >= 0
    ensures Sum(cs) >= 0
    ensures Sum(cs) == 0 <==> forall i :: 0 <= i < |cs| ==> cs[i] == 0
  {
    if cs != [] {
      var last := |cs| - 1;
      SumZero(cs[..last]);
      assert forall i :: 0 <= i < last ==> cs[..last][i] == cs[i];
    }
  }

  /** The lanes' `numProcesses()`, lane by lane. */
  function Counts<T>(ls: seq<Synchronizer<T>>): (cs: seq<int>)
    reads ls
    ensures |cs| == |ls|
    ensures forall i {:trigger cs[i]} :: 0 <= i < |ls| ==> cs[i] == ls[i].numProcesses
  {
    if ls == [] then [] else Counts(ls[..|ls| - 1]) + [ls[|ls| - 1].numProcesses]
  }

  /** The lanes' states, lane by lane. */
  ghost function States<T>(ls: seq<Synchronizer<T>>): (ws: seq<State<T>>)
    reads ls
    ensures |ws| == |ls|
  {
    if ls == [] then [] else States(ls[..|ls| - 1]) + [ls[|ls| - 1].Snapshot()]
  }

  /** `States` lists each lane's state at the lane's position. */
  lemma {:induction false} StatesEach<T>(ls: seq<Synchronizer<T>>)
    ensures forall i {:trigger States(ls)[i]} :: 0 <= i < |ls| ==> States(ls)[i] == ls[i].Snapshot()
  {
    if ls != [] {
      var last := |ls| - 1;
      StatesEach(ls[..last]);
      forall i | 0 <= i < last
        ensures States(ls)[i] == ls[i].Snapshot()
      {
        assert ls[..last][i] == ls[i];
      }
    }
  }

  /** The counts recorded in the lanes' states are the lanes' counts. */
  lemma LoadsOfStates<T>(ls: seq<Synchronizer<T>>)
    ensures Loads(States(ls)) == Counts(ls)
  {
    StatesEach(ls);
    assert forall i :: 0 <= i < |ls| ==> Loads(States(ls))[i] == Counts(ls)[i];
  }

  /** Lanes whose states are, position by position, `ws` have `States` equal to `ws`. */
  lemma StatesOf<T>(ls: seq<Synchronizer<T>>, ws: seq<State<T>>)
    requires |ws| == |ls| && forall i :: 0 <= i < |ls| ==> ws[i] == ls[i].Snapshot()
    ensures States(ls) == ws
  {
    StatesEach(ls);
  }

  /** The counts recorded in a list of lane states. */
  function Loads<T>(ws: seq<State<T>>): (cs: seq<int>)
    ensures |cs| == |ws|
    ensures forall i {:trigger cs[i]} :: 0 <= i < |ws| ==> cs[i] == ws[i].numProcesses
  {
    if ws == [] then [] else Loads(ws[..|ws| - 1]) + [ws[|ws| - 1].numProcesses]
  }

  /** `k` is the first index holding the minimum of `cs`. */
  ghost predicate IsFirstMin(cs: seq<int>, k: int)
  {
    && 0 <= k < |cs|
    && (forall j :: 0 <= j < |cs| ==> cs[k] <= cs[j])
    && (forall j :: 0 <= j < k ==> cs[j] > cs[k])
  }

  /** The first minimal lane is busy exactly when every lane is busy. */
  lemma FirstMinBusy(cs: seq<int>, k: int)
    requires IsFirstMin(cs, k)
    ensures cs[k] > 0 <==> forall j :: 0 <= j < |cs| ==> cs[j] > 0
  {
  }

  /**
   * The routing rule of `run` over the lane counts `cs` and the cap: a new
   * lane (index |cs|) is created exactly when no lane is idle and the cap
   * allows one more; otherwise the task goes to the first least-loaded lane.
   */
  ghost predicate Routed(cs: seq<int>, max: int, created: bool, lane: nat)
  {
    && created == ((forall j :: 0 <= j < |cs| ==> cs[j] > 0) && |cs| < max)
    && (created ==> lane == |cs|)
    && (!created ==> IsFirstMin(cs, lane))
  }

  /** With every lane consistent, the counts add up to zero exactly when no lane has outstanding tasks. */
  lemma IdleLanes<T>(ls: seq<Synchronizer<T>>)
    requires forall i :: 0 <= i < |ls| ==> ls[i].Valid()
    ensures Sum(Counts(ls)) >= 0
    ensures Sum(Counts(ls)) == 0 <==> forall i :: 0 <= i < |ls| ==> ls[i].Outstanding() == []
  {
    var cs := Counts(ls);
    SumZero(cs);
    forall i | 0 <= i < |ls|
      ensures cs[i] == 0 <==> ls[i].Outstanding() == []
    {
      assert cs[i] == |ls[i].Outstanding()|;
    }
  }

  /** The effect of a synchronizer's `run(t)` on its state `w`, giving `n`. */
  ghost predicate Extended<T>(w: State<T>, n: State<T>, t: T)
  {
    && n.numProcesses == w.numProcesses + 1
    && n.running && n.headStarted == w.headStarted
    && n.log == w.log && n.settlements == w.settlements
    && (w.running ==> n.chain == w.chain && n.promiseFactories == w.promiseFactories + [t])
    && (!w.running ==> n.chain == [t] && n.promiseFactories == [])
  }

  /**
   * Where a throttler's `run(t)` put `t`: `was` are the lanes' states before
   * the call, `now` after it, and `max` the cap.  A created lane is
   * appended, stays within the cap and holds just `t`; an existing lane
   * receives `t` as its own `run` would; every other lane keeps its state.
   */
  ghost predicate Placed<T>(max: int, was: seq<State<T>>, now: seq<State<T>>, t: T, lane: nat)
  {
    && lane < |now| == |was| + (if lane == |was| then 1 else 0)
    && (lane == |was| ==> |now| <= max && now == was + [State([], [t], 1, true, false, [], [])])
    && (lane < |was| ==> Extended(was[lane], now[lane], t) && now == was[lane := now[lane]])
  }

  /**
   * What a throttler's `run(t)` did to its lanes: the lane follows `Routed`
   * over the counts before the call, and `t` was placed there.
   */
  ghost predicate Submitted<T>(max: int, was: seq<State<T>>, now: seq<State<T>>, t: T, lane: nat)
  {
    && Routed(Loads(was), max, |now| > |was|, lane)
    && Placed(max, was, now, t, lane)
  }

  class Throttler<T> {
    /** `_maxConcurrentProcesses`: the lane cap. */
    var maxConcurrentProcesses: int
    /** `_synchronizers`: the lanes, in creation order. */
    var synchronizers: seq<Synchronizer<T>>
    /** Events re-emitted from the lanes, in order. */
    var log: seq<Event>

    /** The lanes are distinct objects, each a valid synchronizer. */
    ghost predicate Valid()
      reads this`synchronizers, synchronizers`numProcesses, synchronizers`chain, synchronizers`promiseFactories,
        synchronizers`running, synchronizers`headStarted
    {
      && (forall i, j :: 0 <= i < j < |synchronizers| ==> synchronizers[i] != synchronizers[j])
      && (forall i :: 0 <= i < |synchronizers| ==> synchronizers[i].Valid())
    }

    /** A falsy argument (absent or 0) selects the default cap. */
    constructor (max: Option<int>)
      ensures Valid()
      ensures synchronizers == [] && log == []
      ensures maxConcurrentProcesses ==
        if max.None? || max.value == 0 then DEFAULT_MAX_CONCURRENT_PROCESSES else max.value
    {
      maxConcurrentProcesses := if max.Some? && max.value != 0 then max.value
        else DEFAULT_MAX_CONCURRENT_PROCESSES;
      synchronizers := [];
      log := [];
    }

    /** `setMaxConcurrentProcesses`: existing lanes stay, whatever the new cap. */
    method SetMaxConcurrentProcesses(max: int)
      requires Valid()
      modifies this`maxConcurrentProcesses
      ensures Valid() && maxConcurrentProcesses == max
    {
      maxConcurrentProcesses := max;
    }

    /** `getMaxConcurrentProcesses`. */
    method GetMaxConcurrentProcesses() returns (max: int)
      ensures max == maxConcurrentProcesses
    {
      max := maxConcurrentProcesses;
    }

    /**
     * The scan at the start of `run`: the first lane whose count is minimal
     * (strict `<` keeps the earlier of two equal lanes), or none when there
     * are no lanes.
     */
    method LeastBusyLane() returns (min: Option<nat>)
      ensures min.None? <==> synchronizers == []
      ensures min.Some? ==> IsFirstMin(Counts(synchronizers), min.value)
    {
      min := None;
      var i := 0;
      while i < |synchronizers|
        invariant 0 <= i <= |synchronizers|
        invariant min.None? <==> i == 0
        invariant min.Some? ==> IsFirstMin(Counts(synchronizers)[..i], min.value)
      {
        if min.None? || synchronizers[i].numProcesses < synchronizers[min.value].numProcesses {
          min := Some(i);
        }
        i := i + 1;
      }
      assert Counts(synchronizers)[..i] == Counts(synchronizers);
    }

    /**
     * `run`: pick the first least-loaded lane; create and append a new lane
     * instead when no lane exists or the least-loaded one is busy, provided
     * the lane count is below the cap; then submit the task to that lane.
     * With no lane and a cap below one the source dereferences null, hence
     * the second precondition.
     */
    method Run(t: T) returns (lane: nat)
      requires Valid()
      requires |synchronizers| > 0 || maxConcurrentProcesses > 0
      modifies this`synchronizers, synchronizers`numProcesses, synchronizers`promiseFactories, synchronizers`running, synchronizers`chain
      ensures Valid()
      ensures maxConcurrentProcesses == old(maxConcurrentProcesses) && log == old(log)
      ensures Submitted(maxConcurrentProcesses, old(States(synchronizers)), States(synchronizers), t, lane)
      ensures |old(synchronizers)| <= |synchronizers| && synchronizers[..|old(synchronizers)|] == old(synchronizers)
      ensures forall l :: l in synchronizers && l !in old(synchronizers) ==> fresh(l)
    {
      var min := LeastBusyLane();
      lane := Dispatch(min, t);
    }

    /**
     * The rest of `run`, given the first least-loaded lane `min` (`None`
     * when there is no lane): create a lane when `min` is busy or missing
     * and the cap allows, and otherwise submit to `min`.
     */
    method Dispatch(min: Option<nat>, t: T) returns (lane: nat)
      requires Valid()
      requires |synchronizers| > 0 || maxConcurrentProcesses > 0
      requires min.None? <==> synchronizers == []
      requires min.Some? ==> IsFirstMin(Counts(synchronizers), min.value)
      modifies this`synchronizers, synchronizers`numProcesses, synchronizers`promiseFactories, synchronizers`running, synchronizers`chain
      ensures Valid()
      ensures maxConcurrentProcesses == old(maxConcurrentProcesses) && log == old(log)
      ensures Submitted(maxConcurrentProcesses, old(States(synchronizers)), States(synchronizers), t, lane)
      ensures |old(synchronizers)| <= |synchronizers| && synchronizers[..|old(synchronizers)|] == old(synchronizers)
      ensures forall l :: l in synchronizers && l !in old(synchronizers) ==> fresh(l)
    {
      ghost var cs := Counts(synchronizers);
      LoadsOfStates(synchronizers);
      if min.Some? {
        FirstMinBusy(cs, min.value);
      }
      if (min.None? || synchronizers[min.value].numProcesses > 0)
        && |synchronizers| < maxConcurrentProcesses
      {
        lane := RunOnNewLane(t);
        assert synchronizers[..lane] == old(synchronizers);
      } else {
        lane := min.value;
        RunOnLane(lane, t);
      }
    }

    /** Create a lane, append it to `_synchronizers` and submit `t` to it. */
    method RunOnNewLane(t: T) returns (lane: nat)
      requires Valid() && |synchronizers| < maxConcurrentProcesses
      modifies this`synchronizers
      ensures Valid() && maxConcurrentProcesses == old(maxConcurrentProcesses) && log == old(log)
      ensures lane == |old(synchronizers)| && |synchronizers| == lane + 1 && fresh(synchronizers[lane])
      ensures synchronizers == old(synchronizers) + [synchronizers[lane]]
      ensures Placed(maxConcurrentProcesses, old(States(synchronizers)), States(synchronizers), t, lane)
    {
      ghost var was := States(synchronizers);
      var s := new Synchronizer<T>();
      synchronizers := synchronizers + [s];
      lane := |synchronizers| - 1;
      s.Run(t);
      assert synchronizers[..lane] == old(synchronizers);
      assert States(synchronizers) == was + [s.Snapshot()];
    }

    /** Submit `t` to lane `lane`. */
    method RunOnLane(lane: nat, t: T)
      requires Valid() && lane < |synchronizers|
      modifies synchronizers`numProcesses, synchronizers`promiseFactories, synchronizers`running, synchronizers`chain
      ensures Valid()
      ensures synchronizers == old(synchronizers)
      ensures maxConcurrentProcesses == old(maxConcurrentProcesses) && log == old(log)
      ensures Placed(maxConcurrentProcesses, old(States(synchronizers)), States(synchronizers), t, lane)
    {
      ghost var was := States(synchronizers);
      StatesEach(synchronizers);
      synchronizers[lane].Run(t);
      StatesOf(synchronizers, was[lane := synchronizers[lane].Snapshot()]);
    }

    /** The listener of `_listenToSynchronizer`: re-emit a lane's new events unchanged. */
    method Forward(s: Synchronizer<T>, from: nat)
      requires from <= |s.log|
      modifies this`log
      ensures log == old(log) + s.log[from..]
    {
      log := log + s.log[from..];
    }

    /** Lane `i` invokes the head of its chain. */
    method StartOnLane(i: nat) returns (t: T)
      requires Valid() && i < |synchronizers|
      requires synchronizers[i].chain != [] && !synchronizers[i].headStarted
      modifies synchronizers[i]
      ensures Valid()
      ensures synchronizers[i].chain == old(synchronizers[i].chain)
      ensures t == synchronizers[i].chain[0] && synchronizers[i].headStarted
      ensures synchronizers[i].promiseFactories == old(synchronizers[i].promiseFactories)
      ensures synchronizers[i].numProcesses == old(synchronizers[i].numProcesses)
      ensures synchronizers[i].running == old(synchronizers[i].running)
      ensures synchronizers[i].log == old(synchronizers[i].log)
      ensures synchronizers[i].settlements == old(synchronizers[i].settlements)
    {
      t := synchronizers[i].Start();
    }

    /**
     * The started head of lane `i` settles with `o`; every event the lane
     * emits is re-emitted by the throttler under the same name and arguments.
     */
    method SettleOnLane(i: nat, o: Outcome) returns (t: T)
      requires Valid() && i < |synchronizers| && synchronizers[i].headStarted
      modifies this`log, synchronizers[i]
      ensures Valid()
      ensures t == old(synchronizers[i].chain[0])
      ensures synchronizers[i].Outstanding() == old(synchronizers[i].Outstanding()[1..])
      ensures synchronizers[i].chain == old(synchronizers[i].chain[1..])
      ensures synchronizers[i].running == old(synchronizers[i].running)
      ensures !synchronizers[i].headStarted
      ensures synchronizers[i].numProcesses == old(synchronizers[i].numProcesses) - 1
      ensures synchronizers[i].settlements == old(synchronizers[i].settlements) + [Settlement(t, o)]
      ensures synchronizers[i].log == old(synchronizers[i].log) + TaskEvents(o)
        + (if synchronizers[i].numProcesses == 0 then [Event.AllDone] else [])
      ensures log == old(log) + synchronizers[i].log[|old(synchronizers[i].log)|..]
      ensures log == old(log) + TaskEvents(o)
        + (if synchronizers[i].numProcesses == 0 then [Event.AllDone] else [])
    {
      var lane := synchronizers[i];
      var from := |lane.log|;
      t := lane.Settle(o);
      Forward(lane, from);
    }

    /** Lane `i`'s drain pass ends: it stops, or chains the tasks that arrived meanwhile. */
    method EndPassOnLane(i: nat)
      requires Valid() && i < |synchronizers|
      requires synchronizers[i].running && synchronizers[i].chain == []
      modifies synchronizers[i]
      ensures Valid()
      ensures synchronizers[i].Outstanding() == old(synchronizers[i].Outstanding())
      ensures synchronizers[i].running == (old(synchronizers[i].promiseFactories) != [])
      ensures synchronizers[i].chain == old(synchronizers[i].promiseFactories) && synchronizers[i].promiseFactories == []
      ensures !synchronizers[i].headStarted
      ensures synchronizers[i].numProcesses == old(synchronizers[i].numProcesses)
      ensures synchronizers[i].log == old(synchronizers[i].log)
      ensures synchronizers[i].settlements == old(synchronizers[i].settlements)
    {
      synchronizers[i].EndPass();
    }

    /** `numProcesses`: the sum of the lanes' counts. */
    method NumProcesses() returns (n: int)
      requires Valid()
      ensures n == Sum(Counts(synchronizers))
      ensures n >= 0
      ensures n == 0 <==> forall i :: 0 <= i < |synchronizers| ==> synchronizers[i].Outstanding() == []
    {
      ghost var cs := Counts(synchronizers);
      n := 0;
      var i := 0;
      while i < |synchronizers|
        invariant 0 <= i <= |synchronizers|
        invariant n == Sum(cs[..i])
      {
        assert cs[..i + 1] == cs[..i] + [cs[i]];
        SumSnoc(cs[..i], cs[i]);
        n := n + synchronizers[i].numProcesses;
        i := i + 1;
      }
      assert cs[..i] == cs;
      IdleLanes(synchronizers);
    }

    /**
     * `allDone`: the lanes whose `allDone()` has to wait for their next
     * `all-done` event; the returned promise resolves at once when there are
     * none, and otherwise once each of them has emitted it.
     */
    method AllDone() returns (awaited: seq<nat>)
      requires Valid()
      ensures forall k :: k in awaited <==>
        0 <= k < |synchronizers| && synchronizers[k].Outstanding() != []
      ensures forall a, b :: 0 <= a < b < |awaited| ==> awaited[a] < awaited[b]
    {
      awaited := [];
      var i := 0;
      while i < |synchronizers|
        invariant 0 <= i <= |synchronizers|
        invariant forall k :: k in awaited <==> 0 <= k < i && synchronizers[k].Outstanding() != []
        invariant forall a, b :: 0 <= a < b < |awaited| ==> awaited[a] < awaited[b]
        invariant forall a :: 0 <= a < |awaited| ==> awaited[a] < i
      {
        var immediate := synchronizers[i].AllDone();
        if !immediate {
          awaited := awaited + [i];
        }
        i := i + 1;
      }
    }
  }
}
