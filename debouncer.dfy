/**
 * The per-resource debouncer of scripts/debouncer.js.  Requests pass through an
 * admission queue (a synchronizer); each admitted request becomes a
 * registration in `processes`, is throttled onto a lane, and runs on the
 * synchronizer shared by all registrations of its resource.  A request for a
 * resource that already has a registration waiting to start is dropped.
 */
module Debouncers {
  import opened Wrappers
  import opened Synchronizers
  import opened Throttlers
  import opened Registrations

  /** `Debouncer.CONCURRENCY`: the cap of the debouncer's throttler. */
  const CONCURRENCY: int := 20

  /** A call of `run` waiting in the admission queue. */
  datatype Request<K> = Request(factory: TaskId, resource: K)

  /**
   * Three requests for one resource: R1 has started when R2 is admitted, and
   * R2 has not started when R3 is admitted.  `_schedule` appends R2 behind R1
   * and drops R3, so the factories of R1 and R2 run and that of R3 does not.
   */
  lemma ThirdRequestDropped<K>(r1: Registration<K>, r2: Registration<K>, r: K)
    requires r1.resource == r && r1.running
    requires r2.resource == r && !r2.running
    ensures !Waiting([r1], r)
    ensures Waiting([r1, r2], r)
  {
    var none: seq<Registration<K>> := [];
    assert none + [r1] == [r1];
    WaitingAppend(none, r1, r);
    assert [r1] + [r2] == [r1, r2];
    WaitingAppend([r1], r2, r);
  }

  /** The admission queue is not a lane: the two kinds of synchronizer carry different kinds of task. */
  lemma NotALane<K>(lanes: seq<Synchronizer<ThrottledTask<K>>>, admission: Synchronizer<Request<K>>)
    ensures admission as object !in lanes
  {
  }

  class Debouncer<K(==)> {
    /** `_processes`: the registrations, in scheduling order. */
    var processes: seq<Registration<K>>
    /** `_synchronizer`: the admission queue that serialises `_schedule`. */
    const synchronizer: Synchronizer<Request<K>>
    /** `_throttler`. */
    const throttler: Throttler<ThrottledTask<K>>
    /** Events the debouncer itself emits (`all-done`, `process-error`), in order. */
    var log: seq<Event>
    /** Every registration ever created, with where its work is. */
    ghost var phase: map<Registration<K>, Phase>
    /** Every synchronizer of a resource ever created. */
    ghost var syncs: set<Synchronizer<WrappedTask<K>>>
    /** The process factories invoked so far, in invocation order. */
    ghost var executed: seq<TaskId>
    /** The factory of the request each registration was created for. */
    ghost var factoryOf: map<Registration<K>, TaskId>

    ghost predicate Valid()
      reads this`processes, this`phase, this`syncs, phase.Keys, synchronizer, syncs
      reads throttler`synchronizers, throttler.synchronizers`numProcesses, throttler.synchronizers`chain,
        throttler.synchronizers`promiseFactories, throttler.synchronizers`running, throttler.synchronizers`headStarted
    {
      Accounts(synchronizer, processes, phase, syncs) && throttler.Valid()
    }

    /** The throttler routed `t` to `lane`, its lanes having been in the states `was`. */
    ghost predicate Throttled(was: seq<State<ThrottledTask<K>>>, t: ThrottledTask<K>, lane: nat)
      reads throttler, throttler.synchronizers
    {
      Submitted(throttler.maxConcurrentProcesses, was, States(throttler.synchronizers), t, lane)
    }

    /** Nothing waits for admission and no lane has outstanding work. */
    ghost predicate Idle()
      reads synchronizer`chain, synchronizer`promiseFactories
      reads throttler`synchronizers, throttler.synchronizers`chain, throttler.synchronizers`promiseFactories
    {
      && synchronizer.Outstanding() == []
      && forall i :: 0 <= i < |throttler.synchronizers| ==> throttler.synchronizers[i].Outstanding() == []
    }

    constructor ()
      ensures Valid() && fresh(synchronizer) && fresh(throttler)
      ensures processes == [] && log == [] && executed == [] && phase == map[] && syncs == {} && factoryOf == map[]
      ensures synchronizer.Empty()
      ensures throttler.synchronizers == [] && throttler.maxConcurrentProcesses == CONCURRENCY
    {
      processes := [];
      synchronizer := new Synchronizer<Request<K>>();
      throttler := new Throttler<ThrottledTask<K>>(Some(CONCURRENCY));
      log := [];
      phase := map[];
      syncs := {};
      executed := [];
      factoryOf := map[];
    }

    /** `run`: queue the request on the admission synchronizer. */
    method Run(f: TaskId, r: K)
      requires Valid()
      modifies synchronizer`numProcesses, synchronizer`promiseFactories, synchronizer`running, synchronizer`chain
      ensures Valid()
      ensures synchronizer.Outstanding() == old(synchronizer.Outstanding()) + [Request(f, r)]
      ensures synchronizer.headStarted == old(synchronizer.headStarted) && synchronizer.running
      ensures old(synchronizer.running) ==>
        && synchronizer.chain == old(synchronizer.chain)
        && synchronizer.promiseFactories == old(synchronizer.promiseFactories) + [Request(f, r)]
      ensures !old(synchronizer.running) ==>
        synchronizer.chain == [Request(f, r)] && synchronizer.promiseFactories == []
    {
      synchronizer.Run(Request(f, r));
    }

    /** `setConcurrency`: overwrite the throttler's cap; lanes already created stay. */
    method SetConcurrency(concurrency: int)
      requires Valid()
      modifies throttler`maxConcurrentProcesses
      ensures Valid() && throttler.maxConcurrentProcesses == concurrency
    {
      throttler.maxConcurrentProcesses := concurrency;
    }

    /** `hasProcesses`: a request waits for admission or some lane has outstanding work. */
    method HasProcesses() returns (b: bool)
      requires Valid()
      ensures b <==> !Idle()
    {
      var n := synchronizer.NumProcesses();
      if n > 0 {
        b := true;
      } else {
        var m := throttler.NumProcesses();
        b := m > 0;
      }
    }

    /**
     * `allDone`: the returned promise resolves without waiting for any
     * `all-done` exactly when the debouncer is idle.  The throttler's
     * `allDone` runs in a `.then` callback of the admission queue's promise,
     * so always in a later step.  When the admission queue is idle, `awaited`
     * lists the lanes that callback waits for, taken from the state at the
     * call, as if nothing ran in between; otherwise the callback waits for
     * the admission queue's next `all-done` and `awaited` is empty.
     */
    method AllDone() returns (immediate: bool, awaited: seq<nat>)
      requires Valid()
      ensures immediate <==> Idle()
      ensures synchronizer.Outstanding() != [] ==> awaited == []
      ensures synchronizer.Outstanding() == [] ==> forall k :: k in awaited <==>
        0 <= k < |throttler.synchronizers| && throttler.synchronizers[k].Outstanding() != []
    {
      var admitted := synchronizer.AllDone();
      if admitted {
        awaited := throttler.AllDone();
        immediate := awaited == [];
        assert !immediate ==> awaited[0] in awaited;
      } else {
        immediate := false;
        awaited := [];
      }
    }

    /** `_getSynchronizer`: the synchronizer of the entry found for the resource, else a new one. */
    method GetSynchronizer(existing: Option<Registration<K>>) returns (s: Synchronizer<WrappedTask<K>>)
      ensures existing.Some? ==> s == existing.value.synchronizer
      ensures existing.None? ==> fresh(s) && s.Valid() && s.Empty()
    {
      if existing.Some? {
        s := existing.value.synchronizer;
      } else {
        s := new Synchronizer<WrappedTask<K>>();
      }
    }

    /** `_throttleProcess`: submit the throttled task of `p`; `lane` is the lane it was routed to. */
    method ThrottleProcess(f: TaskId, p: Registration<K>, ghost was: seq<State<ThrottledTask<K>>>) returns (lane: nat)
      requires Valid() && p in phase && was == States(throttler.synchronizers)
      requires |throttler.synchronizers| > 0 || throttler.maxConcurrentProcesses > 0
      modifies throttler`synchronizers, throttler.synchronizers`numProcesses, throttler.synchronizers`promiseFactories,
        throttler.synchronizers`running, throttler.synchronizers`chain
      ensures unchanged(p.synchronizer)
      ensures Valid() && Throttled(was, ThrottledTask(f, p), lane)
      ensures forall l :: l in throttler.synchronizers && l !in old(throttler.synchronizers) ==> fresh(l)
    {
      lane := Throttle(ThrottledTask(f, p));
    }

    /** `this._throttler.run(...)`. */
    method Throttle(t: ThrottledTask<K>) returns (lane: nat)
      requires throttler.Valid()
      requires |throttler.synchronizers| > 0 || throttler.maxConcurrentProcesses > 0
      modifies throttler`synchronizers, throttler.synchronizers`numProcesses, throttler.synchronizers`promiseFactories,
        throttler.synchronizers`running, throttler.synchronizers`chain
      ensures throttler.Valid() && Throttled(old(States(throttler.synchronizers)), t, lane)
      ensures forall l :: l in throttler.synchronizers && l !in old(throttler.synchronizers) ==> fresh(l)
    {
      lane := throttler.Run(t);
    }

    /**
     * `_runProcess`: create an idle registration on the resource's
     * synchronizer, append it to `processes` and throttle its task.
     */
    method RunProcess(r: K, f: TaskId, existing: Option<Registration<K>>) returns (p: Registration<K>, lane: nat)
      requires Valid() && !Waiting(processes, r)
      requires existing.Some? ==> existing.value in processes && existing.value.resource == r
      requires existing.None? ==> forall j :: 0 <= j < |processes| ==> processes[j].resource != r
      requires |throttler.synchronizers| > 0 || throttler.maxConcurrentProcesses > 0
      modifies this`processes, this`phase, this`syncs, this`factoryOf
      modifies throttler`synchronizers, throttler.synchronizers`numProcesses, throttler.synchronizers`promiseFactories,
        throttler.synchronizers`running, throttler.synchronizers`chain
      ensures Valid() && fresh(p)
      ensures processes == old(processes) + [p] && phase == old(phase)[p := Throttling] && factoryOf == old(factoryOf)[p := f]
      ensures p.resource == r && !p.running
      ensures existing.Some? ==> p.synchronizer == existing.value.synchronizer
      ensures existing.None? ==> fresh(p.synchronizer) && p.synchronizer.Empty()
      ensures Throttled(old(States(throttler.synchronizers)), ThrottledTask(f, p), lane)
      ensures forall l :: l in throttler.synchronizers && l !in old(throttler.synchronizers) ==> fresh(l)
    {
      ghost var was := States(throttler.synchronizers);
      p := Register(r, f, existing);
      lane := ThrottleProcess(f, p, was);
    }

    /** The bookkeeping half of `_runProcess`: the new entry joins `processes`. */
    method Register(r: K, f: TaskId, existing: Option<Registration<K>>) returns (p: Registration<K>)
      requires Valid() && !Waiting(processes, r)
      requires existing.Some? ==> existing.value in processes && existing.value.resource == r
      requires existing.None? ==> forall j :: 0 <= j < |processes| ==> processes[j].resource != r
      modifies this`processes, this`phase, this`syncs, this`factoryOf
      ensures Valid() && fresh(p)
      ensures processes == old(processes) + [p] && phase == old(phase)[p := Throttling] && factoryOf == old(factoryOf)[p := f]
      ensures p.resource == r && !p.running
      ensures existing.Some? ==> p.synchronizer == existing.value.synchronizer
      ensures existing.None? ==> fresh(p.synchronizer) && p.synchronizer.Empty()
    {
      if existing.Some? {
        EntrySynchronizer(processes, phase, existing.value);
      }
      var s := GetSynchronizer(existing);
      p := new Registration(r, s);
      Track(p, f);
    }

    /** `processes.push(process)`, with the ghost bookkeeping of the new registration, created for factory `f`. */
    method Track(p: Registration<K>, f: TaskId)
      requires Valid() && p !in phase && !p.running && p.synchronizer.Valid()
      requires !Waiting(processes, p.resource) && SharesSynchronizer(processes, p.resource, p.synchronizer)
      modifies this`processes, this`phase, this`syncs, this`factoryOf
      ensures Valid()
      ensures processes == old(processes) + [p] && phase == old(phase)[p := Throttling] && factoryOf == old(factoryOf)[p := f]
    {
      BooksAppend(processes, phase, syncs, p);
      processes := processes + [p];
      phase := phase[p := Throttling];
      syncs := syncs + {p.synchronizer};
      factoryOf := factoryOf[p := f];
    }

    /**
     * `_schedule`: look the resource up with `_find`; unless an entry for it
     * is still waiting to start, run a new process and return its
     * registration, otherwise drop the request.
     */
    method Schedule(f: TaskId, r: K) returns (p: Option<Registration<K>>, lane: nat)
      requires Valid()
      requires |throttler.synchronizers| > 0 || throttler.maxConcurrentProcesses > 0
      modifies this`processes, this`phase, this`syncs, this`factoryOf
      modifies throttler`synchronizers, throttler.synchronizers`numProcesses, throttler.synchronizers`promiseFactories,
        throttler.synchronizers`running, throttler.synchronizers`chain
      ensures Valid()
      ensures p.None? <==> old(Waiting(processes, r))
      ensures p.None? ==> processes == old(processes) && phase == old(phase) && factoryOf == old(factoryOf)
      ensures p.None? ==> throttler.synchronizers == old(throttler.synchronizers)
      ensures p.None? ==> forall i :: 0 <= i < |throttler.synchronizers| ==> unchanged(throttler.synchronizers[i])
      ensures p.Some? ==> fresh(p.value) && p.value.resource == r && !p.value.running
      ensures p.Some? ==> Throttled(old(States(throttler.synchronizers)), ThrottledTask(f, p.value), lane)
      ensures forall l :: l in throttler.synchronizers && l !in old(throttler.synchronizers) ==> fresh(l)
      ensures p.Some? ==> processes == old(processes) + [p.value] && phase == old(phase)[p.value := Throttling]
      ensures p.Some? ==> factoryOf == old(factoryOf)[p.value := f]
      ensures p.Some? ==> SharesSynchronizer(old(processes), r, p.value.synchronizer)
      ensures p.Some? && (forall j :: 0 <= j < |old(processes)| ==> old(processes)[j].resource != r) ==>
        fresh(p.value.synchronizer) && p.value.synchronizer.Empty()
    {
      var proc, k := Find(processes, r);
      if proc.None? || proc.value.running {
        if proc.Some? {
          EntrySynchronizer(processes, phase, proc.value);
        }
        var q;
        q, lane := RunProcess(r, f, proc);
        p := Some(q);
      } else {
        p, lane := None, 0;
      }
    }

    /**
     * The admission queue invokes its head: the function that `run` queued
     * calls `_schedule`.  It returns nothing, so the admission task settles
     * next, in `AdmitSettle`.
     */
    method Admit() returns (p: Option<Registration<K>>, lane: nat)
      requires Valid() && synchronizer.chain != [] && !synchronizer.headStarted
      requires |throttler.synchronizers| > 0 || throttler.maxConcurrentProcesses > 0
      modifies synchronizer`headStarted, this`processes, this`phase, this`syncs, this`factoryOf
      modifies throttler`synchronizers, throttler.synchronizers`numProcesses, throttler.synchronizers`promiseFactories,
        throttler.synchronizers`running, throttler.synchronizers`chain
      ensures Valid() && synchronizer.headStarted
      ensures synchronizer.running == old(synchronizer.running)
      ensures synchronizer.chain == old(synchronizer.chain) && synchronizer.promiseFactories == old(synchronizer.promiseFactories)
      ensures p.None? <==> old(Waiting(processes, synchronizer.chain[0].resource))
      ensures p.None? ==> processes == old(processes) && phase == old(phase) && factoryOf == old(factoryOf)
      ensures p.None? ==> throttler.synchronizers == old(throttler.synchronizers)
      ensures p.None? ==> forall i :: 0 <= i < |throttler.synchronizers| ==> unchanged(throttler.synchronizers[i])
      ensures p.Some? ==> fresh(p.value) && p.value.resource == old(synchronizer.chain[0]).resource && !p.value.running
      ensures p.Some? ==> factoryOf == old(factoryOf)[p.value := old(synchronizer.chain[0]).factory]
      ensures p.Some? ==> Throttled(old(States(throttler.synchronizers)), ThrottledTask(old(synchronizer.chain[0]).factory, p.value), lane)
      ensures forall l :: l in throttler.synchronizers && l !in old(throttler.synchronizers) ==> fresh(l)
      ensures p.Some? ==> processes == old(processes) + [p.value] && phase == old(phase)[p.value := Throttling]
      ensures p.Some? ==> SharesSynchronizer(old(processes), old(synchronizer.chain[0]).resource, p.value.synchronizer)
      ensures p.Some? && (forall j :: 0 <= j < |old(processes)| ==> old(processes)[j].resource != old(synchronizer.chain[0]).resource) ==>
        fresh(p.value.synchronizer) && p.value.synchronizer.Empty()
    {
      NotALane(throttler.synchronizers, synchronizer);
      var t := synchronizer.Start();
      p, lane := Schedule(t.factory, t.resource);
    }

    /** The admission task settles with `undefined`, since its function returns nothing. */
    method AdmitSettle()
      requires Valid() && synchronizer.headStarted
      modifies synchronizer
      ensures Valid() && !synchronizer.headStarted && synchronizer.running == old(synchronizer.running)
      ensures synchronizer.chain == old(synchronizer.chain[1..])
      ensures synchronizer.promiseFactories == old(synchronizer.promiseFactories)
      ensures synchronizer.Outstanding() == old(synchronizer.Outstanding()[1..])
      ensures synchronizer.numProcesses == old(synchronizer.numProcesses) - 1
      ensures synchronizer.settlements == old(synchronizer.settlements) + [Settlement(old(synchronizer.chain[0]), Resolved(Undefined))]
      ensures synchronizer.log == old(synchronizer.log) + TaskEvents(Resolved(Undefined))
        + (if synchronizer.numProcesses == 0 then [Event.AllDone] else [])
    {
      var t := synchronizer.Settle(Resolved(Undefined));
    }

    /** The admission queue's drain pass ends. */
    method AdmitEndPass()
      requires Valid() && synchronizer.running && synchronizer.chain == []
      modifies synchronizer`running, synchronizer`promiseFactories, synchronizer`chain
      ensures Valid()
      ensures synchronizer.Outstanding() == old(synchronizer.Outstanding())
      ensures synchronizer.running == (old(synchronizer.promiseFactories) != [])
      ensures synchronizer.chain == old(synchronizer.promiseFactories) && synchronizer.promiseFactories == []
    {
      synchronizer.EndPass();
    }

    /**
     * A lane invokes the throttled task of a registration: the wrapped
     * factory is submitted to the registration's synchronizer.
     */
    method LaneInvoke(t: ThrottledTask<K>)
      requires Valid() && t.process in phase && phase[t.process] == Throttling
      requires t.process in factoryOf && factoryOf[t.process] == t.factory
      modifies this`phase
      modifies t.process.synchronizer`numProcesses, t.process.synchronizer`promiseFactories,
        t.process.synchronizer`running, t.process.synchronizer`chain
      ensures Valid() && phase == old(phase)[t.process := Queued]
      ensures t.process.synchronizer.Outstanding() == old(t.process.synchronizer.Outstanding()) + [WrappedTask(t.factory, t.process)]
      ensures t.process.synchronizer.running && t.process.synchronizer.headStarted == old(t.process.synchronizer.headStarted)
      ensures old(t.process.synchronizer.running) ==>
        && t.process.synchronizer.chain == old(t.process.synchronizer.chain)
        && t.process.synchronizer.promiseFactories == old(t.process.synchronizer.promiseFactories) + [WrappedTask(t.factory, t.process)]
      ensures !old(t.process.synchronizer.running) ==>
        t.process.synchronizer.chain == [WrappedTask(t.factory, t.process)] && t.process.synchronizer.promiseFactories == []
    {
      Queue(t.process);
      Submit(WrappedTask(t.factory, t.process));
    }

    /** `synchronizer.run(...)` on the registration's synchronizer. */
    method Submit(w: WrappedTask<K>)
      requires Valid() && w.process in phase
      modifies w.process.synchronizer`numProcesses, w.process.synchronizer`promiseFactories,
        w.process.synchronizer`running, w.process.synchronizer`chain
      ensures Valid()
      ensures w.process.synchronizer.Outstanding() == old(w.process.synchronizer.Outstanding()) + [w]
      ensures w.process.synchronizer.running && w.process.synchronizer.headStarted == old(w.process.synchronizer.headStarted)
      ensures old(w.process.synchronizer.running) ==>
        && w.process.synchronizer.chain == old(w.process.synchronizer.chain)
        && w.process.synchronizer.promiseFactories == old(w.process.synchronizer.promiseFactories) + [w]
      ensures !old(w.process.synchronizer.running) ==>
        w.process.synchronizer.chain == [w] && w.process.synchronizer.promiseFactories == []
    {
      w.process.synchronizer.Run(w);
    }

    /** The ghost step of `LaneInvoke`. */
    method Queue(p: Registration<K>)
      requires Valid() && p in phase && phase[p] == Throttling
      modifies this`phase
      ensures Valid() && phase == old(phase)[p := Queued]
    {
      BooksRephase(processes, phase, syncs, p, Queued);
      Rephase(phase[p := Queued]);
    }

    /**
     * The resource's synchronizer invokes a wrapped factory: the registration
     * is marked running, so later requests for the resource are no longer
     * dropped, and the caller's factory is invoked.
     */
    method WrapperStart(t: WrappedTask<K>)
      requires Valid() && t.process in phase && phase[t.process] == Queued
      requires t.process in factoryOf && factoryOf[t.process] == t.factory
      modifies t.process`running, this`phase, this`executed
      ensures Valid() && t.process.running
      ensures phase == old(phase)[t.process := Started]
      ensures executed == old(executed) + [t.factory]
    {
      Enter(t.process);
      executed := executed + [t.factory];
    }

    /**
     * The synchronizer of `p`'s resource invokes the head of its chain, the
     * wrapped factory of a queued registration, so a factory is entered only
     * when its turn on its resource's synchronizer has come.
     */
    method ResourceStart(p: Registration<K>) returns (t: WrappedTask<K>)
      requires Valid() && p in phase && p.synchronizer.chain != [] && !p.synchronizer.headStarted
      requires p.synchronizer.chain[0].process in phase && phase[p.synchronizer.chain[0].process] == Queued
      requires p.synchronizer.chain[0].process in factoryOf && factoryOf[p.synchronizer.chain[0].process] == p.synchronizer.chain[0].factory
      modifies p.synchronizer`headStarted, p.synchronizer.chain[0].process`running, this`phase, this`executed
      ensures Valid() && t == p.synchronizer.chain[0] && p.synchronizer.headStarted
      ensures t.process.running && phase == old(phase)[t.process := Started]
      ensures executed == old(executed) + [t.factory]
    {
      t := StartHead(p);
      WrapperStart(t);
    }

    /** `Synchronizer.Start` on the synchronizer of `p`'s resource. */
    method StartHead(p: Registration<K>) returns (t: WrappedTask<K>)
      requires Valid() && p in phase && p.synchronizer.chain != [] && !p.synchronizer.headStarted
      modifies p.synchronizer`headStarted
      ensures Valid() && p.synchronizer.headStarted && t == p.synchronizer.chain[0]
    {
      t := p.synchronizer.Start();
    }

    /**
     * The synchronizer of `p`'s resource settles its started head with `o`,
     * what the wrapped factory's promise settled with.
     */
    method ResourceSettle(p: Registration<K>, o: Outcome) returns (t: WrappedTask<K>)
      requires Valid() && p in phase && p.synchronizer.chain != [] && p.synchronizer.headStarted
      modifies p.synchronizer
      ensures Valid() && t == old(p.synchronizer.chain[0])
      ensures p.synchronizer.chain == old(p.synchronizer.chain[1..])
      ensures p.synchronizer.promiseFactories == old(p.synchronizer.promiseFactories)
      ensures !p.synchronizer.headStarted && p.synchronizer.running == old(p.synchronizer.running)
      ensures p.synchronizer.numProcesses == old(p.synchronizer.numProcesses) - 1
      ensures p.synchronizer.settlements == old(p.synchronizer.settlements) + [Settlement(t, o)]
      ensures p.synchronizer.Outstanding() == old(p.synchronizer.Outstanding()[1..])
      ensures p.synchronizer.log == old(p.synchronizer.log) + TaskEvents(o)
        + (if p.synchronizer.numProcesses == 0 then [Event.AllDone] else [])
    {
      t := p.synchronizer.Settle(o);
    }

    /** The drain pass of the synchronizer of `p`'s resource ends. */
    method ResourceEndPass(p: Registration<K>)
      requires Valid() && p in phase && p.synchronizer.running && p.synchronizer.chain == []
      modifies p.synchronizer`running, p.synchronizer`promiseFactories, p.synchronizer`chain
      ensures Valid()
      ensures p.synchronizer.running == (old(p.synchronizer.promiseFactories) != [])
      ensures p.synchronizer.chain == old(p.synchronizer.promiseFactories) && p.synchronizer.promiseFactories == []
    {
      p.synchronizer.EndPass();
    }

    /** `process.running = true`. */
    method Enter(p: Registration<K>)
      requires Valid() && p in phase && phase[p] == Queued
      modifies p`running, this`phase
      ensures Valid() && p.running && phase == old(phase)[p := Started]
    {
      p.running := true;
      BooksEnter(processes, phase, syncs, p);
      Rephase(phase[p := Started]);
    }

    /**
     * The factory of a started registration settles with `o`.  On success
     * the entry is found with `indexOf` and spliced out, and `all-done` is
     * emitted if no entry is left; on failure the entry stays, still
     * running, and the rejection reaches the `catch` of `run`, which emits
     * `process-error`.
     */
    method Complete(t: WrappedTask<K>, o: Outcome)
      requires Valid() && t.process in phase && phase[t.process] == Started
      modifies this`processes, this`phase, this`log
      ensures Valid()
      ensures o.Resolved? ==> processes == Remove(old(processes), t.process) && t.process !in processes
      ensures o.Resolved? ==> |processes| == |old(processes)| - 1 && phase == old(phase)[t.process := Finished]
      ensures o.Resolved? ==> log == old(log) + (if processes == [] then [Event.AllDone] else [])
      ensures o.Rejected? ==> processes == old(processes) && phase == old(phase)[t.process := Failed]
      ensures o.Rejected? ==> log == old(log) + [ProcessError(o.error)]
    {
      if o.Resolved? {
        Deregister(t.process);
      } else {
        Fail(t.process, o.error);
      }
    }

    /** The continuation of a resolved factory in `_wrapPromiseFactory`. */
    method Deregister(p: Registration<K>)
      requires Valid() && p in phase && phase[p] == Started
      modifies this`processes, this`phase, this`log
      ensures Valid()
      ensures processes == Remove(old(processes), p) && p !in processes
      ensures |processes| == |old(processes)| - 1 && phase == old(phase)[p := Finished]
      ensures log == old(log) + (if processes == [] then [Event.AllDone] else [])
    {
      Listed(processes, phase, p);
      var index := IndexOf(processes, p);
      Untrack(p, index);
      EmitAllDoneWhenEmpty();
    }

    /** Emit `all-done` when no entry is left. */
    method EmitAllDoneWhenEmpty()
      requires Valid()
      modifies this`log
      ensures Valid()
      ensures log == old(log) + (if processes == [] then [Event.AllDone] else [])
    {
      if |processes| == 0 {
        log := log + [Event.AllDone];
      }
    }

    /** `_processes.splice(index, 1)`, where `index` is the entry's `indexOf`. */
    method Untrack(p: Registration<K>, index: int)
      requires Valid() && p in phase && phase[p] == Started
      requires 0 <= index < |processes| && processes[index] == p && p !in processes[..index]
      modifies this`processes, this`phase
      ensures Valid()
      ensures processes == Remove(old(processes), p) && p !in processes
      ensures |processes| == |old(processes)| - 1 && phase == old(phase)[p := Finished]
    {
      BooksRemove(processes, phase, syncs, p, index);
      Commit(SpliceOne(processes, index), phase[p := Finished]);
    }

    /** Store the entries and phases the bookkeeping lemmas vouch for. */
    method Commit(ps: seq<Registration<K>>, ghost ph: map<Registration<K>, Phase>)
      requires synchronizer.Valid() && throttler.Valid() && Books(ps, ph, syncs)
      modifies this`processes, this`phase
      ensures Valid() && processes == ps && phase == ph
    {
      processes := ps;
      phase := ph;
    }

    /** Store the phases the bookkeeping lemmas vouch for; the entries stay. */
    method Rephase(ghost ph: map<Registration<K>, Phase>)
      requires synchronizer.Valid() && throttler.Valid() && Books(processes, ph, syncs)
      modifies this`phase
      ensures Valid() && phase == ph
    {
      phase := ph;
    }

    /** Emit an event of the debouncer's own. */
    method Emit(e: Event)
      requires Valid()
      modifies this`log
      ensures Valid() && log == old(log) + [e]
    {
      log := log + [e];
    }

    /** A rejected factory: the entry stays and `process-error` is emitted. */
    method Fail(p: Registration<K>, err: Value)
      requires Valid() && p in phase && phase[p] == Started
      modifies this`phase, this`log
      ensures Valid() && phase == old(phase)[p := Failed]
      ensures log == old(log) + [ProcessError(err)]
    {
      BooksRephase(processes, phase, syncs, p, Failed);
      Rephase(phase[p := Failed]);
      Emit(ProcessError(err));
    }
  }
}
