/**
 * The stages of the debouncer's "should remove dups" scenario: three
 * requests R1, R2 and R3 for one resource `r`, with factories 1, 2 and 3.
 */
module DebouncerStages {
  import opened Synchronizers
  import opened Throttlers
  import opened Registrations
  import opened Debouncers

  /** `s` is running `w`, its started head, with `waiting` queued for its next pass. */
  ghost predicate Runs<K>(s: Synchronizer<WrappedTask<K>>, w: WrappedTask<K>, waiting: seq<WrappedTask<K>>)
    reads s
  {
    s.chain == [w] && s.promiseFactories == waiting && s.running && s.headStarted
  }

  /** The three requests wait for admission; the first is at the head of the queue's pass. */
  ghost predicate Requested<K>(d: Debouncer<K>, r: K)
    reads d, d.synchronizer, d.throttler, d.throttler.synchronizers, d.phase.Keys, d.syncs
  {
    && d.Valid() && d.throttler.synchronizers == [] && d.throttler.maxConcurrentProcesses == CONCURRENCY
    && d.processes == [] && d.executed == [] && d.factoryOf == map[]
    && d.synchronizer.chain == [Request(1, r)] && d.synchronizer.promiseFactories == [Request(2, r), Request(3, r)]
    && d.synchronizer.running && !d.synchronizer.headStarted
  }

  /** R1 has been admitted: its registration is listed and its throttled task routed, and its synchronizer is idle. */
  ghost predicate FirstAdmitted<K>(d: Debouncer<K>, r: K, p1: Registration<K>)
    reads d, d.synchronizer, d.throttler, d.throttler.synchronizers, d.phase.Keys, d.syncs, p1, p1.synchronizer
  {
    && d.Valid() && d.throttler.maxConcurrentProcesses == CONCURRENCY
    && d.processes == [p1] && p1 in d.phase && d.phase[p1] == Throttling && d.executed == [] && d.factoryOf == map[p1 := 1]
    && p1.resource == r && !p1.running && p1.synchronizer.Empty()
    && d.synchronizer.chain == [Request(1, r)] && d.synchronizer.promiseFactories == [Request(2, r), Request(3, r)]
    && d.synchronizer.running && d.synchronizer.headStarted
  }

  /** R1's factory has been entered and runs alone on the resource's synchronizer. */
  ghost predicate FirstOn<K>(d: Debouncer<K>, r: K, p1: Registration<K>)
    reads d, d.synchronizer, d.throttler, d.throttler.synchronizers, d.phase.Keys, d.syncs, p1, p1.synchronizer
  {
    && d.Valid() && d.throttler.maxConcurrentProcesses == CONCURRENCY
    && d.processes == [p1] && p1 in d.phase && d.phase[p1] == Started && d.executed == [1] && d.factoryOf == map[p1 := 1]
    && p1.resource == r && p1.running
    && Runs(p1.synchronizer, WrappedTask(1, p1), [])
  }

  /** R1's factory has been entered while R1's admission task is still running. */
  ghost predicate FirstStarted<K>(d: Debouncer<K>, r: K, p1: Registration<K>)
    reads d, d.synchronizer, d.throttler, d.throttler.synchronizers, d.phase.Keys, d.syncs, p1, p1.synchronizer
  {
    && FirstOn(d, r, p1)
    && |d.synchronizer.chain| == 1 && d.synchronizer.promiseFactories == [Request(2, r), Request(3, r)]
    && d.synchronizer.running && d.synchronizer.headStarted
  }

  /** R1's factory has been entered; R2 and R3 form the admission queue's next pass. */
  ghost predicate FirstRunning<K>(d: Debouncer<K>, r: K, p1: Registration<K>)
    reads d, d.synchronizer, d.throttler, d.throttler.synchronizers, d.phase.Keys, d.syncs, p1, p1.synchronizer
  {
    && FirstOn(d, r, p1)
    && d.synchronizer.chain == [Request(2, r), Request(3, r)] && d.synchronizer.promiseFactories == []
    && d.synchronizer.running && !d.synchronizer.headStarted
  }

  /** R2 has been admitted while R1's factory runs: its registration shares R1's synchronizer. */
  ghost predicate SecondAdmitted<K>(d: Debouncer<K>, r: K, p1: Registration<K>, p2: Registration<K>)
    reads d, d.phase.Keys, d.syncs, d.synchronizer, d.throttler, d.throttler.synchronizers, p1, p1.synchronizer, p2
  {
    && d.Valid() && d.throttler.maxConcurrentProcesses == CONCURRENCY
    && d.processes == [p1, p2] && p1 != p2 && d.executed == [1] && d.factoryOf == map[p1 := 1, p2 := 2]
    && p1 in d.phase && d.phase[p1] == Started && p2 in d.phase && d.phase[p2] == Throttling
    && p1.resource == r && p1.running && p2.resource == r && !p2.running && p2.synchronizer == p1.synchronizer
    && d.synchronizer.chain == [Request(2, r), Request(3, r)] && d.synchronizer.promiseFactories == []
    && d.synchronizer.running && d.synchronizer.headStarted
    && Runs(p1.synchronizer, WrappedTask(1, p1), [])
  }

  /** R1's factory runs and R2's waits behind it on the resource's synchronizer. */
  ghost predicate SecondBehind<K>(d: Debouncer<K>, p1: Registration<K>, p2: Registration<K>)
    reads d, d.phase.Keys, d.syncs, d.synchronizer, d.throttler, d.throttler.synchronizers, p1, p1.synchronizer, p2
  {
    && d.Valid() && d.processes == [p1, p2] && p1 != p2 && d.executed == [1] && d.factoryOf == map[p1 := 1, p2 := 2]
    && p1 in d.phase && d.phase[p1] == Started && p2 in d.phase && d.phase[p2] == Queued
    && Runs(p1.synchronizer, WrappedTask(1, p1), [WrappedTask(2, p2)])
  }

  /** R1's entry has been spliced out; R2's wrapped factory still waits behind R1's settled one. */
  ghost predicate FirstGone<K>(d: Debouncer<K>, p1: Registration<K>, p2: Registration<K>)
    reads d, d.phase.Keys, d.syncs, d.synchronizer, d.throttler, d.throttler.synchronizers, p1, p1.synchronizer, p2
  {
    && d.Valid() && d.processes == [p2] && d.executed == [1] && d.factoryOf == map[p1 := 1, p2 := 2]
    && p1 in d.phase && p2 in d.phase && d.phase[p2] == Queued
    && Runs(p1.synchronizer, WrappedTask(1, p1), [WrappedTask(2, p2)])
  }

  /** R3 is the admission queue's last task, and R2's entry has not started. */
  ghost predicate ThirdPending<K>(d: Debouncer<K>, r: K, p1: Registration<K>, p2: Registration<K>)
    reads d, d.phase.Keys, d.syncs, d.synchronizer, d.throttler, d.throttler.synchronizers, p1, p1.synchronizer, p2
  {
    && SecondBehind(d, p1, p2) && d.throttler.maxConcurrentProcesses == CONCURRENCY
    && p1.resource == r && p1.running && p2.resource == r && !p2.running
    && d.synchronizer.chain == [Request(3, r)] && d.synchronizer.promiseFactories == []
    && d.synchronizer.running && !d.synchronizer.headStarted
  }
}

/**
 * The debouncer's "should remove dups" scenario, step by step.  The lanes
 * invoke the throttled tasks as soon as they are routed.
 */
module DebouncerScenario {
  import opened Wrappers
  import opened Synchronizers
  import opened Throttlers
  import opened Registrations
  import opened Debouncers
  import opened DebouncerStages

  /**
   * R1 has been entered when R2 is admitted, so R2 becomes a new
   * registration that waits behind R1 on the resource's synchronizer; R3 is
   * admitted while R2 still waits, so it is dropped.  Only R1 and R2 get a
   * registration, and their factories are entered, in that order; that of
   * R3 never is.
   */
  method RemoveDups<K(==)>(r: K) returns (d: Debouncer<K>, p1: Registration<K>, p2: Registration<K>, dropped: Option<Registration<K>>)
    ensures d.Valid() && dropped.None? && d.executed == [1, 2]
    ensures d.processes == [p2] && d.factoryOf == map[p1 := 1, p2 := 2]
  {
    d, p1, p2 := TwoAdmitted(r);
    dropped := ThirdDropped(d, r, p1, p2);
    SecondEntered(d, p1, p2);
  }

  /** The first two requests are admitted: R1's factory runs and R2's waits behind it. */
  method TwoAdmitted<K(==)>(r: K) returns (d: Debouncer<K>, p1: Registration<K>, p2: Registration<K>)
    ensures fresh(d) && fresh(d.synchronizer) && fresh(d.throttler) && fresh(p1) && fresh(p1.synchronizer) && fresh(p2)
    ensures forall i :: 0 <= i < |d.throttler.synchronizers| ==> fresh(d.throttler.synchronizers[i])
    ensures ThirdPending(d, r, p1, p2)
  {
    d := RequestThree(r);
    p1 := FirstEntered(d, r);
    ghost var lanes := d.throttler.synchronizers;
    assert forall l :: l in lanes ==> fresh(l);
    p2 := SecondWaits(d, r, p1);
  }

  /** Three calls of `run` for `r`: the first starts the admission queue's pass. */
  method RequestThree<K(==)>(r: K) returns (d: Debouncer<K>)
    ensures fresh(d) && fresh(d.synchronizer) && fresh(d.throttler) && Requested(d, r)
  {
    d := new Debouncer<K>();
    d.Run(1, r);
    d.Run(2, r);
    d.Run(3, r);
  }

  /** R1 is admitted and its factory entered; the admission queue's next pass takes R2 and R3. */
  method FirstEntered<K(==)>(d: Debouncer<K>, r: K) returns (p1: Registration<K>)
    requires Requested(d, r)
    modifies d`processes, d`phase, d`syncs, d`executed, d`factoryOf, d.synchronizer, d.throttler`synchronizers
    ensures fresh(p1) && fresh(p1.synchronizer)
    ensures forall i :: 0 <= i < |d.throttler.synchronizers| ==> fresh(d.throttler.synchronizers[i])
    ensures FirstRunning(d, r, p1)
  {
    p1 := AdmitFirst(d, r);
    StartFirst(d, r, p1);
  }

  /** R1 is admitted: a new registration on a new synchronizer, its throttled task routed to a new lane. */
  method AdmitFirst<K(==)>(d: Debouncer<K>, r: K) returns (p1: Registration<K>)
    requires Requested(d, r)
    modifies d`processes, d`phase, d`syncs, d`factoryOf, d.synchronizer`headStarted, d.throttler`synchronizers
    ensures fresh(p1) && fresh(p1.synchronizer)
    ensures forall i :: 0 <= i < |d.throttler.synchronizers| ==> fresh(d.throttler.synchronizers[i])
    ensures FirstAdmitted(d, r, p1)
  {
    var p, lane := d.Admit();
    p1 := p.value;
    assert forall i :: 0 <= i < |d.throttler.synchronizers| ==> d.throttler.synchronizers[i] in d.throttler.synchronizers;
    assert d.processes == [p1];
  }

  /** R1's lane hands its wrapped factory over, R1's factory is entered, and the admission task settles. */
  method StartFirst<K(==)>(d: Debouncer<K>, r: K, p1: Registration<K>)
    requires FirstAdmitted(d, r, p1)
    modifies d`phase, d`executed, d.synchronizer, p1`running, p1.synchronizer
    ensures FirstRunning(d, r, p1)
  {
    EnterFirst(d, r, p1);
    NextAdmission(d);
  }

  /** R1's lane hands its wrapped factory to the idle resource synchronizer, which enters it at once. */
  method EnterFirst<K(==)>(d: Debouncer<K>, r: K, p1: Registration<K>)
    requires FirstAdmitted(d, r, p1)
    modifies d`phase, d`executed, p1`running, p1.synchronizer
    ensures FirstStarted(d, r, p1)
  {
    d.LaneInvoke(ThrottledTask(1, p1));
    var w1 := d.ResourceStart(p1);
  }

  /** The admission task at the head settles with `undefined`, and the queue's pass moves on. */
  method NextAdmission<K(==)>(d: Debouncer<K>)
    requires d.Valid() && |d.synchronizer.chain| == 1 && d.synchronizer.running && d.synchronizer.headStarted
    modifies d.synchronizer
    ensures d.Valid() && !d.synchronizer.headStarted
    ensures d.synchronizer.chain == old(d.synchronizer.promiseFactories) && d.synchronizer.promiseFactories == []
    ensures d.synchronizer.running == (old(d.synchronizer.promiseFactories) != [])
  {
    d.AdmitSettle();
    d.AdmitEndPass();
  }

  /** R2 is admitted and its lane submits R2's wrapped factory, which waits behind R1's. */
  method SecondWaits<K(==)>(d: Debouncer<K>, r: K, p1: Registration<K>) returns (p2: Registration<K>)
    requires FirstRunning(d, r, p1)
    modifies d`processes, d`phase, d`syncs, d`factoryOf, d.synchronizer, d.throttler`synchronizers, d.throttler.synchronizers
    modifies p1.synchronizer`numProcesses, p1.synchronizer`promiseFactories, p1.synchronizer`running, p1.synchronizer`chain
    ensures fresh(p2)
    ensures forall i :: 0 <= i < |d.throttler.synchronizers| ==>
      d.throttler.synchronizers[i] in old(d.throttler.synchronizers) || fresh(d.throttler.synchronizers[i])
    ensures ThirdPending(d, r, p1, p2)
  {
    p2 := AdmitSecond(d, r, p1);
    QueueSecond(d, r, p1, p2);
  }

  /** R2 is admitted: R1's entry is running, so a second entry joins R1's synchronizer. */
  method AdmitSecond<K(==)>(d: Debouncer<K>, r: K, p1: Registration<K>) returns (p2: Registration<K>)
    requires FirstRunning(d, r, p1)
    modifies d`processes, d`phase, d`syncs, d`factoryOf, d.synchronizer`headStarted, d.throttler`synchronizers, d.throttler.synchronizers
    ensures fresh(p2)
    ensures forall i :: 0 <= i < |d.throttler.synchronizers| ==>
      d.throttler.synchronizers[i] in old(d.throttler.synchronizers) || fresh(d.throttler.synchronizers[i])
    ensures SecondAdmitted(d, r, p1, p2)
  {
    assert [p1][0] == p1;
    var p, lane := d.Admit();
    p2 := p.value;
    assert forall i :: 0 <= i < |d.throttler.synchronizers| ==> d.throttler.synchronizers[i] in d.throttler.synchronizers;
    assert d.processes == [p1] + [p2];
  }

  /** R2's lane submits its wrapped factory, which waits behind R1's; the admission task settles. */
  method QueueSecond<K(==)>(d: Debouncer<K>, r: K, p1: Registration<K>, p2: Registration<K>)
    requires SecondAdmitted(d, r, p1, p2)
    modifies d`phase, d.synchronizer, p1.synchronizer`numProcesses, p1.synchronizer`promiseFactories,
      p1.synchronizer`running, p1.synchronizer`chain
    ensures ThirdPending(d, r, p1, p2)
  {
    d.LaneInvoke(ThrottledTask(2, p2));
    d.AdmitSettle();
  }

  /** R3 is admitted while R2's entry still waits, so it is dropped; the admission queue drains. */
  method ThirdDropped<K(==)>(d: Debouncer<K>, r: K, p1: Registration<K>, p2: Registration<K>)
    returns (dropped: Option<Registration<K>>)
    requires ThirdPending(d, r, p1, p2)
    modifies d`processes, d`phase, d`syncs, d`factoryOf, d.synchronizer, d.throttler`synchronizers, d.throttler.synchronizers
    ensures dropped.None? && d.synchronizer.Empty() && SecondBehind(d, p1, p2)
    ensures d.throttler.synchronizers == old(d.throttler.synchronizers)
  {
    ThirdRequestDropped(p1, p2, r);
    var lane;
    dropped, lane := d.Admit();
    NextAdmission(d);
  }

  /** R1's factory resolves, its synchronizer moves on to R2's wrapped factory, and R2's factory is entered. */
  method SecondEntered<K(==)>(d: Debouncer<K>, p1: Registration<K>, p2: Registration<K>)
    requires SecondBehind(d, p1, p2)
    modifies d`processes, d`phase, d`log, d`executed, p1.synchronizer, p2`running
    ensures d.Valid() && d.processes == [p2] && d.executed == [1, 2] && p2.running
    ensures d.factoryOf == map[p1 := 1, p2 := 2]
  {
    FirstResolves(d, p1, p2);
    SecondStarts(d, p1, p2);
  }

  /** R1's factory resolves: its entry is spliced out of the list, and R2's entry is left. */
  method FirstResolves<K(==)>(d: Debouncer<K>, p1: Registration<K>, p2: Registration<K>)
    requires SecondBehind(d, p1, p2)
    modifies d`processes, d`phase, d`log
    ensures FirstGone(d, p1, p2)
  {
    assert [p1, p2][1..] == [p2];
    d.Complete(WrappedTask(1, p1), Resolved(Undefined));
  }

  /** The resource's synchronizer settles R1's wrapped factory, and its next pass enters R2's. */
  method SecondStarts<K(==)>(d: Debouncer<K>, p1: Registration<K>, p2: Registration<K>)
    requires FirstGone(d, p1, p2)
    modifies d`phase, d`executed, p1.synchronizer, p2`running
    ensures d.Valid() && d.processes == [p2] && d.executed == [1, 2] && p2.running
    ensures d.factoryOf == map[p1 := 1, p2 := 2]
  {
    assert [1] + [2] == [1, 2];
    ResourceNext(d, p1);
    var w2 := d.ResourceStart(p1);
  }

  /** The wrapped factory at the head of `p`'s synchronizer settles, and that synchronizer's pass moves on. */
  method ResourceNext<K(==)>(d: Debouncer<K>, p: Registration<K>)
    requires d.Valid() && p in d.phase
    requires |p.synchronizer.chain| == 1 && p.synchronizer.running && p.synchronizer.headStarted
    modifies p.synchronizer
    ensures d.Valid() && !p.synchronizer.headStarted
    ensures p.synchronizer.chain == old(p.synchronizer.promiseFactories) && p.synchronizer.promiseFactories == []
    ensures p.synchronizer.running == (old(p.synchronizer.promiseFactories) != [])
  {
    var w := d.ResourceSettle(p, Resolved(Undefined));
    d.ResourceEndPass(p);
  }
}
