/**
 * The serial queue of scripts/synchronizer.js.  Promises are not modelled: each
 * asynchronous step of the queue is an event method (submit, start the head of
 * the chain, settle it, finish a drain pass), and emitted events are appended to
 * an output log.
 */
module Synchronizers {
  import opened Wrappers

  /** A value a task resolves or rejects with; `Undefined` is JavaScript's undefined. */
  datatype Value = Undefined | Val(n: int)

  /** How a task's promise settles. */
  datatype Outcome = Resolved(value: Value) | Rejected(error: Value)

  /** The events a synchronizer (and, by forwarding, a throttler) emits. */
  datatype Event = ProcessDone | ProcessError(err: Value) | ProcessDoneOrError | AllDone

  /** What the caller of `run` observes: its task and how the returned promise settled. */
  datatype Settlement<T> = Settlement(task: T, outcome: Outcome)

  /** The events emitted for one settled task, in emission order. */
  function TaskEvents(o: Outcome): (es: seq<Event>)
    ensures |es| == 2 && es[1] == ProcessDoneOrError
    ensures o.Resolved? <==> es[0] == ProcessDone
    ensures o.Rejected? ==> es[0] == ProcessError(o.error)
  {
    match o
    case Resolved(_) => [ProcessDone, ProcessDoneOrError]
    case Rejected(e) => [ProcessError(e), ProcessDoneOrError]
  }

  /** A synchronizer's fields as a value, to compare its state before and after a call. */
  datatype State<T> = State(
    promiseFactories: seq<T>, chain: seq<T>, numProcesses: int, running: bool, headStarted: bool,
    log: seq<Event>, settlements: seq<Settlement<T>>)

  class Synchronizer<T> {
    /** `_promiseFactories`: submitted tasks not yet moved onto a chain. */
    var promiseFactories: seq<T>
    /** The tasks of the current chain that have not settled, in chain order. */
    var chain: seq<T>
    /** `_numProcesses`. */
    var numProcesses: int
    /** `_running`: a drain loop is active. */
    var running: bool
    /** The head of `chain` has been invoked and has not settled yet. */
    var headStarted: bool
    /** Events emitted, in order. */
    var log: seq<Event>
    /** The promises returned by `run` that have settled, in settlement order. */
    var settlements: seq<Settlement<T>>

    ghost predicate Valid()
      reads this`numProcesses, this`chain, this`promiseFactories, this`running, this`headStarted
    {
      && numProcesses == |chain| + |promiseFactories|
      && (!running ==> chain == [] && promiseFactories == [])
      && (headStarted ==> chain != [])
    }

    /** No task is outstanding and no loop is active, as after construction. */
    ghost predicate Empty()
      reads this`chain, this`promiseFactories, this`running, this`headStarted
    {
      chain == [] && promiseFactories == [] && !running && !headStarted
    }

    /** Every field, as a value. */
    ghost function Snapshot(): State<T>
      reads this
    {
      State(promiseFactories, chain, numProcesses, running, headStarted, log, settlements)
    }

    /** The tasks submitted and not yet settled, in the order they will settle. */
    function Outstanding(): seq<T>
      reads this`chain, this`promiseFactories
    {
      chain + promiseFactories
    }

    constructor ()
      ensures Valid() && Empty()
      ensures promiseFactories == [] && chain == [] && numProcesses == 0
      ensures !running && !headStarted
      ensures log == [] && settlements == []
    {
      promiseFactories := [];
      chain := [];
      numProcesses := 0;
      running := false;
      headStarted := false;
      log := [];
      settlements := [];
    }

    /** `_pushPromiseFactory`: append the task at the tail of the pending list. */
    method PushPromiseFactory(t: T)
      modifies this`promiseFactories
      ensures promiseFactories == old(promiseFactories) + [t]
    {
      promiseFactories := promiseFactories + [t];
    }

    /** `run`: count the task, queue it, and start the drain loop if none is active. */
    method Run(t: T)
      requires Valid()
      modifies this`numProcesses, this`promiseFactories, this`running, this`chain
      ensures Valid()
      ensures Outstanding() == old(Outstanding()) + [t]
      ensures numProcesses == old(numProcesses) + 1
      ensures running
      ensures old(running) ==> chain == old(chain) && promiseFactories == old(promiseFactories) + [t]
      ensures !old(running) ==> chain == [t] && promiseFactories == []
      ensures headStarted == old(headStarted)
      ensures log == old(log) && settlements == old(settlements)
    {
      numProcesses := numProcesses + 1;
      PushPromiseFactory(t);
      if !running {
        running := true;
        ProcessFactories();
      }
    }

    /** `Array.prototype.shift` on the pending list. */
    method Shift() returns (f: Option<T>)
      modifies this`promiseFactories
      ensures old(promiseFactories) == [] ==> f.None? && promiseFactories == []
      ensures old(promiseFactories) != [] ==>
        f == Some(old(promiseFactories)[0]) && promiseFactories == old(promiseFactories)[1..]
    {
      if promiseFactories == [] {
        f := None;
      } else {
        f := Some(promiseFactories[0]);
        promiseFactories := promiseFactories[1..];
      }
    }

    /** `_chainPromiseFactories`: shift every pending task, head first, onto the chain. */
    method ChainPromiseFactories()
      modifies this`promiseFactories, this`chain
      ensures chain == old(chain) + old(promiseFactories) && promiseFactories == []
    {
      var f := Shift();
      while f.Some?
        invariant chain + (if f.Some? then [f.value] else []) + promiseFactories
          == old(chain) + old(promiseFactories)
        invariant f.None? ==> promiseFactories == []
        decreases |promiseFactories| + (if f.Some? then 1 else 0)
      {
        chain := chain + [f.value];
        f := Shift();
      }
    }

    /** `_processFactories`: one drain pass; its continuation is `EndPass`. */
    method ProcessFactories()
      modifies this`promiseFactories, this`chain
      ensures chain == old(chain) + old(promiseFactories) && promiseFactories == []
    {
      ChainPromiseFactories();
    }

    /** The chain invokes its head task; a task starts only after its predecessor settled. */
    method Start() returns (t: T)
      requires Valid() && chain != [] && !headStarted
      modifies this`headStarted
      ensures Valid() && headStarted && t == chain[0]
    {
      headStarted := true;
      t := chain[0];
    }

    /**
     * The head task settles with `o`: the wrapper of `_pushPromiseFactory` emits
     * the per-task events and settles the caller's promise, then the link of
     * `_chainPromiseFactory` drops the count and emits `all-done` at zero.
     */
    method Settle(o: Outcome) returns (t: T)
      requires Valid() && headStarted
      modifies this
      ensures Valid()
      ensures t == old(chain[0])
      ensures chain == old(chain[1..]) && promiseFactories == old(promiseFactories)
      ensures Outstanding() == old(Outstanding()[1..])
      ensures !headStarted && running == old(running)
      ensures settlements == old(settlements) + [Settlement(t, o)]
      ensures numProcesses == old(numProcesses) - 1
      ensures log == old(log) + TaskEvents(o) + (if numProcesses == 0 then [Event.AllDone] else [])
    {
      t := chain[0];
      log := log + TaskEvents(o);
      settlements := settlements + [Settlement(t, o)];
      chain := chain[1..];
      headStarted := false;
      numProcesses := numProcesses - 1;
      EmitAllDoneWhenNoProcesses();
    }

    /**
     * The continuation of `_processFactories` once its chain has drained: stop
     * the loop when nothing is pending, otherwise drain again.
     */
    method EndPass()
      requires Valid() && running && chain == []
      modifies this`running, this`promiseFactories, this`chain
      ensures Valid()
      ensures Outstanding() == old(Outstanding())
      ensures running == (old(promiseFactories) != [])
      ensures chain == old(promiseFactories) && promiseFactories == []
    {
      if |promiseFactories| == 0 {
        running := false;
      } else {
        ProcessFactories();
      }
    }

    /** `numProcesses`: tasks submitted and not yet settled. */
    method NumProcesses() returns (n: int)
      requires Valid()
      ensures n == |chain| + |promiseFactories| && n == |Outstanding()|
    {
      n := numProcesses;
    }

    /** `_emitAllDoneWhenNoProcesses`. */
    method EmitAllDoneWhenNoProcesses()
      modifies this`log
      ensures log == old(log) + (if numProcesses == 0 then [Event.AllDone] else [])
    {
      if numProcesses == 0 {
        log := log + [Event.AllDone];
      }
    }

    /**
     * `allDone`: true when the returned promise resolves at once; otherwise it
     * resolves at the next `AllDone` event, which `Settle` emits when the count
     * reaches zero.
     */
    method AllDone() returns (immediate: bool)
      requires Valid()
      ensures immediate <==> Outstanding() == []
    {
      var n := NumProcesses();
      immediate := n == 0;
    }
  }

  /**
   * Two tasks submitted back to back, before the first has started: the
   * second is held for the next drain pass and starts only after the first
   * settled.  The first task rejects, and the queue still runs the second;
   * the callers' promises settle in submission order.  The queue ends as it
   * began, apart from its history.
   */
  method SubmissionOrder() returns (s: Synchronizer<int>)
    ensures s.Valid() && s.Empty() && s.numProcesses == 0
    ensures s.settlements == [Settlement(1, Rejected(Val(7))), Settlement(2, Resolved(Undefined))]
    ensures s.log == [ProcessError(Val(7)), ProcessDoneOrError, ProcessDone, ProcessDoneOrError, AllDone]
  {
    s := SubmitTwo();
    FirstPass(s);
    SecondPass(s);
  }

  /** The first `run` starts a drain pass with its task on the chain; the second waits. */
  method SubmitTwo() returns (s: Synchronizer<int>)
    ensures fresh(s) && s.Valid() && s.running && !s.headStarted
    ensures s.chain == [1] && s.promiseFactories == [2] && s.log == [] && s.settlements == []
  {
    s := new Synchronizer<int>();
    s.Run(1);
    s.Run(2);
  }

  /** The first task runs and rejects; the loop goes on, and the next pass takes the waiting task. */
  method FirstPass(s: Synchronizer<int>)
    requires s.Valid() && s.running && !s.headStarted
    requires s.chain == [1] && s.promiseFactories == [2] && s.log == [] && s.settlements == []
    modifies s
    ensures s.Valid() && s.running && !s.headStarted
    ensures s.chain == [2] && s.promiseFactories == []
    ensures s.settlements == [Settlement(1, Rejected(Val(7)))] && s.log == [ProcessError(Val(7)), ProcessDoneOrError]
  {
    var t := s.Start();
    t := s.Settle(Rejected(Val(7)));
    s.EndPass();
  }

  /** The second task runs and resolves; it was the last, so `all-done` follows and the loop stops. */
  method SecondPass(s: Synchronizer<int>)
    requires s.Valid() && s.running && !s.headStarted
    requires s.chain == [2] && s.promiseFactories == []
    requires s.settlements == [Settlement(1, Rejected(Val(7)))] && s.log == [ProcessError(Val(7)), ProcessDoneOrError]
    modifies s
    ensures s.Valid() && s.Empty() && s.numProcesses == 0
    ensures s.settlements == [Settlement(1, Rejected(Val(7))), Settlement(2, Resolved(Undefined))]
    ensures s.log == [ProcessError(Val(7)), ProcessDoneOrError, ProcessDone, ProcessDoneOrError, AllDone]
  {
    var t := s.Start();
    t := s.Settle(Resolved(Undefined));
    s.EndPass();
  }
}
