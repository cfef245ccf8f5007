/**
 * The entries of `_processes` in scripts/debouncer.js and the list operations
 * the debouncer performs on them.
 */
module Registrations {
  import opened Wrappers
  import opened Synchronizers

  /** Identifies a caller's process factory; invoking it is recorded in `executed`. */
  type TaskId = nat

  /** The task `_throttleProcess` hands to the throttler: it submits the wrapped factory to the registration's synchronizer. */
  datatype ThrottledTask<K> = ThrottledTask(factory: TaskId, process: Registration<K>)

  /** The task `_wrapPromiseFactory` builds: mark the registration running, invoke the factory, then deregister. */
  datatype WrappedTask<K> = WrappedTask(factory: TaskId, process: Registration<K>)

  /** Where a registration's work is (ghost bookkeeping, not in the source). */
  datatype Phase =
    | Throttling // waiting on its throttler lane
    | Queued     // handed to its resource's synchronizer, not started
    | Started    // its factory has been invoked
    | Failed     // its factory rejected; the entry stays in `processes`
    | Finished   // its factory resolved; the entry was removed

  /** An entry of `_processes`: `{resource, running, synchronizer}`. */
  class Registration<K> {
    const resource: K
    const synchronizer: Synchronizer<WrappedTask<K>>
    var running: bool

    constructor (resource: K, synchronizer: Synchronizer<WrappedTask<K>>)
      ensures this.resource == resource && this.synchronizer == synchronizer && !running
    {
      this.resource := resource;
      this.synchronizer := synchronizer;
      running := false;
    }
  }

  /**
   * `k` is where the scan of `_find` for `r` stops: the first entry for `r`
   * that is not running, or, when every entry for `r` is running, the last one.
   */
  ghost predicate FoundAt<K>(ps: seq<Registration<K>>, r: K, k: int)
    reads ps`running
  {
    && 0 <= k < |ps| && ps[k].resource == r
    && (!ps[k].running ==> forall j :: 0 <= j < k && ps[j].resource == r ==> ps[j].running)
    && (ps[k].running ==>
          (forall j :: 0 <= j < |ps| && ps[j].resource == r ==> ps[j].running)
          && (forall j :: k < j < |ps| ==> ps[j].resource != r))
  }

  /** Some entry for `r` is not running yet: `_find` stops there and `_schedule` drops the request. */
  ghost predicate Waiting<K>(ps: seq<Registration<K>>, r: K)
    reads ps`running
  {
    exists j :: 0 <= j < |ps| && ps[j].resource == r && !ps[j].running
  }

  /**
   * Pushing an entry makes a resource have a waiting entry exactly when it
   * had one already or the new entry is for it and not running.
   */
  lemma WaitingAppend<K>(ps: seq<Registration<K>>, q: Registration<K>, r: K)
    ensures Waiting(ps + [q], r) <==> Waiting(ps, r) || (q.resource == r && !q.running)
  {
    if Waiting(ps, r) {
      var j :| 0 <= j < |ps| && ps[j].resource == r && !ps[j].running;
      assert (ps + [q])[j] == ps[j];
    }
    if q.resource == r && !q.running {
      assert (ps + [q])[|ps|] == q;
    }
    if Waiting(ps + [q], r) {
      var j :| 0 <= j < |ps| + 1 && (ps + [q])[j].resource == r && !(ps + [q])[j].running;
      if j < |ps| {
        assert (ps + [q])[j] == ps[j];
      }
    }
  }

  /** `_find`: scan the entries in order, remembering the last match, and stop at a match that is not running. */
  method Find<K(==)>(ps: seq<Registration<K>>, r: K) returns (proc: Option<Registration<K>>, ghost k: int)
    ensures proc.None? <==> forall j :: 0 <= j < |ps| ==> ps[j].resource != r
    ensures proc.Some? ==> FoundAt(ps, r, k) && proc.value == ps[k]
    ensures proc.Some? && !proc.value.running <==> Waiting(ps, r)
  {
    proc := None;
    k := -1;
    var i := 0;
    while i < |ps|
      invariant 0 <= i <= |ps|
      invariant proc.None? <==> forall j :: 0 <= j < i ==> ps[j].resource != r
      invariant proc.Some? ==> 0 <= k < i && proc.value == ps[k] && ps[k].resource == r && ps[k].running
      invariant proc.Some? ==> forall j :: 0 <= j < i && ps[j].resource == r ==> ps[j].running
      invariant proc.Some? ==> forall j :: k < j < i ==> ps[j].resource != r
    {
      if ps[i].resource == r {
        proc := Some(ps[i]);
        k := i;
        if !ps[i].running {
          return;
        }
      }
      i := i + 1;
    }
  }

  /** `Array.prototype.indexOf` by identity: the first position of `p`, or -1. */
  method IndexOf<K>(ps: seq<Registration<K>>, p: Registration<K>) returns (index: int)
    ensures index == -1 <==> p !in ps
    ensures index != -1 ==> 0 <= index < |ps| && ps[index] == p && p !in ps[..index]
  {
    index := 0;
    while index < |ps|
      invariant 0 <= index <= |ps|
      invariant p !in ps[..index]
    {
      if ps[index] == p {
        return;
      }
      index := index + 1;
    }
    assert ps[..index] == ps;
    index := -1;
  }

  /** `Array.prototype.splice(index, 1)`: a negative start counts from the end. */
  function SpliceOne<E>(ps: seq<E>, index: int): (rest: seq<E>)
    ensures index == -1 && ps != [] ==> rest == ps[..|ps| - 1]
    ensures 0 <= index < |ps| ==> rest == ps[..index] + ps[index + 1..]
    ensures |ps| <= index ==> rest == ps
  {
    var start := if index < 0 then (if |ps| + index < 0 then 0 else |ps| + index) else index;
    if start < |ps| then ps[..start] + ps[start + 1..] else ps
  }


  /** `ps` without its first occurrence of `x`. */
  function Remove<E(==)>(ps: seq<E>, x: E): (rest: seq<E>)
    ensures x in ps ==> |rest| == |ps| - 1
    ensures x !in ps ==> rest == ps
  {
    if ps == [] then []
    else
      assert ps == [ps[0]] + ps[1..];
      if ps[0] == x then ps[1..] else [ps[0]] + Remove(ps[1..], x)
  }

  /** Removing `x` takes exactly one `x` out of the multiset of entries, and nothing else. */
  lemma {:induction false} RemoveCount<E>(ps: seq<E>, x: E)
    ensures multiset(Remove(ps, x)) == multiset(ps) - multiset{x}
  {
    if ps != [] {
      assert ps == [ps[0]] + ps[1..];
      if ps[0] != x {
        RemoveCount(ps[1..], x);
      }
    }
  }

  /** Cutting out the first occurrence of `x`, found at `i`, is `Remove`. */
  lemma {:induction false} RemoveAt<E>(ps: seq<E>, x: E, i: nat)
    requires i < |ps| && ps[i] == x && forall j :: 0 <= j < i ==> ps[j] != x
    ensures Remove(ps, x) == ps[..i] + ps[i + 1..]
  {
    if i > 0 {
      RemoveAt(ps[1..], x, i - 1);
      assert ps[1..][..i - 1] == ps[1..i] && ps[1..][i..] == ps[i + 1..];
      assert ps[..i] == [ps[0]] + ps[1..i];
    }
  }

  /** In this phase the wrapped factory has been entered, so the entry is marked running. */
  predicate Entered(x: Phase)
  {
    x.Started? || x.Failed? || x.Finished?
  }

  /**
   * The invariants of `_processes`, with `phase` recording every registration
   * ever created.
   */
  ghost predicate Registry<K>(ps: seq<Registration<K>>, phase: map<Registration<K>, Phase>)
  {
    && (forall i :: 0 <= i < |ps| ==> ps[i] in phase)
    && (forall i, j :: 0 <= i < j < |ps| ==> ps[i] != ps[j])
    // at most one entry per resource is waiting to start
    && (forall i, j :: 0 <= i < j < |ps| && ps[i].resource == ps[j].resource ==>
          Entered(phase[ps[i]]) || Entered(phase[ps[j]]))
    // entries of one resource share one synchronizer
    && (forall i, j :: 0 <= i < j < |ps| && ps[i].resource == ps[j].resource ==> ps[i].synchronizer == ps[j].synchronizer)
    // an entry leaves the list exactly when its factory resolved
    && (forall p :: p in phase ==> (p in ps <==> phase[p] != Finished))
  }

  /** `running` is set exactly when the wrapped factory has been entered. */
  ghost predicate Flags<K>(phase: map<Registration<K>, Phase>)
    reads phase.Keys`running
  {
    forall p :: p in phase ==> (p.running <==> Entered(phase[p]))
  }

  /** Every entry of `ps` for resource `r` runs on synchronizer `s`. */
  ghost predicate SharesSynchronizer<K>(ps: seq<Registration<K>>, r: K, s: Synchronizer<WrappedTask<K>>)
  {
    forall j :: 0 <= j < |ps| && ps[j].resource == r ==> ps[j].synchronizer == s
  }

  /** The synchronizer of any entry is the one of every entry for its resource. */
  lemma EntrySynchronizer<K>(ps: seq<Registration<K>>, phase: map<Registration<K>, Phase>, e: Registration<K>)
    requires Registry(ps, phase) && e in ps
    ensures SharesSynchronizer(ps, e.resource, e.synchronizer)
  {
    var k :| 0 <= k < |ps| && ps[k] == e;
    forall j | 0 <= j < |ps| && ps[j].resource == e.resource
      ensures ps[j].synchronizer == e.synchronizer
    {
      if j < k {
        assert ps[j].synchronizer == ps[k].synchronizer;
      } else if j > k {
        assert ps[k].synchronizer == ps[j].synchronizer;
      }
    }
  }

  /** Appending a fresh, idle registration for a resource with no waiting entry keeps the registry invariant. */
  lemma RegistryAppend<K>(ps: seq<Registration<K>>, phase: map<Registration<K>, Phase>, p: Registration<K>)
    requires Registry(ps, phase) && Flags(phase) && p !in phase && !Waiting(ps, p.resource)
    requires SharesSynchronizer(ps, p.resource, p.synchronizer)
    ensures Registry(ps + [p], phase[p := Throttling])
  {
    var ps', phase' := ps + [p], phase[p := Throttling];
    forall i, j | 0 <= i < j < |ps'| && ps'[i].resource == ps'[j].resource
      ensures Entered(phase'[ps'[i]]) || Entered(phase'[ps'[j]])
      ensures ps'[i].synchronizer == ps'[j].synchronizer
    {
      if j == |ps| {
        assert ps'[i] == ps[i];
      } else {
        assert ps'[i] == ps[i] && ps'[j] == ps[j];
      }
    }
  }

  /**
   * The synchronizers of the resources: each registration's is tracked, and
   * every tracked one is consistent.
   */
  ghost predicate Resources<K>(phase: map<Registration<K>, Phase>, syncs: set<Synchronizer<WrappedTask<K>>>)
    reads syncs`numProcesses, syncs`chain, syncs`promiseFactories, syncs`running, syncs`headStarted
  {
    && (forall p :: p in phase ==> p.synchronizer in syncs)
    && (forall s :: s in syncs ==> s.Valid())
  }

  /** Tracking one more registration and its synchronizer, which is consistent, keeps `Resources`. */
  lemma ResourcesAdd<K>(phase: map<Registration<K>, Phase>, syncs: set<Synchronizer<WrappedTask<K>>>,
                        p: Registration<K>, x: Phase)
    requires Resources(phase, syncs) && p.synchronizer.Valid()
    ensures Resources(phase[p := x], syncs + {p.synchronizer})
  {
  }

  /**
   * Moving a listed registration forward to a phase that keeps it listed
   * keeps the registry invariant (a task leaves its lane for its resource's
   * queue, its factory is entered, or the factory rejects).
   */
  lemma RegistryRephase<K>(ps: seq<Registration<K>>, phase: map<Registration<K>, Phase>, p: Registration<K>, x: Phase)
    requires Registry(ps, phase) && p in phase && phase[p] != Finished && x != Finished
    requires Entered(phase[p]) ==> Entered(x)
    ensures Registry(ps, phase[p := x])
  {
  }

  /** Removing a registration whose factory resolved keeps the registry invariant. */
  lemma RegistryRemove<K>(ps: seq<Registration<K>>, phase: map<Registration<K>, Phase>, i: nat)
    requires Registry(ps, phase) && i < |ps| && phase[ps[i]] == Started
    ensures Registry(ps[..i] + ps[i + 1..], phase[ps[i] := Finished])
  {
    var ps', phase' := ps[..i] + ps[i + 1..], phase[ps[i] := Finished];
    forall a | 0 <= a < |ps'|
      ensures ps'[a] == ps[if a < i then a else a + 1]
    {
    }
    forall a, b | 0 <= a < b < |ps'|
      ensures ps'[a] != ps'[b]
      ensures ps'[a].resource == ps'[b].resource ==> Entered(phase'[ps'[a]]) || Entered(phase'[ps'[b]])
      ensures ps'[a].resource == ps'[b].resource ==> ps'[a].synchronizer == ps'[b].synchronizer
    {
      var a0, b0 := if a < i then a else a + 1, if b < i then b else b + 1;
      assert ps'[a] == ps[a0] && ps'[b] == ps[b0] && a0 < b0;
    }
    forall q | q in phase'
      ensures q in ps' <==> phase'[q] != Finished
    {
      if q in ps' {
        var a :| 0 <= a < |ps'| && ps'[a] == q;
        var a0 := if a < i then a else a + 1;
        assert ps[a0] == q && a0 != i;
      }
    }
  }

  /**
   * A registration whose factory has not resolved is still listed, so the
   * `indexOf` of the success continuation never returns -1.
   */
  lemma Listed<K>(ps: seq<Registration<K>>, phase: map<Registration<K>, Phase>, p: Registration<K>)
    requires Registry(ps, phase) && p in phase && phase[p] != Finished
    ensures p in ps
  {
  }

  /** Everything the debouncer knows about its registrations and their synchronizers. */
  ghost predicate Books<K>(ps: seq<Registration<K>>, phase: map<Registration<K>, Phase>,
                           syncs: set<Synchronizer<WrappedTask<K>>>)
    reads syncs`numProcesses, syncs`chain, syncs`promiseFactories, syncs`running, syncs`headStarted
    reads phase.Keys`running
  {
    Resources(phase, syncs) && Registry(ps, phase) && Flags(phase)
  }

  /** The admission queue is consistent and the books hold. */
  ghost predicate Accounts<K, Q>(admission: Synchronizer<Q>, ps: seq<Registration<K>>, phase: map<Registration<K>, Phase>,
                                 syncs: set<Synchronizer<WrappedTask<K>>>)
    reads admission, syncs, phase.Keys
  {
    admission.Valid() && Books(ps, phase, syncs)
  }

  /** For each resource, at most one listed entry is not running. */
  lemma OneWaiting<K>(ps: seq<Registration<K>>, phase: map<Registration<K>, Phase>,
                      syncs: set<Synchronizer<WrappedTask<K>>>)
    requires Books(ps, phase, syncs)
    ensures forall i, j :: 0 <= i < j < |ps| && ps[i].resource == ps[j].resource ==> ps[i].running || ps[j].running
  {
  }

  /** `_runProcess` appends a new, idle registration for a resource with no waiting entry. */
  lemma BooksAppend<K>(ps: seq<Registration<K>>, phase: map<Registration<K>, Phase>,
                       syncs: set<Synchronizer<WrappedTask<K>>>, p: Registration<K>)
    requires Books(ps, phase, syncs) && p !in phase && !p.running && p.synchronizer.Valid()
    requires !Waiting(ps, p.resource) && SharesSynchronizer(ps, p.resource, p.synchronizer)
    ensures Books(ps + [p], phase[p := Throttling], syncs + {p.synchronizer})
  {
    RegistryAppend(ps, phase, p);
    ResourcesAdd(phase, syncs, p, Throttling);
  }

  /** A listed registration moves to another listed phase with the same `running` flag. */
  lemma BooksRephase<K>(ps: seq<Registration<K>>, phase: map<Registration<K>, Phase>,
                        syncs: set<Synchronizer<WrappedTask<K>>>, p: Registration<K>, x: Phase)
    requires Books(ps, phase, syncs) && p in phase && phase[p] != Finished && x != Finished
    requires Entered(phase[p]) == Entered(x)
    ensures Books(ps, phase[p := x], syncs)
  {
    RegistryRephase(ps, phase, p, x);
    ResourcesAdd(phase, syncs, p, x);
    assert syncs + {p.synchronizer} == syncs;
  }

  /** A queued registration is entered: it is marked running and its phase becomes `Started`. */
  lemma BooksEnter<K>(ps: seq<Registration<K>>, phase: map<Registration<K>, Phase>,
                      syncs: set<Synchronizer<WrappedTask<K>>>, p: Registration<K>)
    requires Resources(phase, syncs) && Registry(ps, phase) && p in phase && phase[p] == Queued && p.running
    requires forall q :: q in phase && q != p ==> (q.running <==> Entered(phase[q]))
    ensures Books(ps, phase[p := Started], syncs)
  {
    RegistryRephase(ps, phase, p, Started);
    ResourcesAdd(phase, syncs, p, Started);
    assert syncs + {p.synchronizer} == syncs;
  }

  /**
   * The entry `p`, whose factory resolved, is spliced out at its `indexOf`:
   * that removes exactly its one occurrence.
   */
  lemma BooksRemove<K>(ps: seq<Registration<K>>, phase: map<Registration<K>, Phase>,
                       syncs: set<Synchronizer<WrappedTask<K>>>, p: Registration<K>, i: nat)
    requires Books(ps, phase, syncs) && p in phase && phase[p] == Started
    requires i < |ps| && ps[i] == p && p !in ps[..i]
    ensures SpliceOne(ps, i) == Remove(ps, p) && p !in SpliceOne(ps, i)
    ensures Books(SpliceOne(ps, i), phase[p := Finished], syncs)
  {
    RemoveAt(ps, p, i);
    RegistryRemove(ps, phase, i);
    ResourcesAdd(phase, syncs, p, Finished);
    assert syncs + {p.synchronizer} == syncs;
  }
}
