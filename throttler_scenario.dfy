/**
 * The throttler's "should throttle" scenario: a cap of two lanes and three
 * tasks, where tasks 1 and 2 run at once and task 3 waits behind task 1.
 */
module ThrottlerScenario {
  import opened Wrappers
  import opened Synchronizers
  import opened Throttlers

  /** Lane `s` is running a pass whose chain is `chain`, with `waiting` pending and its head not started. */
  ghost predicate Ready(s: Synchronizer<int>, chain: seq<int>, waiting: seq<int>)
    reads s
  {
    s.Valid() && s.chain == chain && s.promiseFactories == waiting && s.running && !s.headStarted
  }

  /**
   * Both lanes start their heads, tasks 1 and 2, at once; task 1 resolves,
   * and the first lane's next pass takes task 3, which starts only now.
   */
  method ShouldThrottle() returns (th: Throttler<int>)
    ensures th.Valid() && |th.synchronizers| == 2
    ensures th.synchronizers[0].settlements == [Settlement(1, Resolved(Undefined))]
    ensures th.synchronizers[0].chain == [3] && th.synchronizers[0].headStarted
    ensures th.synchronizers[1].chain == [2] && th.synchronizers[1].headStarted
    ensures th.synchronizers[1].settlements == []
  {
    th := RouteThree();
    var t1 := th.StartOnLane(0);
    var t2 := th.StartOnLane(1);
    t1 := th.SettleOnLane(0, Resolved(Undefined));
    th.EndPassOnLane(0);
    var t3 := th.StartOnLane(0);
  }

  /**
   * Three `run` calls with a cap of two: the first two each create a lane,
   * since no lane is idle; the third finds both lanes busy and the cap
   * reached, so it waits behind task 1 on the first least-loaded lane.
   */
  method RouteThree() returns (th: Throttler<int>)
    ensures fresh(th) && th.Valid() && th.maxConcurrentProcesses == 2 && |th.synchronizers| == 2
    ensures fresh(th.synchronizers[0]) && fresh(th.synchronizers[1]) && th.synchronizers[0] != th.synchronizers[1]
    ensures Ready(th.synchronizers[0], [1], [3]) && th.synchronizers[0].settlements == []
    ensures Ready(th.synchronizers[1], [2], []) && th.synchronizers[1].settlements == []
  {
    th := RouteFirst();
    RouteSecond(th);
    RouteThird(th);
  }

  /** The first `run` finds no lane, so it creates one holding just task 1. */
  method RouteFirst() returns (th: Throttler<int>)
    ensures fresh(th) && th.Valid() && th.maxConcurrentProcesses == 2 && |th.synchronizers| == 1
    ensures fresh(th.synchronizers[0]) && th.synchronizers[0].Snapshot() == NewLane(1)
  {
    th := new Throttler<int>(Some(2));
    assert States(th.synchronizers) == [];
    var lane := th.Run(1);
    assert States(th.synchronizers) == [NewLane(1)];
    StatesEach(th.synchronizers);
    assert States(th.synchronizers)[0] == NewLane(1);
    assert th.synchronizers[0] in th.synchronizers;
  }

  /** The second `run` finds the only lane busy and the cap not reached, so it creates a second lane. */
  method RouteSecond(th: Throttler<int>)
    requires th.Valid() && th.maxConcurrentProcesses == 2 && |th.synchronizers| == 1
    requires th.synchronizers[0].Snapshot() == NewLane(1)
    modifies th`synchronizers, th.synchronizers
    ensures th.Valid() && th.maxConcurrentProcesses == 2 && |th.synchronizers| == 2
    ensures th.synchronizers[0] == old(th.synchronizers[0]) && fresh(th.synchronizers[1])
    ensures th.synchronizers[0].Snapshot() == NewLane(1) && th.synchronizers[1].Snapshot() == NewLane(2)
  {
    StatesEach(th.synchronizers);
    assert States(th.synchronizers) == [NewLane(1)];
    assert Loads([NewLane(1)])[0] == 1;
    var lane := th.Run(2);
    assert lane == 1;
    assert States(th.synchronizers) == [NewLane(1), NewLane(2)];
    assert th.synchronizers[..1][0] == th.synchronizers[0];
    StatesEach(th.synchronizers);
    assert States(th.synchronizers)[0] == NewLane(1) && States(th.synchronizers)[1] == NewLane(2);
    assert th.synchronizers[1] in th.synchronizers;
  }

  /** The third `run` finds both lanes busy and the cap reached, so task 3 joins the first lane's pending list. */
  method RouteThird(th: Throttler<int>)
    requires th.Valid() && th.maxConcurrentProcesses == 2 && |th.synchronizers| == 2
    requires th.synchronizers[0].Snapshot() == NewLane(1) && th.synchronizers[1].Snapshot() == NewLane(2)
    modifies th`synchronizers, th.synchronizers
    ensures th.Valid() && th.synchronizers == old(th.synchronizers)
    ensures Ready(th.synchronizers[0], [1], [3]) && th.synchronizers[0].settlements == []
    ensures th.synchronizers[1].Snapshot() == NewLane(2)
  {
    StatesEach(th.synchronizers);
    assert States(th.synchronizers) == [NewLane(1), NewLane(2)];
    assert Loads([NewLane(1), NewLane(2)])[0] == 1 && Loads([NewLane(1), NewLane(2)])[1] == 1;
    var lane := th.Run(3);
    assert lane == 0;
    assert th.synchronizers[..2] == th.synchronizers;
    StatesEach(th.synchronizers);
    assert States(th.synchronizers)[1] == NewLane(2);
    assert [] + [3] == [3];
  }

  /** The state of a new lane that has just received `t`. */
  function NewLane(t: int): State<int>
  {
    State([], [t], 1, true, false, [], [])
  }
}
