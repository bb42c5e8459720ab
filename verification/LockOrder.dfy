/**
 * `both_locked` of wrasse/store.py: any number of processes, each taking the locks of several
 * stores one at a time in path order, working, and letting them go in reverse.
 */
module LockOrder {
  /** A lock is its place in the order of resolved paths; the first `held` of `order` are this process's. */
  datatype Process = Process(order: seq<nat>, held: nat, leaving: bool)

  function Entering(order: seq<nat>): Process {
    Process(order, 0, false)
  }

  /** What sorting distinct paths gives. */
  ghost predicate Ordered(order: seq<nat>) {
    forall i, j :: 0 <= i < j < |order| ==> order[i] < order[j]
  }

  ghost predicate Holds(p: Process, lock: nat) {
    exists i :: 0 <= i < p.held && i < |p.order| && p.order[i] == lock
  }

  predicate Finished(p: Process) {
    p.leaving && p.held == 0
  }

  predicate Waiting(p: Process) {
    !p.leaving && p.held < |p.order|
  }

  /** A process moves unless it waits for a lock another holds, or is through. */
  ghost predicate CanStep(ps: seq<Process>, k: nat)
    requires k < |ps|
  {
    && !Finished(ps[k])
    && (Waiting(ps[k]) ==> forall j :: 0 <= j < |ps| && j != k ==> !Holds(ps[j], ps[k].order[ps[k].held]))
  }

  function Moved(p: Process): Process {
    if p.leaving then (if p.held > 0 then p.(held := p.held - 1) else p)
    else if p.held < |p.order| then p.(held := p.held + 1)
    else p.(leaving := true)
  }

  function Step(ps: seq<Process>, k: nat): seq<Process>
    requires k < |ps|
  {
    ps[k := Moved(ps[k])]
  }

  /** No process holds more than it asked for, and no two hold the same lock. */
  ghost predicate Exclusive(ps: seq<Process>) {
    && (forall k :: 0 <= k < |ps| ==> ps[k].held <= |ps[k].order|)
    && (forall j, k, lock :: 0 <= j < k < |ps| && Holds(ps[j], lock) ==> !Holds(ps[k], lock))
  }

  ghost predicate AllOrdered(ps: seq<Process>) {
    forall k :: 0 <= k < |ps| ==> Ordered(ps[k].order)
  }

  /** A schedule that only ever runs a process that can move. */
  ghost predicate Runs(ps: seq<Process>, schedule: seq<nat>)
    decreases |schedule|
  {
    schedule == [] || (schedule[0] < |ps| && CanStep(ps, schedule[0]) && Runs(Step(ps, schedule[0]), schedule[1..]))
  }

  ghost function After(ps: seq<Process>, schedule: seq<nat>): seq<Process>
    requires Runs(ps, schedule)
    decreases |schedule|
  {
    if schedule == [] then ps else After(Step(ps, schedule[0]), schedule[1..])
  }

  /** Moves a process has left before it is through. */
  function WorkOf(p: Process): nat {
    if p.leaving then p.held
    else if p.held <= |p.order| then (|p.order| - p.held) + 1 + |p.order|
    else 1 + p.held
  }

  function Work(ps: seq<Process>): nat {
    if ps == [] then 0 else Work(ps[..|ps| - 1]) + WorkOf(ps[|ps| - 1])
  }

  lemma StepKeeps(ps: seq<Process>, k: nat)
    requires k < |ps| && Exclusive(ps) && AllOrdered(ps) && CanStep(ps, k)
    ensures Exclusive(Step(ps, k)) && AllOrdered(Step(ps, k))
  {
  }

  lemma {:induction false} StepSpendsOne(ps: seq<Process>, k: nat)
    requires k < |ps| && !Finished(ps[k]) && ps[k].held <= |ps[k].order|
    ensures Work(Step(ps, k)) == Work(ps) - 1
    decreases |ps|
  {
    var after := Step(ps, k);
    if k < |ps| - 1 {
      assert after[..|ps| - 1] == Step(ps[..|ps| - 1], k);
      StepSpendsOne(ps[..|ps| - 1], k);
    } else {
      assert after[..|ps| - 1] == ps[..|ps| - 1];
    }
  }

  /** Follow the locks upwards from a process that waits: the chain ends at one that can move. */
  lemma {:induction false} SomebodyHolding(ps: seq<Process>, k: nat, top: nat) returns (runner: nat)
    requires k < |ps| && Exclusive(ps) && AllOrdered(ps) && !Finished(ps[k])
    requires forall j, i :: 0 <= j < |ps| && 0 <= i < |ps[j].order| ==> ps[j].order[i] < top
    ensures runner < |ps| && CanStep(ps, runner)
    decreases if Waiting(ps[k]) then top - ps[k].order[ps[k].held] else -1
  {
    if CanStep(ps, k) {
      return k;
    }
    var wanted := ps[k].order[ps[k].held];
    var j :| 0 <= j < |ps| && j != k && Holds(ps[j], wanted);
    if CanStep(ps, j) {
      return j;
    }
    var i :| 0 <= i < ps[j].held && i < |ps[j].order| && ps[j].order[i] == wanted;
    assert wanted < ps[j].order[ps[j].held];
    runner := SomebodyHolding(ps, j, top);
  }

  function Highest(locks: seq<nat>): (top: nat)
    ensures forall i :: 0 <= i < |locks| ==> locks[i] < top
  {
    if locks == [] then 0
    else
      var below := Highest(locks[..|locks| - 1]);
      if locks[|locks| - 1] < below then below else locks[|locks| - 1] + 1
  }

  function HighestOf(ps: seq<Process>): (top: nat)
    ensures forall j, i :: 0 <= j < |ps| && 0 <= i < |ps[j].order| ==> ps[j].order[i] < top
  {
    if ps == [] then 0
    else
      var below, own := HighestOf(ps[..|ps| - 1]), Highest(ps[|ps| - 1].order);
      if own < below then below else own
  }

  lemma {:induction false} RunKeeps(ps: seq<Process>, schedule: seq<nat>)
    requires Exclusive(ps) && AllOrdered(ps) && Runs(ps, schedule)
    ensures var after := After(ps, schedule);
      Exclusive(after) && AllOrdered(after) && |after| == |ps| && Work(after) + |schedule| == Work(ps)
    decreases |schedule|
  {
    if schedule != [] {
      StepKeeps(ps, schedule[0]);
      StepSpendsOne(ps, schedule[0]);
      RunKeeps(Step(ps, schedule[0]), schedule[1..]);
    }
  }

  /**
   * Processes that take their locks in path order never deadlock. After any run from a start
   * where nothing is held, no lock has two holders, and either everyone is through or somebody
   * can move; and since every move spends one unit of the work there was, no run is longer
   * than that.
   */
  lemma NeverDeadlocks(orders: seq<seq<nat>>, schedule: seq<nat>)
    requires forall k :: 0 <= k < |orders| ==> Ordered(orders[k])
    requires Runs(seq(|orders|, k requires 0 <= k < |orders| => Entering(orders[k])), schedule)
    ensures var ps := seq(|orders|, k requires 0 <= k < |orders| => Entering(orders[k])); var after := After(ps, schedule);
      && Exclusive(after)
      && |schedule| <= Work(ps)
      && ((exists k :: 0 <= k < |after| && CanStep(after, k)) <==> (exists k :: 0 <= k < |after| && !Finished(after[k])))
  {
    var ps := seq(|orders|, k requires 0 <= k < |orders| => Entering(orders[k]));
    RunKeeps(ps, schedule);
    var after := After(ps, schedule);
    if k :| 0 <= k < |after| && !Finished(after[k]) {
      var runner := SomebodyHolding(after, k, HighestOf(after));
    }
  }

  /** The order is what does it: two processes taking the same two locks the other way round can stop for good. */
  lemma OppositeOrdersDeadlock()
    ensures var ps := [Entering([1, 2]), Entering([2, 1])];
      && Runs(ps, [0, 1])
      && var after := After(ps, [0, 1]);
         forall k :: 0 <= k < |after| ==> !Finished(after[k]) && !CanStep(after, k)
  {
    var ps := [Entering([1, 2]), Entering([2, 1])];
    var one := Step(ps, 0);
    var two := Step(one, 1);
    assert [0, 1][1..] == [1] && [1][1..] == [];
    assert CanStep(ps, 0) && CanStep(one, 1);
    assert Runs(two, []) && Runs(one, [1]) && Runs(ps, [0, 1]);
    assert After(ps, [0, 1]) == two;
    assert two[0].order[0] == 1 && two[1].order[0] == 2;
    assert Holds(two[0], 1) && Holds(two[1], 2);
  }
}
