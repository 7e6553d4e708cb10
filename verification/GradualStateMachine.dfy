/**
 * GradualStateMachine: reactive rate control of ETSI TS 102 687 v1.2.1,
 * where transitions only lead to neighbouring states.
 */
module GradualStateMachine {

  datatype State = State(lowerLimit: real, offTime: int)

  /** A std::set of states is ordered by lower limit and holds each limit once. */
  ghost predicate Ordered(states: seq<State>) {
    forall i, j :: 0 <= i < j < |states| ==> states[i].lowerLimit < states[j].lowerLimit
  }

  /** CBR mappings of TS 102 687 v1.2.1, for transmissions of up to 1 ms (Table A.1) and up to 500 us (Table A.2). */
  const ETSI_STATES_1MS: seq<State> := [
    State(0.0, 100_000), State(0.3, 200_000), State(0.4, 400_000), State(0.5, 500_000), State(0.6, 1_000_000)
  ]
  const ETSI_STATES_500US: seq<State> := [
    State(0.0, 50_000), State(0.3, 100_000), State(0.4, 200_000), State(0.5, 250_000), State(0.65, 1_000_000)
  ]

  /** Index of the state after one channel load report. */
  function Next(states: seq<State>, current: nat, load: real): (r: nat)
    requires current < |states|
    ensures r < |states|
  {
    if load < states[current].lowerLimit then
      if current != 0 then current - 1 else current
    else if current + 1 < |states| && load >= states[current + 1].lowerLimit then current + 1
    else current
  }

  function Run(states: seq<State>, current: nat, loads: seq<real>): (r: nat)
    requires current < |states|
    ensures r < |states|
  {
    if loads == [] then current
    else Next(states, Run(states, current, loads[..|loads| - 1]), loads[|loads| - 1])
  }

  class StateMachine {
    var states: seq<State>
    var current: nat

    ghost predicate Valid()
      reads this
    {
      Ordered(states) && current < |states|
    }

    /** An empty set of states is repaired by a single unrestricted state. */
    constructor (states: seq<State>)
      requires Ordered(states)
      ensures Valid() && current == 0
      ensures this.states == if states == [] then [State(0.0, 0)] else states
    {
      this.states := if states == [] then [State(0.0, 0)] else states;
      current := 0;
    }

    method Update(load: real)
      requires Valid()
      modifies this`current
      ensures Valid() && current == Next(states, old(current), load)
    {
      if load < states[current].lowerLimit {
        if current != 0 {
          current := current - 1;
        }
      } else {
        var up := current + 1;
        if up != |states| && load >= states[up].lowerLimit {
          current := up;
        }
      }
    }
  }

  // ---------------------------------------------------------------------
  // Convergence
  // ---------------------------------------------------------------------

  /** The highest state whose lower limit is at most the load, or the first state if there is none. */
  ghost predicate IsTarget(states: seq<State>, load: real, t: nat) {
    && t < |states|
    && (t > 0 ==> states[t].lowerLimit <= load)
    && (forall i :: t < i < |states| ==> load < states[i].lowerLimit)
  }

  /** The target exists for every load. */
  function Target(states: seq<State>, load: real): (t: nat)
    requires states != []
    ensures IsTarget(states, load, t)
  {
    var last := |states| - 1;
    if last == 0 || states[last].lowerLimit <= load then last
    else
      var t := Target(states[..last], load);
      assert t > 0 ==> states[t].lowerLimit == states[..last][t].lowerLimit;
      assert forall i :: t < i < last ==> states[i].lowerLimit == states[..last][i].lowerLimit;
      t
  }

  /** Every update moves one step closer to the target. */
  lemma NextApproaches(states: seq<State>, current: nat, load: real, t: nat)
    requires Ordered(states) && current < |states| && IsTarget(states, load, t)
    ensures Next(states, current, load) ==
            if current < t then current + 1 else if current > t then current - 1 else current
  {
    if current < t {
      assert states[current].lowerLimit < states[t].lowerLimit;
      assert current + 1 < t ==> states[current + 1].lowerLimit < states[t].lowerLimit;
    }
  }

  function Steady(load: real, n: nat): seq<real> {
    seq(n, _ => load)
  }

  function Distance(a: nat, b: nat): nat {
    if a < b then b - a else a - b
  }

  lemma {:induction false} SteadyRun(states: seq<State>, current: nat, load: real, t: nat, n: nat)
    requires Ordered(states) && current < |states| && IsTarget(states, load, t)
    ensures Distance(Run(states, current, Steady(load, n)), t) ==
            if n < Distance(current, t) then Distance(current, t) - n else 0
  {
    if n > 0 {
      assert Steady(load, n)[..n - 1] == Steady(load, n - 1);
      SteadyRun(states, current, load, t, n - 1);
      NextApproaches(states, Run(states, current, Steady(load, n - 1)), load, t);
    }
  }

  /**
   * Under constant load the machine is in the target state exactly from the update on whose number
   * is the distance to it, which is at most |states| - 1.
   */
  lemma Converges(states: seq<State>, current: nat, load: real, n: nat)
    requires Ordered(states) && current < |states|
    ensures var t := Target(states, load);
      && IsTarget(states, load, t)
      && (Run(states, current, Steady(load, n)) == t <==> n >= Distance(current, t))
      && Distance(current, t) <= |states| - 1
  {
    SteadyRun(states, current, load, Target(states, load), n);
  }

  // ---------------------------------------------------------------------
  // Two runs
  // ---------------------------------------------------------------------

  lemma NextMonotone(states: seq<State>, i: nat, j: nat, x: real, y: real)
    requires Ordered(states) && i <= j < |states| && x <= y
    ensures Next(states, i, x) <= Next(states, j, y)
  {
  }

  /** Pointwise ordered load histories lead to ordered states at every step. */
  lemma {:induction false} RunMonotone(states: seq<State>, i: nat, j: nat, x: seq<real>, y: seq<real>)
    requires Ordered(states) && i <= j < |states|
    requires |x| == |y| && forall k :: 0 <= k < |x| ==> x[k] <= y[k]
    ensures Run(states, i, x) <= Run(states, j, y)
  {
    if x != [] {
      var n := |x| - 1;
      RunMonotone(states, i, j, x[..n], y[..n]);
      NextMonotone(states, Run(states, i, x[..n]), Run(states, j, y[..n]), x[n], y[n]);
    }
  }

  /** Higher states have longer off times. */
  ghost predicate Restrictive(states: seq<State>) {
    forall i, j :: 0 <= i <= j < |states| ==> states[i].offTime <= states[j].offTime
  }

  lemma EtsiStates(states: seq<State>)
    requires states == ETSI_STATES_1MS || states == ETSI_STATES_500US
    ensures |states| == 5 && Ordered(states) && Restrictive(states)
  {
  }

  /** With either standard mapping, a station on a channel that is never busier never has to wait longer. */
  lemma EtsiIntervalMonotone(states: seq<State>, x: seq<real>, y: seq<real>)
    requires states == ETSI_STATES_1MS || states == ETSI_STATES_500US
    requires |x| == |y| && forall k :: 0 <= k < |x| ==> x[k] <= y[k]
    ensures Ordered(states) && Restrictive(states)
    ensures states[Run(states, 0, x)].offTime <= states[Run(states, 0, y)].offTime
  {
    EtsiStates(states);
    hide Ordered, Run;
    RunMonotone(states, 0, 0, x, y);
  }
}
