/**
 * FullyMeshedStateMachine: reactive rate control of ETSI TS 102 687 v1.1.1.
 *
 * Channel loads are reals within [0, 1], intervals are microseconds.
 */
module FullyMeshedStateMachine {

  const N_SAMPLES_UP: nat := 10
  const N_SAMPLES_DOWN: nat := 50
  const MIN_CHANNEL_LOAD: real := 0.19
  const MAX_CHANNEL_LOAD: real := 0.59
  const SUBSTATE_LOADS: seq<real> := [0.27, 0.35, 0.43, 0.51, 0.59]
  const ACTIVE_INTERVALS: seq<int> := [100_000, 180_000, 260_000, 340_000, 420_000]

  type Load = x: real | 0.0 <= x <= 1.0

  datatype State = Relaxed | Active(substate: nat) | Restrictive

  /** Interval between two transmissions advised by a state. */
  function TransmissionInterval(s: State): int {
    match s
    case Relaxed => 60_000
    case Active(k) => ACTIVE_INTERVALS[if k < |ACTIVE_INTERVALS| then k else |ACTIVE_INTERVALS| - 1]
    case Restrictive => 460_000
  }

  // ---------------------------------------------------------------------
  // Declarative reading of the two sliding windows
  // ---------------------------------------------------------------------

  /** x is the least of the latest `n` samples; zero without any samples. */
  ghost predicate IsWindowMin(loads: seq<Load>, n: nat, x: real) {
    if loads == [] || n == 0 then x == 0.0
    else
      && (exists i :: 0 <= i < n && i < |loads| && loads[i] == x)
      && (forall i :: 0 <= i < n && i < |loads| ==> x <= loads[i])
  }

  /** x is the greatest of the latest `n` samples; zero without any samples. */
  ghost predicate IsWindowMax(loads: seq<Load>, n: nat, x: real) {
    && (x == 0.0 || exists i :: 0 <= i < n && i < |loads| && loads[i] == x)
    && 0.0 <= x
    && (forall i :: 0 <= i < n && i < |loads| ==> loads[i] <= x)
  }

  function WindowMin(loads: seq<Load>, n: nat): (x: Load)
    ensures IsWindowMin(loads, n, x)
  {
    if loads == [] || n == 0 then 0.0
    else if n == 1 || |loads| == 1 then loads[0]
    else
      var rest := WindowMin(loads[1..], n - 1);
      assert forall i :: 1 <= i < |loads| ==> loads[i] == loads[1..][i - 1];
      if loads[0] < rest then loads[0] else rest
  }

  function WindowMax(loads: seq<Load>, n: nat): (x: Load)
    ensures IsWindowMax(loads, n, x)
  {
    if loads == [] || n == 0 then 0.0
    else
      var rest := WindowMax(loads[1..], n - 1);
      assert forall i :: 1 <= i < |loads| ==> loads[i] == loads[1..][i - 1];
      if loads[0] > rest then loads[0] else rest
  }

  /** Number of substate thresholds that are not above the load, i.e. the upper bound's position. */
  function UpperBound(load: real): (k: nat)
    ensures k <= |SUBSTATE_LOADS|
    ensures forall i :: 0 <= i < |SUBSTATE_LOADS| ==> (i < k <==> SUBSTATE_LOADS[i] <= load)
  {
    if load < 0.27 then 0 else if load < 0.35 then 1 else if load < 0.43 then 2
    else if load < 0.51 then 3 else if load < 0.59 then 4 else 5
  }

  /** Active substate selected by the two window extremes. */
  function Substate(minimum: real, maximum: real): nat {
    var up, down := UpperBound(minimum), UpperBound(maximum);
    var k := if up > down then up else down;
    if k > 4 then 4 else k
  }

  /** Transition taken for given window extremes. */
  function Next(s: State, minimum: real, maximum: real): State {
    match s
    case Relaxed =>
      if minimum >= MIN_CHANNEL_LOAD then Active(Substate(minimum, maximum)) else s
    case Restrictive =>
      if maximum < MAX_CHANNEL_LOAD then Active(Substate(minimum, maximum)) else s
    case Active(_) =>
      if maximum < MIN_CHANNEL_LOAD then Relaxed
      else if minimum >= MAX_CHANNEL_LOAD then Restrictive
      else Active(Substate(minimum, maximum))
  }

  /** Circular buffer filled at its front: the oldest sample falls off the back. */
  function PushFront(loads: seq<Load>, load: Load): seq<Load> {
    ([load] + loads)[..if |loads| < N_SAMPLES_DOWN then |loads| + 1 else N_SAMPLES_DOWN]
  }

  function Update(s: State, loads: seq<Load>, load: Load): (State, seq<Load>) {
    var window := PushFront(loads, load);
    (Next(s, WindowMin(window, N_SAMPLES_UP), WindowMax(window, N_SAMPLES_DOWN)), window)
  }

  /** State machine and its samples after a whole history of channel loads, oldest first. */
  function Run(history: seq<Load>): (State, seq<Load>) {
    if history == [] then (Relaxed, [])
    else
      var (s, loads) := Run(history[..|history| - 1]);
      Update(s, loads, history[|history| - 1])
  }

  class StateMachine {
    var state: State
    var channelLoads: seq<Load>

    constructor ()
      ensures (state, channelLoads) == Run([])
    {
      state, channelLoads := Relaxed, [];
    }

    method MinChannelLoad() returns (minimum: Load)
      ensures IsWindowMin(channelLoads, N_SAMPLES_UP, minimum)
    {
      // nothing found yet stands for the infinity that the accumulator starts with
      var found := false;
      minimum := 0.0;
      for i := 0 to if |channelLoads| < N_SAMPLES_UP then |channelLoads| else N_SAMPLES_UP
        invariant found <==> i > 0
        invariant found ==> exists j :: 0 <= j < i && channelLoads[j] == minimum
        invariant found ==> forall j :: 0 <= j < i ==> minimum <= channelLoads[j]
        invariant !found ==> minimum == 0.0
      {
        if !found || channelLoads[i] < minimum {
          minimum, found := channelLoads[i], true;
        }
      }
    }

    method MaxChannelLoad() returns (maximum: Load)
      ensures IsWindowMax(channelLoads, N_SAMPLES_DOWN, maximum)
    {
      maximum := 0.0;
      for i := 0 to if |channelLoads| < N_SAMPLES_DOWN then |channelLoads| else N_SAMPLES_DOWN
        invariant maximum == 0.0 || exists j :: 0 <= j < i && channelLoads[j] == maximum
        invariant forall j :: 0 <= j < i ==> channelLoads[j] <= maximum
      {
        if channelLoads[i] > maximum {
          maximum := channelLoads[i];
        }
      }
    }

    method UpdateLoad(load: Load)
      modifies this
      ensures (state, channelLoads) == Update(old(state), old(channelLoads), load)
    {
      channelLoads := PushFront(channelLoads, load);
      var minimum := MinChannelLoad();
      var maximum := MaxChannelLoad();
      ExtremesUnique(channelLoads, minimum, maximum);
      match state {
        case Relaxed =>
          if minimum >= MIN_CHANNEL_LOAD {
            state := Active(Substate(minimum, maximum));
          }
        case Restrictive =>
          if maximum < MAX_CHANNEL_LOAD {
            state := Active(Substate(minimum, maximum));
          }
        case Active(_) =>
          if maximum < MIN_CHANNEL_LOAD {
            state := Relaxed;
          } else if minimum >= MAX_CHANNEL_LOAD {
            state := Restrictive;
          } else {
            state := Active(Substate(minimum, maximum));
          }
      }
    }
  }

  lemma ExtremesUnique(loads: seq<Load>, minimum: real, maximum: real)
    requires IsWindowMin(loads, N_SAMPLES_UP, minimum) && IsWindowMax(loads, N_SAMPLES_DOWN, maximum)
    ensures minimum == WindowMin(loads, N_SAMPLES_UP) && maximum == WindowMax(loads, N_SAMPLES_DOWN)
  {
    var a, b := WindowMin(loads, N_SAMPLES_UP), WindowMax(loads, N_SAMPLES_DOWN);
    assert IsWindowMin(loads, N_SAMPLES_UP, a) && IsWindowMax(loads, N_SAMPLES_DOWN, b);
  }

  // ---------------------------------------------------------------------
  // States over histories
  // ---------------------------------------------------------------------

  /** Index of the first one of the latest n samples of a history. */
  function First(history: seq<Load>, n: nat): nat {
    if n < |history| then |history| - n else 0
  }

  /** All of the latest n samples reach a load. */
  ghost predicate LatestReach(history: seq<Load>, n: nat, load: real) {
    forall i :: First(history, n) <= i < |history| ==> load <= history[i]
  }

  /** All of the latest n samples are below a load. */
  ghost predicate LatestBelow(history: seq<Load>, n: nat, load: real) {
    forall i :: First(history, n) <= i < |history| ==> history[i] < load
  }

  /** The buffer holds the latest fifty samples, the latest one first. */
  lemma {:induction false} WindowIsLatest(history: seq<Load>)
    ensures var w := Run(history).1;
      && |w| == |history| - First(history, N_SAMPLES_DOWN)
      && forall i :: 0 <= i < |w| ==> w[i] == history[|history| - 1 - i]
  {
    if history != [] {
      var init := history[..|history| - 1];
      WindowIsLatest(init);
      var w := Run(init).1;
      assert Run(history).1 == PushFront(w, history[|history| - 1]);
      hide Run;
      PushLatest(w, init, history[|history| - 1]);
      assert init + [history[|history| - 1]] == history;
    }
  }

  lemma PushLatest(w: seq<Load>, history: seq<Load>, load: Load)
    requires |w| == |history| - First(history, N_SAMPLES_DOWN)
    requires forall i :: 0 <= i < |w| ==> w[i] == history[|history| - 1 - i]
    ensures var w', all := PushFront(w, load), history + [load];
      && |w'| == |all| - First(all, N_SAMPLES_DOWN)
      && forall i :: 0 <= i < |w'| ==> w'[i] == all[|all| - 1 - i]
  {
    var w', all := PushFront(w, load), history + [load];
    forall i | 0 <= i < |w'|
      ensures w'[i] == all[|all| - 1 - i]
    {
      assert i > 0 ==> w'[i] == w[i - 1];
    }
  }

  /** What the window extremes say about the latest samples. */
  lemma ExtremesMeaning(history: seq<Load>, load: real)
    requires history != [] && load > 0.0
    ensures var w := Run(history).1;
      && (WindowMin(w, N_SAMPLES_UP) >= load <==> LatestReach(history, N_SAMPLES_UP, load))
      && (WindowMax(w, N_SAMPLES_DOWN) < load <==> LatestBelow(history, N_SAMPLES_DOWN, load))
  {
    WindowIsLatest(history);
    var w, last := Run(history).1, |history| - 1;
    hide Run;
    assert IsWindowMin(w, N_SAMPLES_UP, WindowMin(w, N_SAMPLES_UP));
    assert IsWindowMax(w, N_SAMPLES_DOWN, WindowMax(w, N_SAMPLES_DOWN));
    hide WindowMin, WindowMax;
    assert forall i :: First(history, N_SAMPLES_DOWN) <= i <= last ==> history[i] == w[last - i];
  }

  /**
   * How states are left. Relaxed is left iff all of the latest ten samples reach the lower limit, Restrictive iff
   * all of the latest fifty are below the upper limit. Active is left downwards iff all of the latest fifty are below
   * the lower limit, and upwards iff all of the latest ten reach the upper limit.
   */
  lemma TransitionMeaning(history: seq<Load>, load: Load)
    ensures var before, all := Run(history).0, history + [load];
      var after := Run(all).0;
      match before
      case Relaxed => if LatestReach(all, 10, 0.19) then after.Active? else after.Relaxed?
      case Restrictive => if LatestBelow(all, 50, 0.59) then after.Active? else after.Restrictive?
      case Active(_) =>
        && (after.Relaxed? <==> LatestBelow(all, 50, 0.19))
        && (after.Restrictive? <==> LatestReach(all, 10, 0.59))
  {
    var all := history + [load];
    assert all[..|all| - 1] == history && all[|all| - 1] == load;
    ExtremesMeaning(all, 0.19);
    ExtremesMeaning(all, 0.59);
    hide WindowMin, WindowMax, Substate;
    assert LatestBelow(all, 50, 0.19) ==> all[|all| - 1] < 0.19;
    assert LatestReach(all, 10, 0.59) ==> 0.59 <= all[|all| - 1];
  }

  /**
   * In every run that ends in an active state, its substate is the number of thresholds that some of the latest fifty
   * samples reaches, except that the last threshold does not count.
   */
  lemma SubstateMeaning(history: seq<Load>)
    requires Run(history).0.Active?
    ensures var k := Run(history).0.substate;
      && k <= 4
      && (k > 0 ==> !LatestBelow(history, 50, SUBSTATE_LOADS[k - 1]))
      && (k < 4 ==> LatestBelow(history, 50, SUBSTATE_LOADS[k]))
  {
    var k := Run(history).0.substate;
    var w := Run(history).1;
    MinBelowMax(w);
    ActiveIsSubstate(history);
    hide Run, WindowMin, WindowMax;
    if k > 0 {
      ExtremesMeaning(history, SUBSTATE_LOADS[k - 1]);
    }
    if k < 4 {
      ExtremesMeaning(history, SUBSTATE_LOADS[k]);
    }
  }

  /** The interval starts at 60 ms, is 100 ms when active and grows by 80 ms per substate, up to 460 ms. */
  lemma IntervalMeaning(history: seq<Load>)
    ensures var s := Run(history).0;
      TransmissionInterval(s) ==
      if s.Relaxed? then 60_000 else if s.Restrictive? then 460_000 else 100_000 + 80_000 * s.substate
  {
    if Run(history).0.Active? {
      SubstateMeaning(history);
    }
    hide Run;
  }

  lemma ActiveIsSubstate(history: seq<Load>)
    requires Run(history).0.Active?
    ensures history != []
    ensures var w := Run(history).1;
      Run(history).0.substate == Substate(WindowMin(w, N_SAMPLES_UP), WindowMax(w, N_SAMPLES_DOWN))
  {
    hide WindowMin, WindowMax, Substate;
  }

  // ---------------------------------------------------------------------
  // Two runs
  // ---------------------------------------------------------------------

  /** The first history never reports a heavier load than the second one. */
  ghost predicate Lighter(a: seq<Load>, b: seq<Load>) {
    |a| == |b| && forall i :: 0 <= i < |a| ==> a[i] <= b[i]
  }

  /** Order of restrictiveness, which is the order of transmission intervals. */
  predicate AtMost(s: State, t: State) {
    match (s, t)
    case (Relaxed, _) => true
    case (_, Restrictive) => true
    case (Active(j), Active(k)) => j <= k <= 4
    case (_, _) => false
  }

  lemma AtMostInterval(s: State, t: State)
    requires AtMost(s, t)
    ensures TransmissionInterval(s) <= TransmissionInterval(t)
  {
  }

  lemma ExtremesMonotone(a: seq<Load>, b: seq<Load>)
    requires Lighter(a, b)
    ensures WindowMin(a, N_SAMPLES_UP) <= WindowMin(b, N_SAMPLES_UP)
    ensures WindowMax(a, N_SAMPLES_DOWN) <= WindowMax(b, N_SAMPLES_DOWN)
  {
  }

  lemma MinBelowMax(a: seq<Load>)
    ensures WindowMin(a, N_SAMPLES_UP) <= WindowMax(a, N_SAMPLES_DOWN)
  {
  }

  /** A heavier load never leads from a more restrictive state to a less restrictive one than a lighter load. */
  lemma NextMonotone(s: State, t: State, min1: real, max1: real, min2: real, max2: real)
    requires AtMost(s, t)
    requires min1 <= max1 && min2 <= max2 && min1 <= min2 && max1 <= max2
    ensures AtMost(Next(s, min1, max1), Next(t, min2, max2))
  {
    assert UpperBound(min1) <= UpperBound(max1) <= UpperBound(max2);
    assert Substate(min1, max1) <= Substate(min2, max2) <= 4;
  }

  lemma {:induction false} RunMonotone(a: seq<Load>, b: seq<Load>)
    requires Lighter(a, b)
    ensures AtMost(Run(a).0, Run(b).0) && Lighter(Run(a).1, Run(b).1)
  {
    if a != [] {
      RunMonotone(a[..|a| - 1], b[..|b| - 1]);
      var (s, x) := Run(a[..|a| - 1]);
      var (t, y) := Run(b[..|b| - 1]);
      var x', y' := PushFront(x, a[|a| - 1]), PushFront(y, b[|b| - 1]);
      ExtremesMonotone(x', y');
      MinBelowMax(x');
      MinBelowMax(y');
      NextMonotone(s, t, WindowMin(x', N_SAMPLES_UP), WindowMax(x', N_SAMPLES_DOWN),
                   WindowMin(y', N_SAMPLES_UP), WindowMax(y', N_SAMPLES_DOWN));
    }
  }

  /** A channel that is never busier never leads to a longer transmission interval, at any step. */
  lemma IntervalMonotone(a: seq<Load>, b: seq<Load>, n: nat)
    requires Lighter(a, b) && n <= |a|
    ensures TransmissionInterval(Run(a[..n]).0) <= TransmissionInterval(Run(b[..n]).0)
  {
    RunMonotone(a[..n], b[..n]);
    AtMostInterval(Run(a[..n]).0, Run(b[..n]).0);
  }

  // ---------------------------------------------------------------------
  // Forgetting the past
  // ---------------------------------------------------------------------

  /** State that belongs to a steady channel load: the thresholds up to the load are counted. */
  function Settled(load: Load): State {
    if load < MIN_CHANNEL_LOAD then Relaxed
    else if load < MAX_CHANNEL_LOAD then Active(UpperBound(load))
    else Restrictive
  }

  function Steady(load: Load, n: nat): seq<Load> {
    seq(n, _ => load)
  }

  lemma RunMore(history: seq<Load>, load: Load)
    ensures Run(history + [load]) == Update(Run(history).0, Run(history).1, load)
  {
    assert (history + [load])[..|history|] == history;
  }

  /** The latest n samples (as far as the buffer reaches) are all the given load. */
  ghost predicate Leading(w: seq<Load>, load: Load, n: nat) {
    && |w| <= N_SAMPLES_DOWN
    && (n <= |w| || |w| == N_SAMPLES_DOWN)
    && (forall i :: 0 <= i < n && i < |w| ==> w[i] == load)
  }

  lemma PushLeading(w: seq<Load>, load: Load, n: nat)
    requires Leading(w, load, n)
    ensures Leading(PushFront(w, load), load, n + 1)
  {
    forall i | 0 <= i < n + 1 && i < |PushFront(w, load)|
      ensures PushFront(w, load)[i] == load
    {
      assert i > 0 ==> PushFront(w, load)[i] == w[i - 1];
    }
  }

  lemma {:induction false} WindowBounded(history: seq<Load>)
    ensures |Run(history).1| <= N_SAMPLES_DOWN
  {
  }

  /** Steady loads push the past out of the window. */
  lemma {:induction false} WindowSteady(history: seq<Load>, load: Load, n: nat)
    ensures Leading(Run(history + Steady(load, n)).1, load, n)
  {
    hide Next, WindowMin, WindowMax;
    if n == 0 {
      WindowBounded(history + Steady(load, n));
    } else {
      WindowSteady(history, load, n - 1);
      SteadyMore(history, load, n);
      PushLeading(Run(history + Steady(load, n - 1)).1, load, n - 1);
    }
  }

  lemma SteadyMore(history: seq<Load>, load: Load, n: nat)
    requires n > 0
    ensures var r := Run(history + Steady(load, n - 1)); Run(history + Steady(load, n)) == Update(r.0, r.1, load)
  {
    assert history + Steady(load, n) == (history + Steady(load, n - 1)) + [load];
    RunMore(history + Steady(load, n - 1), load);
  }

  lemma SteadyExtremes(w: seq<Load>, load: Load, n: nat)
    requires Leading(w, load, n) && n >= N_SAMPLES_DOWN
    ensures WindowMin(w, N_SAMPLES_UP) == load && WindowMax(w, N_SAMPLES_DOWN) == load
  {
    assert w[0] == load;
  }

  /** From the fiftieth equal sample on, every transition is governed by that load alone. */
  lemma SteadyNext(history: seq<Load>, load: Load, n: nat)
    requires n >= N_SAMPLES_DOWN
    ensures Run(history + Steady(load, n)).0 == Next(Run(history + Steady(load, n - 1)).0, load, load)
  {
    SteadyMore(history, load, n);
    WindowSteady(history, load, n);
    SteadyExtremes(Run(history + Steady(load, n)).1, load, n);
  }

  /** Two transitions under the same load lead to its state, and further ones stay there. */
  lemma TwoStepsSettle(s: State, load: Load)
    ensures Next(Next(s, load, load), load, load) == Settled(load)
    ensures Next(Settled(load), load, load) == Settled(load)
  {
  }

  /**
   * Whatever happened before, 51 equal samples in a row (5.1 s) bring the machine into the state
   * of that load, and it stays there for as long as the load does.
   */
  lemma {:induction false} ForgetsThePast(history: seq<Load>, load: Load, n: nat)
    requires n > N_SAMPLES_DOWN
    ensures Run(history + Steady(load, n)).0 == Settled(load)
  {
    hide Run;
    SteadyNext(history, load, n);
    TwoStepsSettle(Run(history + Steady(load, n - 2)).0, load);
    hide Next, Settled;
    if n > N_SAMPLES_DOWN + 1 {
      ForgetsThePast(history, load, n - 1);
    } else {
      SteadyNext(history, load, n - 1);
    }
  }
}
