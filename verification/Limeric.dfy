/**
 * Limeric: adaptive rate control of section 5.4 of ETSI TS 102 687 v1.2.1,
 * optionally with dual-alpha convergence.
 *
 * Values of UnitInterval and ChannelLoad are reals within [0, 1], without rounding.
 */
module Limeric {
  import opened Runtime

  type Unit = x: real | 0.0 <= x <= 1.0

  datatype Parameters = Parameters(alpha: Unit, beta: Unit, deltaMax: Unit, deltaMin: Unit,
                                   gPlusMax: real, gMinusMax: real, cbrTarget: Unit, cbrInterval: int)

  /** Parameters of TS 102 687 v1.2.1, Table 3 */
  const DEFAULT_PARAMETERS: Parameters :=
    Parameters(0.016, 0.0012, 0.03, 0.0006, 0.0005, -0.00025, 0.68, 100_000)

  datatype DualAlpha = Off | On(alternateAlpha: Unit, threshold: Unit)

  function Clamp(x: real): Unit {
    if x > 1.0 then 1.0 else if x < 0.0 then 0.0 else x
  }

  function Min(a: real, b: real): real {
    if b < a then b else a
  }

  function Max(a: real, b: real): real {
    if a < b then b else a
  }

  function Abs(x: real): real {
    if x < 0.0 then -x else x
  }

  /** Multiplication under a name, so that proofs can treat products as opaque values. */
  function Times(a: real, b: real): real {
    a * b
  }

  // ---------------------------------------------------------------------
  // Pure computations
  // ---------------------------------------------------------------------

  /** Moving average of the channel load, last two measurements, and permitted duty cycle. */
  datatype Controller = Controller(channelLoad: Unit, cbr: seq<Unit>, dutyCycle: Unit)

  /** State set by the constructor: nothing measured, and the duty cycle in the middle of the permitted range. */
  function Initial(p: Parameters): Controller {
    Controller(0.0, [], Clamp(0.5 * (p.deltaMax + p.deltaMin)))
  }

  /** Mean of at most two measurements. */
  function Mean(cbr: seq<Unit>): Unit
    requires |cbr| <= 2
  {
    if cbr == [] then 0.0 else if |cbr| == 1 then cbr[0] else 0.5 * cbr[0] + 0.5 * cbr[1]
  }

  function AverageCbr(c: Controller): Unit
    requires |c.cbr| <= 2
  {
    if |c.cbr| == 2 then 0.5 * Mean(c.cbr) + 0.5 * c.channelLoad else c.channelLoad
  }

  function UpdateCbr(c: Controller, cbr: Unit): Controller
    requires |c.cbr| <= 2
  {
    if |c.cbr| == 2 then c.(cbr := [c.cbr[1], cbr])
    else c.(cbr := c.cbr + [cbr], channelLoad := Mean(c.cbr + [cbr]))
  }

  /** Bounded share of the deviation from the target load. */
  function Offset(p: Parameters, load: Unit): real {
    var delta := p.cbrTarget - load;
    if delta > 0.0 then Min(Times(p.beta, delta), p.gPlusMax) else Max(Times(p.beta, delta), p.gMinusMax)
  }

  /** Duty cycle for a given alpha, limited to the permitted range. */
  function Adapt(p: Parameters, alpha: Unit, dutyCycle: Unit, offset: real): Unit {
    Limit(p, Times(1.0 - alpha, dutyCycle) + offset)
  }

  function Limit(p: Parameters, x: real): Unit {
    Min(Max(Clamp(x), p.deltaMin), p.deltaMax)
  }

  function NextDutyCycle(p: Parameters, dual: DualAlpha, dutyCycle: Unit, offset: real): Unit {
    var delta := Adapt(p, p.alpha, dutyCycle, offset);
    if dual.On? && Clamp(dutyCycle - delta) > dual.threshold
    then Adapt(p, dual.alternateAlpha, dutyCycle, offset)
    else delta
  }

  function Calculate(p: Parameters, dual: DualAlpha, c: Controller): Controller
    requires |c.cbr| <= 2
  {
    var load := AverageCbr(c);
    Controller(load, c.cbr, NextDutyCycle(p, dual, c.dutyCycle, Offset(p, load)))
  }

  // ---------------------------------------------------------------------
  // Whole runs
  // ---------------------------------------------------------------------

  datatype Input = Measured(cbr: Unit) | Period

  function Step(p: Parameters, dual: DualAlpha, c: Controller, i: Input): (r: Controller)
    requires |c.cbr| <= 2
    ensures |r.cbr| <= 2
  {
    match i
    case Measured(cbr) => UpdateCbr(c, cbr)
    case Period => Calculate(p, dual, c)
  }

  function Run(p: Parameters, dual: DualAlpha, c: Controller, inputs: seq<Input>): (r: Controller)
    requires |c.cbr| <= 2
    ensures |r.cbr| <= 2
  {
    if inputs == [] then c
    else Step(p, dual, Run(p, dual, c, inputs[..|inputs| - 1]), inputs[|inputs| - 1])
  }

  function Periods(inputs: seq<Input>): nat {
    if inputs == [] then 0
    else Periods(inputs[..|inputs| - 1]) + if inputs[|inputs| - 1].Period? then 1 else 0
  }

  // ---------------------------------------------------------------------
  // Runs of a new controller, told by their inputs
  // ---------------------------------------------------------------------

  /** All measurements, in the order in which they were made. */
  function Measurements(inputs: seq<Input>): seq<Unit> {
    if inputs == [] then []
    else
      var last := inputs[|inputs| - 1];
      Measurements(inputs[..|inputs| - 1]) + if last.Measured? then [last.cbr] else []
  }

  /** The last two elements, or fewer if there are not as many. */
  function LastTwo(s: seq<Unit>): (r: seq<Unit>)
    ensures |r| <= 2
  {
    s[if |s| > 2 then |s| - 2 else 0..]
  }

  /**
   * Channel load that the inputs lead to. The first two measurements set it to their mean. From then on, each period
   * sets it to half of the mean of the last two measurements plus half of its former value.
   */
  function FilteredLoad(inputs: seq<Input>): Unit {
    if inputs == [] then 0.0
    else
      var init, last := inputs[..|inputs| - 1], inputs[|inputs| - 1];
      var n := |Measurements(init)|;
      match last
      case Measured(cbr) =>
        if n == 0 then cbr else if n == 1 then 0.5 * Measurements(init)[0] + 0.5 * cbr else FilteredLoad(init)
      case Period =>
        if n < 2 then FilteredLoad(init)
        else 0.25 * Measurements(init)[n - 1] + 0.25 * Measurements(init)[n - 2] + 0.5 * FilteredLoad(init)
  }

  lemma MeasuredOfInputs(c: Controller, inputs: seq<Input>)
    requires inputs != [] && inputs[|inputs| - 1].Measured?
    requires var init := inputs[..|inputs| - 1];
      c.cbr == LastTwo(Measurements(init)) && c.channelLoad == FilteredLoad(init)
    ensures var r := UpdateCbr(c, inputs[|inputs| - 1].cbr);
      r.cbr == LastTwo(Measurements(inputs)) && r.channelLoad == FilteredLoad(inputs)
  {
  }

  lemma PeriodOfInputs(c: Controller, inputs: seq<Input>)
    requires inputs != [] && inputs[|inputs| - 1].Period?
    requires var init := inputs[..|inputs| - 1];
      c.cbr == LastTwo(Measurements(init)) && c.channelLoad == FilteredLoad(init)
    ensures c.cbr == LastTwo(Measurements(inputs)) && AverageCbr(c) == FilteredLoad(inputs)
  {
  }

  /** The buffer holds the last two measurements, and the channel load is the filtered one. */
  lemma {:induction false} LoadOfInputs(p: Parameters, dual: DualAlpha, inputs: seq<Input>)
    ensures var r := Run(p, dual, Initial(p), inputs);
      r.cbr == LastTwo(Measurements(inputs)) && r.channelLoad == FilteredLoad(inputs)
  {
    if inputs != [] {
      var c := Run(p, dual, Initial(p), inputs[..|inputs| - 1]);
      LoadOfInputs(p, dual, inputs[..|inputs| - 1]);
      hide NextDutyCycle, Offset, LastTwo, Measurements, FilteredLoad, AverageCbr, UpdateCbr;
      if inputs[|inputs| - 1].Measured? {
        MeasuredOfInputs(c, inputs);
      } else {
        PeriodOfInputs(c, inputs);
      }
    }
  }

  /** The value between two limits that is nearest to v. */
  ghost predicate Nearest(low: real, high: real, v: real, r: real) {
    && low <= r <= high
    && (v < low ==> r == low)
    && (v > high ==> r == high)
    && (low <= v <= high ==> r == v)
  }

  lemma OffsetNearest(p: Parameters, load: Unit)
    requires ProperGains(p)
    ensures Nearest(p.gMinusMax, p.gPlusMax, Times(p.beta, p.cbrTarget - load), Offset(p, load))
  {
    hide Times;
    TimesSign(p.beta, p.cbrTarget - load);
  }

  lemma LimitNearest(p: Parameters, x: real)
    requires p.deltaMin <= p.deltaMax
    ensures Nearest(p.deltaMin, p.deltaMax, x, Limit(p, x))
  {
  }

  /**
   * A period moves a duty cycle x by the share alpha towards zero and by the limited offset for a load, within the
   * permitted range. If that is a drop by more than the threshold of dual alpha, the alternate alpha is used instead.
   */
  ghost predicate Adapted(p: Parameters, dual: DualAlpha, load: Unit, x: Unit, offset: real, plain: real, y: Unit) {
    && Nearest(p.gMinusMax, p.gPlusMax, Times(p.beta, p.cbrTarget - load), offset)
    && Nearest(p.deltaMin, p.deltaMax, Times(1.0 - p.alpha, x) + offset, plain)
    && if dual.On? && x - plain > dual.threshold
       then Nearest(p.deltaMin, p.deltaMax, Times(1.0 - dual.alternateAlpha, x) + offset, y)
       else y == plain
  }

  lemma NextIsAdapted(p: Parameters, dual: DualAlpha, load: Unit, x: Unit)
    requires ProperGains(p) && p.deltaMin <= p.deltaMax
    ensures var offset := Offset(p, load);
      Adapted(p, dual, load, x, offset, Adapt(p, p.alpha, x, offset), NextDutyCycle(p, dual, x, offset))
  {
    hide Offset, Limit, Times;
    var offset := Offset(p, load);
    OffsetNearest(p, load);
    LimitNearest(p, Times(1.0 - p.alpha, x) + offset);
    if dual.On? {
      LimitNearest(p, Times(1.0 - dual.alternateAlpha, x) + offset);
    }
  }

  /** What a period does to the duty cycle of a new controller after any inputs. */
  lemma DutyCycleOfInputs(p: Parameters, dual: DualAlpha, inputs: seq<Input>) returns (offset: real, plain: real)
    requires ProperGains(p) && p.deltaMin <= p.deltaMax
    ensures var x := Run(p, dual, Initial(p), inputs).dutyCycle;
      var y := Run(p, dual, Initial(p), inputs + [Period]).dutyCycle;
      Adapted(p, dual, FilteredLoad(inputs + [Period]), x, offset, plain, y)
  {
    var all, c := inputs + [Period], Run(p, dual, Initial(p), inputs);
    assert all[..|all| - 1] == inputs && all[|all| - 1] == Period;
    assert Run(p, dual, Initial(p), all) == Calculate(p, dual, c);
    hide Run, FilteredLoad, Offset, NextDutyCycle, Adapt, Adapted;
    LoadOfInputs(p, dual, all);
    offset := Offset(p, FilteredLoad(all));
    plain := Adapt(p, p.alpha, c.dutyCycle, offset);
    NextIsAdapted(p, dual, FilteredLoad(all), c.dutyCycle);
  }

  /** The value x multiplied n times by a factor, i.e. factor^n * x. */
  function Decayed(factor: real, n: nat, x: real): real {
    if n == 0 then x else Times(factor, Decayed(factor, n - 1, x))
  }

  /** Stations hearing the same channel load have the same moving average, whatever their duty cycles are. */
  lemma {:induction false} SameChannelLoad(p: Parameters, d1: DualAlpha, d2: DualAlpha,
                                           a: Controller, b: Controller, inputs: seq<Input>)
    requires |a.cbr| <= 2 && a.cbr == b.cbr && a.channelLoad == b.channelLoad
    ensures Run(p, d1, a, inputs).cbr == Run(p, d2, b, inputs).cbr
    ensures Run(p, d1, a, inputs).channelLoad == Run(p, d2, b, inputs).channelLoad
  {
    if inputs != [] {
      SameChannelLoad(p, d1, d2, a, b, inputs[..|inputs| - 1]);
    }
  }

  // ---------------------------------------------------------------------
  // Range and fairness
  // ---------------------------------------------------------------------

  /** The permitted range holds all duty cycles from the first period on, if it is not empty. */
  lemma {:induction false} StaysInRange(p: Parameters, dual: DualAlpha, c: Controller, inputs: seq<Input>)
    requires |c.cbr| <= 2 && p.deltaMin <= p.deltaMax
    requires p.deltaMin <= c.dutyCycle <= p.deltaMax
    ensures p.deltaMin <= Run(p, dual, c, inputs).dutyCycle <= p.deltaMax
  {
    if inputs != [] {
      StaysInRange(p, dual, c, inputs[..|inputs| - 1]);
    }
  }

  /** Limiting keeps the order and brings values closer together. */
  lemma LimitContracts(p: Parameters, x: real, y: real)
    requires x <= y
    ensures 0.0 <= Limit(p, y) - Limit(p, x) <= y - x
  {
  }

  lemma TimesMonotone(a: real, x: real, y: real)
    requires 0.0 <= a && x <= y
    ensures Times(a, x) <= Times(a, y) && Times(x, a) <= Times(y, a)
  {
  }

  lemma TimesDistributes(a: real, x: real, y: real)
    ensures Times(a, y - x) == Times(a, y) - Times(a, x)
    ensures Times(1.0 - a, x) == x - Times(a, x)
  {
  }

  lemma TimesQuotient(a: real, x: real)
    requires a != 0.0
    ensures Times(a, x / a) == x
  {
    assert x / a * a == x;
  }

  /** One period keeps the order of two stations and brings them closer by the factor 1 - alpha. */
  lemma AdaptContracts(p: Parameters, alpha: Unit, x: Unit, y: Unit, offset: real)
    requires x <= y
    ensures 0.0 <= Adapt(p, alpha, y, offset) - Adapt(p, alpha, x, offset) <= Times(1.0 - alpha, y - x)
  {
    hide Times;
    TimesMonotone(1.0 - alpha, x, y);
    TimesDistributes(1.0 - alpha, x, y);
    LimitContracts(p, Times(1.0 - alpha, x) + offset, Times(1.0 - alpha, y) + offset);
  }

  /** The second station is ahead of the first one by at most the given gap. */
  ghost predicate Ahead(a: Controller, b: Controller, gap: real) {
    && a.cbr == b.cbr && a.channelLoad == b.channelLoad
    && 0.0 <= b.dutyCycle - a.dutyCycle <= gap
  }

  lemma PeriodContracts(p: Parameters, a: Controller, b: Controller, gap: real)
    requires |a.cbr| <= 2 && Ahead(a, b, gap)
    ensures Ahead(Calculate(p, Off, a), Calculate(p, Off, b), Times(1.0 - p.alpha, gap))
  {
    assert AverageCbr(a) == AverageCbr(b);
    hide Times, Offset, Adapt;
    AdaptContracts(p, p.alpha, a.dutyCycle, b.dutyCycle, Offset(p, AverageCbr(a)));
    TimesMonotone(1.0 - p.alpha, b.dutyCycle - a.dutyCycle, gap);
  }

  lemma {:induction false} RunContracts(p: Parameters, a: Controller, b: Controller, gap: real, inputs: seq<Input>)
    requires |a.cbr| <= 2 && Ahead(a, b, gap)
    ensures Ahead(Run(p, Off, a, inputs), Run(p, Off, b, inputs), Decayed(1.0 - p.alpha, Periods(inputs), gap))
  {
    hide Times, Calculate;
    if inputs != [] {
      var init := inputs[..|inputs| - 1];
      RunContracts(p, a, b, gap, init);
      if inputs[|inputs| - 1].Period? {
        PeriodContracts(p, Run(p, Off, a, init), Run(p, Off, b, init), Decayed(1.0 - p.alpha, Periods(init), gap));
      }
    }
  }

  /**
   * Fairness: stations with the same parameters and the same channel load measurements converge.
   * After n periods their duty cycles differ by at most (1 - alpha)^n times the initial difference.
   */
  lemma Fairness(p: Parameters, a: Controller, b: Controller, inputs: seq<Input>)
    requires |a.cbr| <= 2 && a.cbr == b.cbr && a.channelLoad == b.channelLoad
    ensures Abs(Run(p, Off, a, inputs).dutyCycle - Run(p, Off, b, inputs).dutyCycle) <=
            Decayed(1.0 - p.alpha, Periods(inputs), Abs(a.dutyCycle - b.dutyCycle))
  {
    hide Run, Decayed;
    var gap := Abs(a.dutyCycle - b.dutyCycle);
    if a.dutyCycle <= b.dutyCycle {
      RunContracts(p, a, b, gap, inputs);
    } else {
      RunContracts(p, b, a, gap, inputs);
    }
  }

  // ---------------------------------------------------------------------
  // Equilibrium
  // ---------------------------------------------------------------------

  /** Duty cycle that a constant offset leads to. */
  function Equilibrium(p: Parameters, offset: real): Unit
    requires p.alpha > 0.0
  {
    Limit(p, offset / p.alpha)
  }

  lemma EquilibriumIsFixed(p: Parameters, offset: real)
    requires p.alpha > 0.0 && p.deltaMin <= p.deltaMax
    ensures Adapt(p, p.alpha, Equilibrium(p, offset), offset) == Equilibrium(p, offset)
  {
    hide Limit, Times;
    var q := offset / p.alpha;
    TimesQuotient(p.alpha, offset);
    Pull(p.alpha, Limit(p, q), q, offset);
    Pulled(p, q, Times(1.0 - p.alpha, Limit(p, q)) + offset);
  }

  /** Adapting moves from e towards offset / alpha without passing it. */
  lemma Pull(alpha: real, e: real, q: real, offset: real)
    requires 0.0 <= alpha <= 1.0 && Times(alpha, q) == offset
    ensures var x := Times(1.0 - alpha, e) + offset; if e <= q then e <= x <= q else q <= x <= e
  {
    hide Times;
    TimesDistributes(alpha, e, q);
    TimesDistributes(alpha, q, e);
    if e <= q {
      TimesMonotone(alpha, e, q);
      TimesMonotone(1.0 - alpha, e, q);
    } else {
      TimesMonotone(alpha, q, e);
      TimesMonotone(1.0 - alpha, q, e);
    }
  }

  /** Values between a limited value and the original one are limited alike. */
  lemma Pulled(p: Parameters, q: real, x: real)
    requires p.deltaMin <= p.deltaMax
    requires var e := Limit(p, q); if e <= q then e <= x <= q else q <= x <= e
    ensures Limit(p, x) == Limit(p, q)
  {
  }

  /** The filtered channel load does not change any more. */
  ghost predicate Settled(c: Controller, load: Unit) {
    c.cbr == [load, load] && c.channelLoad == load
  }

  ghost predicate Steady(inputs: seq<Input>, load: Unit) {
    forall i :: 0 <= i < |inputs| ==> inputs[i] == Period || inputs[i] == Measured(load)
  }

  lemma {:induction false} StaysSettled(p: Parameters, c: Controller, load: Unit, inputs: seq<Input>)
    requires Settled(c, load) && Steady(inputs, load)
    ensures Settled(Run(p, Off, c, inputs), load)
  {
    if inputs != [] {
      StaysSettled(p, c, load, inputs[..|inputs| - 1]);
    }
  }

  lemma {:induction false} EquilibriumStays(p: Parameters, load: Unit, inputs: seq<Input>)
    requires p.alpha > 0.0 && p.deltaMin <= p.deltaMax && Steady(inputs, load)
    ensures var e := Controller(load, [load, load], Equilibrium(p, Offset(p, load))); Run(p, Off, e, inputs) == e
  {
    if inputs != [] {
      EquilibriumStays(p, load, inputs[..|inputs| - 1]);
      EquilibriumIsFixed(p, Offset(p, load));
    }
  }

  /** Under a steady channel load every station approaches the same equilibrium geometrically. */
  lemma ConvergesToEquilibrium(p: Parameters, c: Controller, load: Unit, inputs: seq<Input>)
    requires p.alpha > 0.0 && p.deltaMin <= p.deltaMax && Settled(c, load) && Steady(inputs, load)
    ensures var e := Equilibrium(p, Offset(p, load));
      Abs(Run(p, Off, c, inputs).dutyCycle - e) <= Decayed(1.0 - p.alpha, Periods(inputs), Abs(c.dutyCycle - e))
  {
    hide Run, Decayed, Offset, Equilibrium;
    var e := Controller(load, [load, load], Equilibrium(p, Offset(p, load)));
    Fairness(p, c, e, inputs);
    EquilibriumStays(p, load, inputs);
  }

  // ---------------------------------------------------------------------
  // A busier channel
  // ---------------------------------------------------------------------

  /** The gain limits are a growth limit and a decline limit. */
  predicate ProperGains(p: Parameters) {
    p.gMinusMax <= 0.0 <= p.gPlusMax
  }

  /** The offset raises the duty cycle below the target load, lowers it above, and is bounded by the gain limits. */
  lemma OffsetBounds(p: Parameters, load: Unit)
    requires ProperGains(p)
    ensures p.gMinusMax <= Offset(p, load) <= p.gPlusMax
    ensures load <= p.cbrTarget ==> Offset(p, load) >= 0.0
    ensures load >= p.cbrTarget ==> Offset(p, load) <= 0.0
    ensures var x := Times(p.beta, p.cbrTarget - load); p.gMinusMax <= x <= p.gPlusMax ==> Offset(p, load) == x
  {
    TimesSign(p.beta, p.cbrTarget - load);
    hide Times;
  }

  lemma TimesSign(a: real, x: real)
    requires 0.0 <= a
    ensures x >= 0.0 ==> Times(a, x) >= 0.0
    ensures x <= 0.0 ==> Times(a, x) <= 0.0
  {
  }

  lemma OffsetAntitone(p: Parameters, x: Unit, y: Unit)
    requires ProperGains(p) && x <= y
    ensures Offset(p, x) >= Offset(p, y)
  {
    TimesSign(p.beta, p.cbrTarget - x);
    TimesSign(p.beta, p.cbrTarget - y);
    TimesMonotone(p.beta, p.cbrTarget - y, p.cbrTarget - x);
    hide Times;
  }

  /** The first run never measures a higher load than the second one. */
  ghost predicate Lighter(a: seq<Input>, b: seq<Input>) {
    && |a| == |b|
    && forall i :: 0 <= i < |a| ==> a[i].Period? == b[i].Period? && (a[i].Measured? ==> a[i].cbr <= b[i].cbr)
  }

  ghost predicate LessBusy(a: Controller, b: Controller) {
    && |a.cbr| == |b.cbr| <= 2
    && (forall i :: 0 <= i < |a.cbr| ==> a.cbr[i] <= b.cbr[i])
    && a.channelLoad <= b.channelLoad
    && a.dutyCycle >= b.dutyCycle
  }

  lemma MeasureLessBusy(a: Controller, b: Controller, x: Unit, y: Unit)
    requires LessBusy(a, b) && x <= y
    ensures LessBusy(UpdateCbr(a, x), UpdateCbr(b, y))
  {
  }

  lemma PeriodLessBusy(p: Parameters, a: Controller, b: Controller)
    requires ProperGains(p) && LessBusy(a, b)
    ensures LessBusy(Calculate(p, Off, a), Calculate(p, Off, b))
  {
    assert AverageCbr(a) <= AverageCbr(b);
    OffsetAntitone(p, AverageCbr(a), AverageCbr(b));
    hide Offset, AverageCbr, Adapt;
    AdaptContracts(p, p.alpha, b.dutyCycle, a.dutyCycle, Offset(p, AverageCbr(b)));
    AdaptOffset(p, p.alpha, a.dutyCycle, Offset(p, AverageCbr(b)), Offset(p, AverageCbr(a)));
  }

  lemma AdaptOffset(p: Parameters, alpha: Unit, x: Unit, low: real, high: real)
    requires low <= high
    ensures Adapt(p, alpha, x, low) <= Adapt(p, alpha, x, high)
  {
    hide Times;
    LimitContracts(p, Times(1.0 - alpha, x) + low, Times(1.0 - alpha, x) + high);
  }

  /** Two runs without dual alpha: a station on a channel that is never busier never gets a smaller duty cycle. */
  lemma {:induction false} LighterLoadHigherDutyCycle(p: Parameters, c: Controller, a: seq<Input>, b: seq<Input>)
    requires ProperGains(p) && |c.cbr| <= 2 && Lighter(a, b)
    ensures LessBusy(Run(p, Off, c, a), Run(p, Off, c, b))
  {
    if a != [] {
      var n := |a| - 1;
      LighterLoadHigherDutyCycle(p, c, a[..n], b[..n]);
      hide LessBusy, Calculate, UpdateCbr;
      if a[n].Period? {
        PeriodLessBusy(p, Run(p, Off, c, a[..n]), Run(p, Off, c, b[..n]));
      } else {
        MeasureLessBusy(Run(p, Off, c, a[..n]), Run(p, Off, c, b[..n]), a[n].cbr, b[n].cbr);
      }
    }
  }

  // ---------------------------------------------------------------------
  // Dual alpha
  // ---------------------------------------------------------------------

  /** A larger alpha leads to a smaller duty cycle. */
  lemma AlphaMonotone(p: Parameters, high: Unit, low: Unit, x: Unit, offset: real)
    requires high >= low
    ensures Adapt(p, high, x, offset) <= Adapt(p, low, x, offset)
  {
    hide Times;
    TimesMonotone(x, 1.0 - high, 1.0 - low);
    LimitContracts(p, Times(1.0 - high, x) + offset, Times(1.0 - low, x) + offset);
  }

  /** Dominance: with alternate alpha >= alpha the dual-alpha duty cycle never exceeds the plain one. */
  lemma {:induction false} DualAlphaDominates(p: Parameters, dual: DualAlpha, c: Controller, inputs: seq<Input>)
    requires |c.cbr| <= 2 && dual.On? && dual.alternateAlpha >= p.alpha
    ensures Run(p, dual, c, inputs).dutyCycle <= Run(p, Off, c, inputs).dutyCycle
  {
    if inputs != [] {
      var init := inputs[..|inputs| - 1];
      DualAlphaDominates(p, dual, c, init);
      if inputs[|inputs| - 1].Period? {
        var x, y := Run(p, dual, c, init), Run(p, Off, c, init);
        SameChannelLoad(p, dual, Off, c, c, init);
        hide Offset, Adapt;
        var offset := Offset(p, AverageCbr(x));
        AdaptContracts(p, p.alpha, x.dutyCycle, y.dutyCycle, offset);
        AlphaMonotone(p, dual.alternateAlpha, p.alpha, x.dutyCycle, offset);
      }
    }
  }

  // ---------------------------------------------------------------------
  // A busier channel with dual alpha
  // ---------------------------------------------------------------------

  /** The duty cycle would drop by more than the threshold, hence the alternate alpha is used. */
  predicate Switches(p: Parameters, dual: DualAlpha, dutyCycle: Unit, offset: real) {
    dual.On? && Clamp(dutyCycle - Adapt(p, p.alpha, dutyCycle, offset)) > dual.threshold
  }

  /** Duty cycle before it is limited to the permitted range. */
  function Unlimited(p: Parameters, dual: DualAlpha, dutyCycle: Unit, offset: real): real {
    var alpha := if Switches(p, dual, dutyCycle, offset) then dual.alternateAlpha else p.alpha;
    Times(1.0 - alpha, dutyCycle) + offset
  }

  /** Two stations use different alphas, and this puts them into reverse order within the permitted range. */
  predicate Reverses(p: Parameters, dual: DualAlpha, x: Unit, high: real, y: Unit, low: real) {
    && Switches(p, dual, x, high) != Switches(p, dual, y, low)
    && Unlimited(p, dual, x, high) < Unlimited(p, dual, y, low)
    && p.deltaMin < p.deltaMax
    && Unlimited(p, dual, x, high) < p.deltaMax
    && p.deltaMin < Unlimited(p, dual, y, low)
  }

  lemma LimitStrict(p: Parameters, x: real, y: real)
    ensures Limit(p, x) < Limit(p, y) <==> x < y && p.deltaMin < p.deltaMax && x < p.deltaMax && p.deltaMin < y
  {
  }

  lemma UnlimitedIsLimited(p: Parameters, dual: DualAlpha, x: Unit, offset: real)
    ensures NextDutyCycle(p, dual, x, offset) == Limit(p, Unlimited(p, dual, x, offset))
  {
    hide Limit, Times;
  }

  /** Stations that use the same alpha keep their order. */
  lemma SameAlphaOrdered(p: Parameters, dual: DualAlpha, x: Unit, y: Unit, high: real, low: real)
    requires x >= y && high >= low && Switches(p, dual, x, high) == Switches(p, dual, y, low)
    ensures Unlimited(p, dual, x, high) >= Unlimited(p, dual, y, low)
  {
    hide Times, Adapt, Clamp;
    TimesMonotone(1.0 - p.alpha, y, x);
    if dual.On? {
      TimesMonotone(1.0 - dual.alternateAlpha, y, x);
    }
  }

  /** One period keeps the order of two duty cycles x >= y if and only if it does not reverse them. */
  lemma DualAlphaOrderedIff(p: Parameters, dual: DualAlpha, x: Unit, y: Unit, high: real, low: real)
    requires x >= y && high >= low
    ensures NextDutyCycle(p, dual, x, high) >= NextDutyCycle(p, dual, y, low) <==> !Reverses(p, dual, x, high, y, low)
  {
    hide NextDutyCycle, Unlimited, Limit, Switches;
    UnlimitedIsLimited(p, dual, x, high);
    UnlimitedIsLimited(p, dual, y, low);
    LimitStrict(p, Unlimited(p, dual, x, high), Unlimited(p, dual, y, low));
    if Switches(p, dual, x, high) == Switches(p, dual, y, low) {
      SameAlphaOrdered(p, dual, x, y, high, low);
    }
  }

  /** If the alternate alpha is the larger one, only the station ahead can be reversed by switching on its own. */
  lemma ReversedBySwitching(p: Parameters, dual: DualAlpha, x: Unit, y: Unit, high: real, low: real)
    requires dual.On? && dual.alternateAlpha >= p.alpha && x >= y && high >= low
    requires Reverses(p, dual, x, high, y, low)
    ensures Switches(p, dual, x, high) && !Switches(p, dual, y, low)
  {
    hide Times, Switches;
    TimesMonotone(1.0 - p.alpha, y, x);
    TimesMonotone(y, 1.0 - dual.alternateAlpha, 1.0 - p.alpha);
    TimesCommutes(y, 1.0 - dual.alternateAlpha);
    TimesCommutes(y, 1.0 - p.alpha);
  }

  lemma TimesCommutes(a: real, b: real)
    ensures Times(a, b) == Times(b, a)
  {
  }

  /** The next period reverses two stations. */
  predicate ReversedNext(p: Parameters, dual: DualAlpha, a: Controller, b: Controller)
    requires |a.cbr| <= 2 && |b.cbr| <= 2
  {
    Reverses(p, dual, a.dutyCycle, Offset(p, AverageCbr(a)), b.dutyCycle, Offset(p, AverageCbr(b)))
  }

  lemma PeriodLessBusyIff(p: Parameters, dual: DualAlpha, a: Controller, b: Controller)
    requires ProperGains(p) && LessBusy(a, b)
    ensures LessBusy(Calculate(p, dual, a), Calculate(p, dual, b)) <==> !ReversedNext(p, dual, a, b)
  {
    assert AverageCbr(a) <= AverageCbr(b);
    OffsetAntitone(p, AverageCbr(a), AverageCbr(b));
    hide Offset, AverageCbr, Reverses, NextDutyCycle;
    DualAlphaOrderedIff(p, dual, a.dutyCycle, b.dutyCycle, Offset(p, AverageCbr(a)), Offset(p, AverageCbr(b)));
  }

  /** No period within two runs reverses them. */
  ghost predicate NeverReversed(p: Parameters, dual: DualAlpha, c: Controller, a: seq<Input>, b: seq<Input>)
    requires |c.cbr| <= 2 && |a| == |b|
  {
    forall n :: 0 <= n < |a| && a[n].Period? ==>
      !ReversedNext(p, dual, Run(p, dual, c, a[..n]), Run(p, dual, c, b[..n]))
  }

  /** Lighter load means higher duty cycle after every prefix of two runs. */
  ghost predicate AlwaysLessBusy(p: Parameters, dual: DualAlpha, c: Controller, a: seq<Input>, b: seq<Input>)
    requires |c.cbr| <= 2 && |a| == |b|
  {
    forall n :: 0 <= n <= |a| ==> LessBusy(Run(p, dual, c, a[..n]), Run(p, dual, c, b[..n]))
  }

  lemma RunNext(p: Parameters, dual: DualAlpha, c: Controller, inputs: seq<Input>, n: nat)
    requires |c.cbr| <= 2 && n < |inputs|
    ensures Run(p, dual, c, inputs[..n + 1]) == Step(p, dual, Run(p, dual, c, inputs[..n]), inputs[n])
  {
    assert inputs[..n + 1][..n] == inputs[..n];
  }

  /** One more input keeps the order, unless it is a period that reverses it. */
  lemma NextLessBusyIff(p: Parameters, dual: DualAlpha, c: Controller, a: seq<Input>, b: seq<Input>, n: nat)
    requires ProperGains(p) && |c.cbr| <= 2 && Lighter(a, b) && n < |a|
    requires LessBusy(Run(p, dual, c, a[..n]), Run(p, dual, c, b[..n]))
    ensures LessBusy(Run(p, dual, c, a[..n + 1]), Run(p, dual, c, b[..n + 1])) <==>
            (a[n].Period? ==> !ReversedNext(p, dual, Run(p, dual, c, a[..n]), Run(p, dual, c, b[..n])))
  {
    var x, y := Run(p, dual, c, a[..n]), Run(p, dual, c, b[..n]);
    hide Run, LessBusy, Calculate, UpdateCbr, ReversedNext;
    RunNext(p, dual, c, a, n);
    RunNext(p, dual, c, b, n);
    if a[n].Period? {
      PeriodLessBusyIff(p, dual, x, y);
    } else {
      MeasureLessBusy(x, y, a[n].cbr, b[n].cbr);
    }
  }

  lemma {:induction false} NeverReversedOrdered(p: Parameters, dual: DualAlpha, c: Controller,
                                                a: seq<Input>, b: seq<Input>, n: nat)
    requires ProperGains(p) && |c.cbr| <= 2 && Lighter(a, b) && n <= |a| && NeverReversed(p, dual, c, a, b)
    ensures LessBusy(Run(p, dual, c, a[..n]), Run(p, dual, c, b[..n]))
  {
    if n > 0 {
      NeverReversedOrdered(p, dual, c, a, b, n - 1);
      hide LessBusy, ReversedNext;
      NextLessBusyIff(p, dual, c, a, b, n - 1);
    }
  }

  /**
   * Two runs, with dual alpha or without: the lighter channel never leads to a smaller duty cycle if and only if no
   * period reverses the two stations.
   */
  lemma LighterLoadOrderedIff(p: Parameters, dual: DualAlpha, c: Controller, a: seq<Input>, b: seq<Input>)
    requires ProperGains(p) && |c.cbr| <= 2 && Lighter(a, b)
    ensures AlwaysLessBusy(p, dual, c, a, b) <==> NeverReversed(p, dual, c, a, b)
  {
    hide Run, LessBusy, ReversedNext;
    if NeverReversed(p, dual, c, a, b) {
      forall n | 0 <= n <= |a|
        ensures LessBusy(Run(p, dual, c, a[..n]), Run(p, dual, c, b[..n]))
      {
        NeverReversedOrdered(p, dual, c, a, b, n);
      }
    }
    if AlwaysLessBusy(p, dual, c, a, b) {
      forall n | 0 <= n < |a| && a[n].Period?
        ensures !ReversedNext(p, dual, Run(p, dual, c, a[..n]), Run(p, dual, c, b[..n]))
      {
        NextLessBusyIff(p, dual, c, a, b, n);
      }
    }
  }

  /** Dual-alpha parameters as proposed */
  const DEFAULT_DUAL_ALPHA: DualAlpha := On(0.1, 0.00001)

  /**
   * With the default parameters, at the target load, the higher one of two duty cycles within the permitted range
   * becomes the lower one. No run that leads to these duty cycles is given.
   */
  lemma DualAlphaReversesStations()
    ensures var offset := Offset(DEFAULT_PARAMETERS, 0.68);
      && NextDutyCycle(DEFAULT_PARAMETERS, DEFAULT_DUAL_ALPHA, 0.00063, offset) == 0.0006
      && NextDutyCycle(DEFAULT_PARAMETERS, DEFAULT_DUAL_ALPHA, 0.000625, offset) == 0.000615
  {
  }

  const FAST_PARAMETERS: Parameters := Parameters(0.5, 1.0, 1.0, 0.0, 1.0, -1.0, 0.5, 100_000)
  const FAST_DUAL_ALPHA: DualAlpha := On(0.9, 0.33)

  function Burst(first: Unit): seq<Input> {
    [Measured(first), Period, Measured(0.7), Measured(0.7), Period]
  }

  lemma RunMore(p: Parameters, dual: DualAlpha, c: Controller, inputs: seq<Input>, i: Input)
    requires |c.cbr| <= 2
    ensures Run(p, dual, c, inputs + [i]) == Step(p, dual, Run(p, dual, c, inputs), i)
  {
    assert (inputs + [i])[..|inputs|] == inputs;
  }

  lemma RunBurst(p: Parameters, dual: DualAlpha, c: Controller, first: Unit)
    requires |c.cbr| <= 2
    ensures var q := Calculate(p, dual, UpdateCbr(c, first));
      Run(p, dual, c, Burst(first)) == Calculate(p, dual, UpdateCbr(UpdateCbr(q, 0.7), 0.7))
  {
    assert Run(p, dual, c, []) == c;
    hide Run, Calculate, UpdateCbr;
    RunMore(p, dual, c, [], Measured(first));
    RunMore(p, dual, c, [] + [Measured(first)], Period);
    RunMore(p, dual, c, [] + [Measured(first)] + [Period], Measured(0.7));
    RunMore(p, dual, c, [] + [Measured(first)] + [Period] + [Measured(0.7)], Measured(0.7));
    RunMore(p, dual, c, [] + [Measured(first)] + [Period] + [Measured(0.7)] + [Measured(0.7)], Period);
    assert [] + [Measured(first)] + [Period] + [Measured(0.7)] + [Measured(0.7)] + [Period] == Burst(first);
  }

  function FastDutyCycle(x: Unit, load: Unit): Unit {
    NextDutyCycle(FAST_PARAMETERS, FAST_DUAL_ALPHA, x, Offset(FAST_PARAMETERS, load))
  }

  lemma FastAdapt(alpha: Unit, x: Unit, load: Unit)
    ensures Adapt(FAST_PARAMETERS, alpha, x, Offset(FAST_PARAMETERS, load)) == Clamp((1.0 - alpha) * x + 0.5 - load)
  {
  }

  lemma FastDutyCycles()
    ensures FastDutyCycle(0.5, 0.25) == 0.5 && FastDutyCycle(0.5, 0.5875) == 0.0
    ensures FastDutyCycle(0.5, 0.35) == 0.4 && FastDutyCycle(0.4, 0.6125) == 0.0875
  {
    hide Adapt, Offset;
    FastAdapt(0.5, 0.5, 0.25);
    FastAdapt(0.5, 0.5, 0.5875);
    FastAdapt(0.9, 0.5, 0.5875);
    FastAdapt(0.5, 0.5, 0.35);
    FastAdapt(0.5, 0.4, 0.6125);
  }

  /** Two measurements after the first period, and their effect. */
  lemma SecondPeriod(c: Controller, x: Unit)
    requires |c.cbr| == 1 && c.cbr[0] == c.channelLoad && x == 0.75 * 0.7 + 0.25 * c.channelLoad
    ensures Calculate(FAST_PARAMETERS, FAST_DUAL_ALPHA, UpdateCbr(UpdateCbr(c, 0.7), 0.7)).dutyCycle ==
            FastDutyCycle(c.dutyCycle, x)
  {
    hide NextDutyCycle, Offset;
    var q := UpdateCbr(UpdateCbr(c, 0.7), 0.7);
    assert AverageCbr(q) == x;
  }

  lemma BurstResult(c: Controller, first: Unit, x: Unit)
    requires c == Initial(FAST_PARAMETERS) && x == 0.75 * 0.7 + 0.25 * first
    ensures Run(FAST_PARAMETERS, FAST_DUAL_ALPHA, c, Burst(first)).dutyCycle ==
            FastDutyCycle(FastDutyCycle(0.5, first), x)
  {
    hide Run, NextDutyCycle, Offset;
    RunBurst(FAST_PARAMETERS, FAST_DUAL_ALPHA, c, first);
    var q := Calculate(FAST_PARAMETERS, FAST_DUAL_ALPHA, UpdateCbr(c, first));
    assert q == Controller(first, [first], FastDutyCycle(0.5, first));
    SecondPeriod(q, x);
  }

  /** Two runs of new controllers, the first one on the lighter channel: it ends with the smaller duty cycle. */
  lemma LighterLoadLowerDutyCycle(c: Controller)
    requires c == Initial(FAST_PARAMETERS)
    ensures Lighter(Burst(0.25), Burst(0.35))
    ensures Run(FAST_PARAMETERS, FAST_DUAL_ALPHA, c, Burst(0.25)).dutyCycle <
            Run(FAST_PARAMETERS, FAST_DUAL_ALPHA, c, Burst(0.35)).dutyCycle
  {
    FastDutyCycles();
    hide Run, FastDutyCycle;
    BurstResult(c, 0.25, 0.5875);
    BurstResult(c, 0.35, 0.6125);
  }

  // ---------------------------------------------------------------------
  // Scheduling
  // ---------------------------------------------------------------------

  /** Remainder with the sign of the dividend, as computed by the % operator of durations. */
  function Remainder(a: int, b: int): int
    requires b > 0
  {
    if a >= 0 then a % b else -((-a) % b)
  }

  /** Time point of the next calculation. */
  function NextSlot(now: int, cbrInterval: int): int
    requires cbrInterval > 0
  {
    var interval := 2 * cbrInterval;
    var tp := now + interval;
    var bias := Remainder(tp, interval);
    if bias > cbrInterval then tp + (interval - bias)
    else if bias > 0 then tp - bias
    else tp
  }

  /**
   * From the epoch on, calculations are aligned to multiples of twice the measurement interval.
   * The next one is between half an interval and one and a half intervals ahead, and exactly one
   * interval ahead if the current time is aligned already.
   */
  lemma NextSlotAligned(now: int, cbrInterval: int) returns (k: int)
    requires cbrInterval > 0 && 0 <= now + 2 * cbrInterval
    ensures NextSlot(now, cbrInterval) == k * (2 * cbrInterval)
    ensures now + cbrInterval <= NextSlot(now, cbrInterval) < now + 3 * cbrInterval
    ensures now % (2 * cbrInterval) == 0 && 0 <= now ==> NextSlot(now, cbrInterval) == now + 2 * cbrInterval
  {
    var interval := 2 * cbrInterval;
    var tp := now + interval;
    k := if tp % interval > cbrInterval then tp / interval + 1 else tp / interval;
    Euclid(tp, interval);
    Euclid(now, interval);
    AddOne(now, interval);
  }

  lemma Euclid(a: int, b: int)
    requires b > 0
    ensures a == (a / b) * b + a % b && (a / b + 1) * b == (a / b) * b + b && 0 <= a % b < b
  {
  }

  lemma AddOne(a: int, b: int)
    requires b > 0
    ensures a % b == 0 ==> (a + b) % b == 0
  {
    if a % b == 0 {
      var q := (a + b) / b;
      var m := a / b + 1 - q;
      Euclid(a, b);
      Euclid(a + b, b);
      assert m * b == (a / b + 1) * b - q * b;
      NoMultipleBetween(m, b);
    }
  }

  lemma NoMultipleBetween(m: int, b: int)
    requires 0 <= m * b < b
    ensures m * b == 0
  {
  }

  // ---------------------------------------------------------------------
  // The controller object
  // ---------------------------------------------------------------------

  /** Identifies the callback that runs a calculation. */
  const CALCULATE: nat := 1

  class Station {
    const params: Parameters
    const runtime: ManualRuntime
    const scope: nat
    var dual: DualAlpha
    var channelLoad: Unit
    var dutyCycle: Unit
    var cbr: seq<Unit>

    ghost predicate Valid()
      reads this, runtime
    {
      |cbr| <= 2 && params.cbrInterval > 0 && runtime.Valid()
    }

    ghost function View(): Controller
      reads this
    {
      Controller(channelLoad, cbr, dutyCycle)
    }

    constructor (runtime: ManualRuntime, params: Parameters, scope: nat)
      requires runtime.Valid() && params.cbrInterval > 0
      modifies runtime
      ensures Valid() && this.params == params && this.runtime == runtime && this.scope == scope && dual == Off
      ensures View() == Initial(params)
      ensures runtime.now == old(runtime.now)
      ensures runtime.queue == Insert(old(runtime.queue), Pending(runtime.now, params))
    {
      this.params, this.runtime, this.scope := params, runtime, scope;
      dual, channelLoad, cbr := Off, 0.0, [];
      var sum: real := params.deltaMax + params.deltaMin;
      dutyCycle := Clamp(0.5 * sum);
      new;
      ScheduleNext();
    }

    /** The calculation is scheduled without any scope. */
    method ScheduleNext()
      requires Valid()
      modifies runtime`queue
      ensures Valid() && runtime.queue == Insert(old(runtime.queue), Pending(runtime.now, params))
    {
      runtime.ScheduleAt(NextSlot(runtime.now, params.cbrInterval), CALCULATE, 0);
    }

    method Measure(load: Unit)
      requires Valid()
      modifies this
      ensures Valid() && View() == Step(params, old(dual), old(View()), Measured(load)) && dual == old(dual)
    {
      var full := |cbr| == 2;
      cbr := if full then [cbr[1], load] else cbr + [load];
      if !full {
        channelLoad := Mean(cbr);
      }
    }

    method OnPeriod()
      requires Valid()
      modifies this, runtime`queue
      ensures Valid() && View() == Step(params, old(dual), old(View()), Period) && dual == old(dual)
      ensures runtime.queue == Insert(old(runtime.queue), Pending(runtime.now, params))
    {
      channelLoad := AverageCbr(Controller(channelLoad, cbr, dutyCycle));
      dutyCycle := NextDutyCycle(params, dual, dutyCycle, Offset(params, channelLoad));
      ScheduleNext();
    }

    /** The destructor cancels by scope, hence it does not reach the scheduled calculations. */
    method Destroy()
      requires Valid()
      modifies runtime`queue
      ensures runtime.queue == Erase(old(runtime.queue), scope)
      ensures forall e :: e in old(runtime.queue) && e.scope == 0 ==> e in runtime.queue
    {
      if scope != 0 {
        EraseElements(runtime.queue, scope);
      }
      runtime.CancelScope(scope);
    }
  }

  function Pending(now: int, params: Parameters): Event
    requires params.cbrInterval > 0
  {
    Event(NextSlot(now, params.cbrInterval), CALCULATE, 0)
  }
}
