/**
 * LimericBudget: packet handling that meets the channel occupancy limit,
 * Annex B of ETSI TS 102 687 v1.2.1.
 *
 * Times are integer microseconds. Before the first transmission the start time is absent.
 */
module LimericBudget {
  import opened Runtime

  const MIN_INTERVAL: int := 25_000
  const MAX_INTERVAL: int := 1_000_000

  function ClampInterval(interval: int): int {
    var atLeast := if interval < MIN_INTERVAL then MIN_INTERVAL else interval;
    if MAX_INTERVAL < atLeast then MAX_INTERVAL else atLeast
  }

  /** Conversion of a non-negative floating point duration to ticks. */
  function Truncate(x: real): int {
    x.Floor
  }

  /** Time from one transmission to the next one that uses up the permitted duty cycle. */
  function Nominal(txOn: nat, dutyCycle: real): real
    requires dutyCycle > 0.0
  {
    txOn as real / dutyCycle
  }

  /** Nominal interval scaled by the share of the current interval that is still ahead (equation B.2). */
  function Scaled(nominal: real, delay: int, interval: int): real
    requires interval > 0
  {
    nominal * (delay as real / interval as real)
  }

  datatype State = State(interval: int, txStart: Option<int>, txOn: nat) {
    predicate InRange() {
      MIN_INTERVAL <= interval <= MAX_INTERVAL
    }

    predicate Open(now: int) {
      txStart.None? || txStart.value + interval <= now
    }

    function Delay(now: int): int {
      if Open(now) then 0 else txStart.value + interval - now
    }

    /** Conversion of an infinite duration is not specified: for a duty cycle of zero it may give any number. */
    function Notify(now: int, on: nat, dutyCycle: real, unspecified: int): State {
      var ticks := if dutyCycle > 0.0 then Truncate(Nominal(on, dutyCycle)) else unspecified;
      State(ClampInterval(ticks), Some(now), on)
    }

    function Update(now: int, dutyCycle: real): State
      requires InRange()
    {
      if dutyCycle <= 0.0 then this.(interval := MAX_INTERVAL)
      else if Open(now) then this.(interval := ClampInterval(Truncate(Nominal(txOn, dutyCycle))))
      else this.(interval := ClampInterval(
        Truncate(Scaled(Nominal(txOn, dutyCycle), txStart.value + interval - now, interval)) + now - txStart.value))
    }
  }

  class Budget {
    var interval: int
    var txStart: Option<int>
    var txOn: nat

    ghost function View(): State
      reads this
    {
      State(interval, txStart, txOn)
    }

    constructor (now: int, dutyCycle: real)
      ensures View() == State(MIN_INTERVAL, None, 0).Update(now, dutyCycle) && View().InRange()
    {
      interval, txStart, txOn := MIN_INTERVAL, None, 0;
      new;
      Recalculate(now, dutyCycle);
    }

    method GetDelay(now: int) returns (delay: int)
      ensures delay == View().Delay(now)
      ensures delay >= 0
    {
      if txStart.None? || now >= txStart.value + interval {
        delay := 0;
      } else {
        delay := txStart.value + interval - now;
      }
    }

    method Notify(now: int, on: nat, dutyCycle: real, unspecified: int)
      modifies this
      ensures View() == old(View()).Notify(now, on, dutyCycle, unspecified) && View().InRange()
    {
      txStart, txOn := Some(now), on;
      interval := ClampInterval(if dutyCycle > 0.0 then Truncate(Nominal(on, dutyCycle)) else unspecified);
    }

    method Recalculate(now: int, dutyCycle: real)
      requires View().InRange()
      modifies this
      ensures View() == old(View()).Update(now, dutyCycle) && View().InRange()
    {
      if dutyCycle > 0.0 {
        if txStart.Some? && txStart.value + interval - now > 0 {
          var scaled := Scaled(Nominal(txOn, dutyCycle), txStart.value + interval - now, interval);
          interval := ClampInterval(Truncate(scaled) + now - txStart.value);
        } else {
          interval := ClampInterval(Truncate(Nominal(txOn, dutyCycle)));
        }
      } else {
        interval := MAX_INTERVAL;
      }
    }
  }

  // ---------------------------------------------------------------------
  // Any interleaving of notify and update
  // ---------------------------------------------------------------------

  datatype Use = Notified(now: int, on: nat, dutyCycle: real, unspecified: int) | Updated(now: int, dutyCycle: real)

  function Run(s: State, uses: seq<Use>): (r: State)
    requires s.InRange()
    ensures r.InRange()
  {
    if uses == [] then s
    else
      var before := Run(s, uses[..|uses| - 1]);
      match uses[|uses| - 1]
      case Notified(now, on, dutyCycle, unspecified) => before.Notify(now, on, dutyCycle, unspecified)
      case Updated(now, dutyCycle) => before.Update(now, dutyCycle)
  }

  /** The gate is never closed for longer than one second and always for at least 25 ms. */
  lemma GateOpensInTime(s: State, uses: seq<Use>, now: int)
    requires s.InRange()
    ensures var r := Run(s, uses);
      && (r.txStart.None? ==> r.Open(now))
      && (r.txStart.Some? && now >= r.txStart.value + 1_000_000 ==> r.Delay(now) == 0)
      && (r.txStart.Some? && now < r.txStart.value + 25_000 ==> r.Delay(now) > 0)
  {
    var r := Run(s, uses);
    assert r.InRange();
  }

  /** Time and duration of the latest transmission that has been notified. */
  function LatestStart(s: State, uses: seq<Use>): Option<int> {
    if uses == [] then s.txStart
    else if uses[|uses| - 1].Notified? then Some(uses[|uses| - 1].now)
    else LatestStart(s, uses[..|uses| - 1])
  }

  function LatestOn(s: State, uses: seq<Use>): nat {
    if uses == [] then s.txOn
    else if uses[|uses| - 1].Notified? then uses[|uses| - 1].on
    else LatestOn(s, uses[..|uses| - 1])
  }

  /** Only notifications start an interval. */
  lemma {:induction false} StartIsLatest(s: State, uses: seq<Use>)
    requires s.InRange()
    ensures Run(s, uses).txStart == LatestStart(s, uses) && Run(s, uses).txOn == LatestOn(s, uses)
  {
    if uses != [] {
      StartIsLatest(s, uses[..|uses| - 1]);
    }
  }

  /** The interval is the nominal one in whole microseconds, within the limits. */
  ghost predicate Fitted(nominal: real, interval: int) {
    && MIN_INTERVAL <= interval <= MAX_INTERVAL
    && (interval > MIN_INTERVAL ==> interval as real <= nominal)
    && (interval < MAX_INTERVAL ==> nominal < interval as real + 1.0)
  }

  /** A transmission closes the gate for at least 25 ms, and for the nominal interval if that is within the limits. */
  lemma NotifyMeaning(s: State, start: int, on: nat, dutyCycle: real, unspecified: int, now: int)
    requires dutyCycle > 0.0
    ensures var r := s.Notify(start, on, dutyCycle, unspecified);
      && Fitted(Nominal(on, dutyCycle), r.interval)
      && r.Delay(start) == r.interval
      && (start <= now < start + 25_000 ==> r.Delay(now) > 0)
      && (now >= start + 1_000_000 ==> r.Delay(now) == 0)
  {
  }

  /** An update of an open gate sets the nominal interval, and closes it again exactly if that is not over yet. */
  lemma OpenUpdateMeaning(s: State, now: int, dutyCycle: real)
    requires s.InRange() && s.Open(now) && dutyCycle > 0.0
    ensures var r := s.Update(now, dutyCycle);
      && Fitted(Nominal(s.txOn, dutyCycle), r.interval) && r.txStart == s.txStart && r.txOn == s.txOn
      && (r.Open(now) <==> s.txStart.None? || r.interval <= now - s.txStart.value)
  {
  }

  /**
   * An update of a closed gate scales the remaining delay d in the ratio of the nominal interval n to the former
   * interval I: unless it is limited, the new remaining delay is the whole part of n * d / I.
   */
  lemma ClosedUpdateMeaning(s: State, now: int, dutyCycle: real)
    requires s.InRange() && !s.Open(now) && s.txStart.value <= now && dutyCycle > 0.0
    ensures var r, n, d := s.Update(now, dutyCycle), Nominal(s.txOn, dutyCycle), s.Delay(now) as real;
      var left := r.txStart.value + r.interval - now;
      && MIN_INTERVAL <= r.interval <= MAX_INTERVAL && r.txStart == s.txStart && r.txOn == s.txOn
      && (r.interval > MIN_INTERVAL ==> Product(left as real, s.interval as real) <= Product(n, d))
      && (r.interval < MAX_INTERVAL ==> Product(n, d) < Product(left as real + 1.0, s.interval as real))
  {
    var n, d := Nominal(s.txOn, dutyCycle), s.Delay(now);
    var r := s.Update(now, dutyCycle);
    var left := r.txStart.value + r.interval - now;
    var x := Scaled(n, d, s.interval);
    assert r.interval == ClampInterval(Truncate(x) + s.interval - d);
    hide Nominal, Truncate, ClampInterval, Product, Scaled;
    LimitedPart(x, s.interval - d, left);
    ScaledPart(n, d, s.interval, left as real);
    ScaledPart(n, d, s.interval, left as real + 1.0);
  }

  /** Multiplication under a name, so that proofs can treat products as opaque values. */
  function Product(a: real, b: real): real {
    a * b
  }

  lemma ScaledPart(nominal: real, delay: int, interval: int, y: real)
    requires 0 < interval
    ensures Scaled(nominal, delay, interval) < y <==> Product(nominal, delay as real) < Product(y, interval as real)
  {
    ScaledProduct(nominal, delay as real, interval as real);
    Compare(nominal * (delay as real / interval as real), y, interval as real);
  }

  /** Limiting a duration of which some time has elapsed already. */
  lemma LimitedPart(x: real, elapsed: int, left: int)
    requires elapsed + left == ClampInterval(Truncate(x) + elapsed)
    ensures elapsed + left > MIN_INTERVAL ==> left as real <= x
    ensures elapsed + left < MAX_INTERVAL ==> x < left as real + 1.0
  {
  }

  lemma ScaledProduct(r: real, d: real, i: real)
    requires 0.0 < i
    ensures (r * (d / i)) * i == r * d
  {
    var q := d / i;
    assert q * i == d;
    Associate(r, q, i);
  }

  /** Without any permitted duty cycle the interval is the longest one. */
  lemma NoDutyCycle(s: State, now: int, dutyCycle: real)
    requires s.InRange() && dutyCycle <= 0.0
    ensures s.Update(now, dutyCycle) == s.(interval := MAX_INTERVAL)
  {
  }

  lemma ScaledNonNegative(nominal: real, delay: int, interval: int)
    requires 0.0 <= nominal && 0 <= delay && 0 < interval
    ensures 0.0 <= Scaled(nominal, delay, interval)
  {
    var q := delay as real / interval as real;
    assert 0.0 <= q;
  }

  /** While the gate is closed an update never moves its opening into the past. */
  lemma UpdateNeverOpensInThePast(s: State, now: int, dutyCycle: real)
    requires s.InRange() && !s.Open(now)
    ensures var r := s.Update(now, dutyCycle); now <= r.txStart.value + r.interval
  {
    if dutyCycle > 0.0 {
      ScaledNonNegative(Nominal(s.txOn, dutyCycle), s.Delay(now), s.interval);
    }
  }

  // ---------------------------------------------------------------------
  // Updates without change of the duty cycle
  // ---------------------------------------------------------------------

  /** The interval is the one that the duty cycle asks for. */
  ghost predicate Matches(s: State, dutyCycle: real) {
    dutyCycle > 0.0 && s.interval == ClampInterval(Truncate(Nominal(s.txOn, dutyCycle)))
  }

  /** How scaling relates to the remaining delay. */
  lemma ScaledBounds(nominal: real, delay: int, interval: int)
    requires 0 < delay <= interval
    ensures nominal >= interval as real <==> Scaled(nominal, delay, interval) >= delay as real
    ensures nominal <= interval as real ==> Scaled(nominal, delay, interval) <= delay as real
    ensures nominal < interval as real + 1.0 ==> Scaled(nominal, delay, interval) < delay as real + 1.0
  {
    Share(nominal, delay as real, interval as real);
  }

  lemma Share(r: real, d: real, i: real)
    requires 0.0 < d <= i
    ensures r >= i <==> r * (d / i) >= d
    ensures r <= i ==> r * (d / i) <= d
    ensures r < i + 1.0 ==> r * (d / i) < d + 1.0
  {
    var q := d / i;
    assert q * i == d && 0.0 < q <= 1.0;
    assert r * q - d == (r - i) * q;
    if r >= i {
      assert (r - i) * q >= 0.0;
    } else {
      assert (i - r) * q > 0.0;
    }
    if r < i + 1.0 {
      assert (i + 1.0 - r) * q > 0.0;
    }
  }

  lemma UpdateKeepsMatching(s: State, now: int, dutyCycle: real)
    requires s.InRange() && Matches(s, dutyCycle) && (s.txStart.Some? ==> s.txStart.value <= now)
    ensures s.Update(now, dutyCycle) == s
  {
    if !s.Open(now) {
      var n, d := Nominal(s.txOn, dutyCycle), s.Delay(now);
      ScaledBounds(n, d, s.interval);
      ScaledNonNegative(n, d, s.interval);
    }
  }

  /** After a transmission, updates with the same duty cycle never change the interval, however many there are. */
  lemma {:induction false} RepeatedUpdates(s: State, start: int, on: nat, dutyCycle: real, times: seq<int>)
    requires s.InRange() && dutyCycle > 0.0 && forall i :: 0 <= i < |times| ==> start <= times[i]
    ensures var uses := seq(|times|, i requires 0 <= i < |times| => Updated(times[i], dutyCycle));
      var sent := s.Notify(start, on, dutyCycle, 0);
      sent.InRange() && Run(sent, uses) == sent
  {
    var uses := seq(|times|, i requires 0 <= i < |times| => Updated(times[i], dutyCycle));
    var sent := s.Notify(start, on, dutyCycle, 0);
    assert sent.InRange();
    if times != [] {
      var init := times[..|times| - 1];
      RepeatedUpdates(s, start, on, dutyCycle, init);
      assert uses[..|uses| - 1] == seq(|init|, i requires 0 <= i < |init| => Updated(init[i], dutyCycle));
      UpdateKeepsMatching(sent, times[|times| - 1], dutyCycle);
    }
  }

  lemma ScaledBelow(r: real, d: real, i: real)
    requires 0.0 < d <= i
    ensures r * (d / i) < d + 1.0 <==> r * d < (d + 1.0) * i
  {
    var q := d / i;
    assert q * i == d;
    Associate(r, q, i);
    Compare(r * q, d + 1.0, i);
  }

  lemma Associate(a: real, b: real, c: real)
    ensures (a * b) * c == a * (b * c)
  {
  }

  lemma Compare(x: real, y: real, i: real)
    requires 0.0 < i
    ensures x < y <==> x * i < y * i
  {
    assert (y - x) * i == y * i - x * i;
  }

  /**
   * An update while the gate is closed keeps the interval I exactly if the nominal interval n of the duty cycle
   * satisfies I <= n < I + I/d, where d is the remaining delay. At a limit only one of the bounds applies, because
   * everything beyond the limit is clamped to it.
   */
  lemma UpdateKeepsIntervalIff(s: State, now: int, dutyCycle: real)
    requires s.InRange() && dutyCycle > 0.0
    requires !s.Open(now) && s.txStart.value <= now
    ensures var n, d := Nominal(s.txOn, dutyCycle), s.Delay(now) as real;
      s.Update(now, dutyCycle).interval == s.interval <==>
      && (s.interval == MIN_INTERVAL || s.interval as real <= n)
      && (s.interval == MAX_INTERVAL || n * d < (d + 1.0) * s.interval as real)
  {
    var n, d := Nominal(s.txOn, dutyCycle), s.Delay(now);
    ScaledBounds(n, d, s.interval);
    ScaledBelow(n, d as real, s.interval as real);
    var x := Scaled(n, d, s.interval);
    assert Truncate(x) >= d <==> d as real <= x;
    assert Truncate(x) <= d <==> x < d as real + 1.0;
    assert s.Update(now, dutyCycle).interval == ClampInterval(Truncate(x) + s.interval - d);
  }

  /**
   * Hence update is not idempotent: repeating it right after the duty cycle has been halved
   * stretches the interval from 50 ms to 90 ms and then further to 98.888 ms.
   */
  lemma UpdateIsNotIdempotent()
    ensures var s := State(50_000, Some(0), 1_000);
      && Matches(s, 0.02)
      && s.Update(10_000, 0.01).interval == 90_000
      && s.Update(10_000, 0.01).Update(10_000, 0.01).interval == 98_888
  {
    assert Nominal(1_000, 0.01) == 100_000.0 && Nominal(1_000, 0.02) == 50_000.0;
    assert Scaled(100_000.0, 40_000, 50_000) == 80_000.0;
    var y := Scaled(100_000.0, 80_000, 90_000);
    assert 9.0 * y == 800_000.0;
    assert 88_888.0 <= y < 88_889.0;
  }
}
