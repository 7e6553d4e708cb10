/**
 * Lifetime field of the GeoNetworking basic header, and its reduction by queuing time.
 *
 * Durations are integer microseconds. The field holds a base and a multiplier of six bits,
 * hence encoding a duration rounds it.
 */
module Lifetimes {

  datatype Base = FiftyMilliseconds | OneSecond | TenSeconds | HundredSeconds

  type SixBits = m: nat | m < 64

  datatype Lifetime = Lifetime(base: Base, multiplier: SixBits)

  const ZERO: Lifetime := Lifetime(FiftyMilliseconds, 0)

  function Decode(l: Lifetime): nat {
    match l.base
    case FiftyMilliseconds => l.multiplier * 50_000
    case OneSecond => l.multiplier * 1_000_000
    case TenSeconds => l.multiplier * 10_000_000
    case HundredSeconds => l.multiplier * 100_000_000
  }

  /** Rounding to the nearest integer, halfway cases away from zero; excess bits are masked. */
  function Encode(d: nat): Lifetime {
    if d >= 630_000_000 then Lifetime(HundredSeconds, (d + 50_000_000) / 100_000_000 % 64)
    else if d >= 63_000_000 then Lifetime(TenSeconds, (d + 5_000_000) / 10_000_000 % 64)
    else if d >= 3_150_000 then Lifetime(OneSecond, (d + 500_000) / 1_000_000 % 64)
    else Lifetime(FiftyMilliseconds, (d + 25_000) / 50_000 % 64)
  }

  /** Duration as it reads after having been stored in the field. */
  function Stored(d: nat): int {
    Decode(Encode(d))
  }

  /** Remaining lifetime after some queuing time: the new field and the exact remainder. */
  function Reduce(l: Lifetime, queuing: int): (Lifetime, int) {
    if queuing <= 0 then (l, Decode(l))
    else if queuing < Decode(l) then (Encode(Decode(l) - queuing), Decode(l) - queuing)
    else (ZERO, 0)
  }

  // ---------------------------------------------------------------------
  // Precision of the field
  // ---------------------------------------------------------------------

  /** Granularity at which a duration is stored. */
  function Granularity(d: nat): int {
    if d >= 630_000_000 then 100_000_000 else if d >= 63_000_000 then 10_000_000
    else if d >= 3_150_000 then 1_000_000 else 50_000
  }

  predicate Multiple(d: nat, step: int) {
    step > 0 && d % step == 0
  }

  /** Largest deviation caused by storing durations that do not exceed the given one. */
  function HalfStep(d: nat): int {
    if d > 630_000_000 then 50_000_000 else if d > 63_000_000 then 5_000_000
    else if d > 3_150_000 then 500_000 else 25_000
  }

  const LONGEST: nat := 6_300_000_000

  lemma StoredFifty(d: nat)
    requires d < 3_150_000
    ensures -25_000 <= Stored(d) - d <= 25_000 && (Stored(d) == d <==> d % 50_000 == 0)
  {
  }

  lemma StoredSeconds(d: nat)
    requires 3_150_000 <= d < 63_000_000
    ensures -500_000 <= Stored(d) - d <= 500_000 && (Stored(d) == d <==> d % 1_000_000 == 0)
  {
  }

  lemma StoredTens(d: nat)
    requires 63_000_000 <= d < 630_000_000
    ensures -5_000_000 <= Stored(d) - d <= 5_000_000 && (Stored(d) == d <==> d % 10_000_000 == 0)
  {
  }

  lemma StoredHundreds(d: nat)
    requires 630_000_000 <= d <= LONGEST
    ensures -50_000_000 <= Stored(d) - d <= 50_000_000 && (Stored(d) == d <==> d % 100_000_000 == 0)
  {
  }

  /**
   * Storing a duration changes it by at most half of its granularity, and leaves it unchanged
   * if and only if it is a multiple of the granularity.
   */
  lemma StoredPrecision(d: nat)
    requires d <= LONGEST
    ensures -(Granularity(d) / 2) <= Stored(d) - d <= Granularity(d) / 2
    ensures Stored(d) == d <==> Multiple(d, Granularity(d))
  {
    hide Stored;
    if d < 3_150_000 {
      StoredFifty(d);
    } else if d < 63_000_000 {
      StoredSeconds(d);
    } else if d < 630_000_000 {
      StoredTens(d);
    } else {
      StoredHundreds(d);
    }
  }

  lemma StoredClose(d: nat, bound: nat)
    requires d < bound <= LONGEST
    ensures -HalfStep(bound) <= Stored(d) - d <= HalfStep(bound)
    ensures HalfStep(bound) >= 25_000
  {
    StoredPrecision(d);
    hide Stored;
  }

  /** Storing never leads out of the range of durations with the same granularity. */
  lemma StoredBounded(d: nat, bound: nat)
    requires d < bound <= LONGEST
    ensures 0 <= Stored(d) <= LONGEST
    ensures HalfStep(Stored(d)) <= HalfStep(bound)
  {
  }

  /** Header values survive a further encoding except for the largest multiplier of the three finer bases. */
  lemma HeaderRoundTrip(l: Lifetime)
    ensures Stored(Decode(l)) == Decode(l) <==> !(l.multiplier == 63 && l.base != HundredSeconds)
  {
    StoredPrecision(Decode(l));
    hide Stored;
    match l.base {
      case FiftyMilliseconds => Fifty(l.multiplier);
      case OneSecond => Seconds(l.multiplier);
      case TenSeconds => Tens(l.multiplier);
      case HundredSeconds => Hundreds(l.multiplier);
    }
  }

  lemma Fifty(m: nat)
    requires m < 64
    ensures Multiple(m * 50_000, Granularity(m * 50_000)) <==> m != 63
  {
  }

  lemma Seconds(m: nat)
    requires m < 64
    ensures Multiple(m * 1_000_000, Granularity(m * 1_000_000)) <==> m != 63
  {
  }

  lemma Tens(m: nat)
    requires m < 64
    ensures Multiple(m * 10_000_000, Granularity(m * 10_000_000)) <==> m != 63
  {
  }

  lemma Hundreds(m: nat)
    requires m < 64
    ensures Multiple(m * 100_000_000, Granularity(m * 100_000_000))
  {
  }

  // ---------------------------------------------------------------------
  // Accumulated deviation
  // ---------------------------------------------------------------------

  function NonNegative(x: int): int {
    if x < 0 then 0 else x
  }

  /** The field deviates from the ideal lifetime by at most `slack`, at the granularity of `bound`. */
  ghost predicate Near(l: Lifetime, ideal: int, slack: int, bound: nat) {
    && bound <= LONGEST
    && HalfStep(Decode(l)) <= HalfStep(bound)
    && -slack <= Decode(l) - NonNegative(ideal) <= slack
  }

  /** Each reduction adds at most half a step to the deviation. The returned remainder does not suffer from it yet. */
  lemma ReduceNear(l: Lifetime, ideal: int, slack: int, bound: nat, queuing: nat)
    requires Near(l, ideal, slack, bound)
    ensures Near(Reduce(l, queuing).0, ideal - queuing, slack + HalfStep(bound), bound)
    ensures -slack <= Reduce(l, queuing).1 - NonNegative(ideal - queuing) <= slack
  {
    if 0 < queuing < Decode(l) {
      StoredClose(Decode(l) - queuing, Decode(l));
      StoredBounded(Decode(l) - queuing, Decode(l));
    }
  }

  /** A reduction is exact unless it has to round. */
  predicate Exact(l: Lifetime, queuing: int) {
    0 < queuing < Decode(l) ==> Multiple(Decode(l) - queuing, Granularity(Decode(l) - queuing))
  }

  lemma ReduceExact(l: Lifetime, ideal: int, queuing: nat)
    requires Decode(l) == NonNegative(ideal)
    ensures Reduce(l, queuing).1 == NonNegative(ideal - queuing)
    ensures Decode(Reduce(l, queuing).0) == NonNegative(ideal - queuing) <==> Exact(l, queuing)
  {
    if 0 < queuing < Decode(l) {
      StoredPrecision(Decode(l) - queuing);
    }
  }

  /** Repeated reduction by several queuing times. */
  function ReduceAll(l: Lifetime, gaps: seq<int>): Lifetime {
    if gaps == [] then l else Reduce(ReduceAll(l, gaps[..|gaps| - 1]), gaps[|gaps| - 1]).0
  }

  /** The queuing time is at most half of the granularity at which the remainder is stored. */
  predicate Short(duration: nat, queuing: int) {
    0 < queuing < duration ==> queuing <= Granularity(duration - queuing) / 2
  }

  /** Header values are multiples of the granularity of anything less. */
  lemma DecodeMultiple(l: Lifetime, d: nat)
    requires d < Decode(l)
    ensures Multiple(Decode(l), Granularity(d))
  {
  }

  lemma StoredBackFine(d: nat, g: int)
    requires 0 < g < d && d - g < 63_000_000 && Multiple(d, Granularity(d - g))
    ensures Stored(d - g) == d <==> g <= Granularity(d - g) / 2
  {
  }

  lemma StoredBackCoarse(d: nat, g: int)
    requires 0 < g < d && 63_000_000 <= d - g && d <= LONGEST && Multiple(d, Granularity(d - g))
    ensures Stored(d - g) == d <==> g <= Granularity(d - g) / 2
  {
  }

  /**
   * A positive queuing time less than the lifetime does not change the lifetime at all if and only if it is short,
   * because rounding gives back what the subtraction has taken. For any lifetime 25 ms are short.
   */
  lemma ShortQueuingIsForgotten(l: Lifetime, queuing: int)
    requires 0 < queuing < Decode(l)
    ensures Decode(Reduce(l, queuing).0) == Decode(l) <==> Short(Decode(l), queuing)
    ensures queuing <= 25_000 ==> Short(Decode(l), queuing)
  {
    assert Granularity(Decode(l) - queuing) >= 50_000;
    DecodeMultiple(l, Decode(l) - queuing);
    hide Multiple, Granularity, Stored;
    if Decode(l) - queuing < 63_000_000 {
      StoredBackFine(Decode(l), queuing);
    } else {
      StoredBackCoarse(Decode(l), queuing);
    }
  }

  /** Hence a lifetime that is reduced often enough never ends. */
  lemma {:induction false} NeverEnds(l: Lifetime, gaps: seq<int>)
    requires forall i :: 0 <= i < |gaps| ==> gaps[i] < Decode(l) && Short(Decode(l), gaps[i])
    ensures Decode(ReduceAll(l, gaps)) == Decode(l)
  {
    if gaps != [] {
      var n := |gaps| - 1;
      NeverEnds(l, gaps[..n]);
      if gaps[n] > 0 {
        ShortQueuingIsForgotten(ReduceAll(l, gaps[..n]), gaps[n]);
      }
    }
  }
}
