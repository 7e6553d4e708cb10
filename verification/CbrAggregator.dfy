/**
 * CbrAggregator: aggregation of received channel busy ratios,
 * section 5.2.2 of ETSI TS 102 636-4-2 V1.1.1.
 */
module CbrAggregator {

  type Load = x: real | 0.0 <= x <= 1.0

  /** Raw value of a 32 bit millisecond timestamp. */
  type Timestamp = t: nat | t < 0x1_0000_0000

  /** a >= b under the wrap-around order of timestamps. */
  predicate NotBefore(a: Timestamp, b: Timestamp) {
    a == b || (a > b && a - b <= 0x7FFF_FFFF) || (b > a && b - a > 0x7FFF_FFFF)
  }

  /** Extension of a location table entry with the CBR values shared by a neighbour. */
  datatype Loctex = Loctex(localUpdate: Timestamp, localCbr: Load, neighbourCbr: Load)
  datatype Entry = Plain | Extended(loctex: Loctex)

  predicate Counts(e: Entry, lifetime: Timestamp) {
    e.Extended? && NotBefore(e.loctex.localUpdate, lifetime)
  }

  // ---------------------------------------------------------------------
  // Accumulation of one value per visited entry
  // ---------------------------------------------------------------------

  datatype AggregatorUnit = AggregatorUnit(n: nat, average: Load, largest: Load, second: Load) {

    function Add(cbr: Load): AggregatorUnit {
      var mean := NextMean(average, n, cbr);
      if cbr >= largest then AggregatorUnit(n + 1, mean, cbr, largest)
      else if cbr > second then AggregatorUnit(n + 1, mean, largest, cbr)
      else AggregatorUnit(n + 1, mean, largest, second)
    }

    function Select(target: Load): Load {
      if average > target then largest else second
    }
  }

  /** Every channel load is limited to the unit interval. */
  function Clamp(x: real): Load {
    if x > 1.0 then 1.0 else if x < 0.0 then 0.0 else x
  }

  /** Mean of n + 1 values, given the mean of the first n of them. */
  function NextMean(average: Load, n: nat, cbr: Load): Load {
    Clamp((average * n as real + cbr) / (n + 1) as real)
  }

  const EMPTY: AggregatorUnit := AggregatorUnit(0, 0.0, 0.0, 0.0)

  function Collect(values: seq<Load>): AggregatorUnit {
    if values == [] then EMPTY else Collect(values[..|values| - 1]).Add(values[|values| - 1])
  }

  /** Neighbours share their own measurement and the largest one of their neighbours. */
  datatype Hops = OneHop | TwoHop

  function Shared(e: Entry, lifetime: Timestamp, hops: Hops): seq<Load> {
    if !Counts(e, lifetime) then [] else [if hops.OneHop? then e.loctex.localCbr else e.loctex.neighbourCbr]
  }

  /** Values shared by the entries, in visiting order. */
  function Values(entries: seq<Entry>, lifetime: Timestamp, hops: Hops): seq<Load> {
    if entries == [] then []
    else Values(entries[..|entries| - 1], lifetime, hops) + Shared(entries[|entries| - 1], lifetime, hops)
  }

  function Max(a: Load, b: Load): Load {
    if a < b then b else a
  }

  class Aggregator {
    var localCbr: Load
    var previousLocalCbr: Load
    var oneHopCbr: Load
    var twoHopCbr: Load
    var globalCbr: Load

    constructor ()
      ensures localCbr == previousLocalCbr == oneHopCbr == twoHopCbr == globalCbr == 0.0
    {
      localCbr, previousLocalCbr, oneHopCbr, twoHopCbr, globalCbr := 0.0, 0.0, 0.0, 0.0, 0.0;
    }

    /** The location table is visited in the order of `entries`. */
    method Aggregate(local: Load, entries: seq<Entry>, lifetime: Timestamp, target: Load)
      modifies this
      ensures localCbr == local && previousLocalCbr == old(localCbr)
      ensures oneHopCbr == Collect(Values(entries, lifetime, OneHop)).Select(target)
      ensures twoHopCbr == Collect(Values(entries, lifetime, TwoHop)).Select(target)
      ensures globalCbr >= old(localCbr) && globalCbr >= oneHopCbr && globalCbr >= twoHopCbr
      ensures globalCbr == old(localCbr) || globalCbr == oneHopCbr || globalCbr == twoHopCbr
    {
      previousLocalCbr, localCbr := localCbr, local;
      var oneHop, twoHop := EMPTY, EMPTY;
      for i := 0 to |entries|
        modifies {}
        invariant oneHop == Collect(Values(entries[..i], lifetime, OneHop))
        invariant twoHop == Collect(Values(entries[..i], lifetime, TwoHop))
      {
        var e := entries[i];
        VisitNext(entries, i, lifetime, OneHop);
        VisitNext(entries, i, lifetime, TwoHop);
        if e.Extended? && NotBefore(e.loctex.localUpdate, lifetime) {
          oneHop := oneHop.Add(e.loctex.localCbr);
          twoHop := twoHop.Add(e.loctex.neighbourCbr);
        }
      }
      assert entries[..|entries|] == entries;
      oneHopCbr := oneHop.Select(target);
      twoHopCbr := twoHop.Select(target);
      globalCbr := Max(previousLocalCbr, Max(oneHopCbr, twoHopCbr));
    }
  }

  lemma VisitNext(entries: seq<Entry>, i: nat, lifetime: Timestamp, hops: Hops)
    requires i < |entries|
    ensures var before := Collect(Values(entries[..i], lifetime, hops));
      Collect(Values(entries[..i + 1], lifetime, hops)) ==
      if Counts(entries[i], lifetime) then before.Add(Shared(entries[i], lifetime, hops)[0]) else before
  {
    var upTo := entries[..i + 1];
    assert upTo[..|upTo| - 1] == entries[..i];
    var values := Values(upTo, lifetime, hops);
    if Counts(entries[i], lifetime) {
      assert values[..|values| - 1] == Values(entries[..i], lifetime, hops);
    } else {
      assert values == Values(entries[..i], lifetime, hops);
    }
  }

  // ---------------------------------------------------------------------
  // Which values are collected
  // ---------------------------------------------------------------------

  /** An extended entry that is recent enough shares this value over one hop or over two hops. */
  predicate Shares(e: Entry, lifetime: Timestamp, hops: Hops, x: Load) {
    && e.Extended? && NotBefore(e.loctex.localUpdate, lifetime)
    && (hops.OneHop? ==> e.loctex.localCbr == x)
    && (hops.TwoHop? ==> e.loctex.neighbourCbr == x)
  }

  /** Positions of the entries that share a value. */
  ghost function Sharing(entries: seq<Entry>, lifetime: Timestamp, hops: Hops, x: Load): set<nat> {
    set i: nat | i < |entries| && Shares(entries[i], lifetime, hops, x)
  }

  lemma SharingNext(entries: seq<Entry>, lifetime: Timestamp, hops: Hops, x: Load)
    requires entries != []
    ensures var n := |entries| - 1;
      |Sharing(entries, lifetime, hops, x)| ==
      |Sharing(entries[..n], lifetime, hops, x)| + if Shares(entries[n], lifetime, hops, x) then 1 else 0
  {
    hide Shares;
    var n := |entries| - 1;
    var before := Sharing(entries[..n], lifetime, hops, x);
    assert forall i :: 0 <= i < n ==> entries[..n][i] == entries[i];
    assert n !in before;
    assert Sharing(entries, lifetime, hops, x) ==
           before + if Shares(entries[n], lifetime, hops, x) then {n} else {};
  }

  lemma SharedMeaning(e: Entry, lifetime: Timestamp, hops: Hops, x: Load)
    ensures multiset(Shared(e, lifetime, hops))[x] == if Shares(e, lifetime, hops, x) then 1 else 0
  {
  }

  /** Each value is collected as often as it is shared. */
  lemma {:induction false} ValuesMeaning(entries: seq<Entry>, lifetime: Timestamp, hops: Hops, x: Load)
    ensures multiset(Values(entries, lifetime, hops))[x] == |Sharing(entries, lifetime, hops, x)|
  {
    if entries == [] {
      assert Sharing(entries, lifetime, hops, x) == {};
    } else {
      var n := |entries| - 1;
      hide Shared, Shares, Sharing;
      ValuesMeaning(entries[..n], lifetime, hops, x);
      SharingNext(entries, lifetime, hops, x);
      SharedMeaning(entries[n], lifetime, hops, x);
    }
  }

  /** Timestamps less than half of their range apart are ordered as if there were no wrap-around. */
  lemma NotBeforeMeaning(t: Timestamp, d: nat)
    requires d <= 0x7FFF_FFFF
    ensures NotBefore((t + d) % 0x1_0000_0000, t)
    ensures d > 0 ==> !NotBefore(t, (t + d) % 0x1_0000_0000)
  {
  }

  // ---------------------------------------------------------------------
  // What the accumulator means
  // ---------------------------------------------------------------------

  function Sum(values: seq<Load>): real {
    if values == [] then 0.0 else Sum(values[..|values| - 1]) + values[|values| - 1]
  }

  function Mean(values: seq<Load>): real {
    if values == [] then 0.0 else Sum(values) / |values| as real
  }

  /** The two largest elements of a multiset. */
  ghost predicate TopTwo(m: multiset<Load>, first: Load, second: Load) {
    && multiset{first, second} <= m
    && second <= first
    && forall x :: x in m - multiset{first, second} ==> x <= second
  }

  /** Values together with the two zeros that the accumulator starts with. */
  ghost function WithZeros(values: seq<Load>): multiset<Load> {
    multiset{0.0, 0.0} + multiset(values)
  }

  lemma TopTwoUnique(m: multiset<Load>, a: Load, b: Load, c: Load, d: Load)
    requires TopTwo(m, a, b) && TopTwo(m, c, d)
    ensures a == c && b == d
  {
    assert forall x :: x in m ==> x == a || x == b || x in m - multiset{a, b};
    assert forall x :: x in m ==> x == c || x == d || x in m - multiset{c, d};
    assert a in m && c in m;
    assert b in m - multiset{a} && d in m - multiset{a};
    assert forall x :: x in m - multiset{a} ==> x == b || x in m - multiset{a, b};
    assert forall x :: x in m - multiset{a} ==> x == d || x in m - multiset{c, d};
  }

  lemma AddTopTwo(m: multiset<Load>, u: AggregatorUnit, x: Load)
    requires TopTwo(m, u.largest, u.second)
    ensures TopTwo(m + multiset{x}, u.Add(x).largest, u.Add(x).second)
  {
    var v := u.Add(x);
    var rest := (m + multiset{x}) - multiset{v.largest, v.second};
    forall y | y in rest
      ensures y <= v.second
    {
      if y !in m - multiset{u.largest, u.second} {
        assert y == x || y == u.largest || y == u.second;
      }
    }
  }

  lemma {:induction false} SumBounds(values: seq<Load>)
    ensures 0.0 <= Sum(values) <= |values| as real
  {
    if values != [] {
      SumBounds(values[..|values| - 1]);
    }
  }

  /** n times x, without multiplication. */
  ghost function Multiple(n: nat, x: real): real {
    if n == 0 then 0.0 else Multiple(n - 1, x) + x
  }

  lemma {:induction false} MultipleIsProduct(n: nat, x: real)
    ensures Multiple(n, x) == n as real * x
  {
    if n > 0 {
      MultipleIsProduct(n - 1, x);
    }
  }

  lemma Ratio(s: real, n: real)
    requires 0.0 < n && 0.0 <= s <= n
    ensures 0.0 <= s / n <= 1.0 && n * (s / n) == s
  {
  }

  /** One more value turns the mean of n values into the mean of n + 1 values. */
  lemma NextMeanIsMean(n: nat, average: Load, x: Load, sum: real)
    requires Multiple(n, average) == sum && 0.0 <= sum + x <= (n + 1) as real
    ensures Multiple(n + 1, NextMean(average, n, x)) == sum + x
  {
    MultipleIsProduct(n, average);
    Ratio(sum + x, (n + 1) as real);
    assert NextMean(average, n, x) == (sum + x) / (n + 1) as real;
    MultipleIsProduct(n + 1, NextMean(average, n, x));
  }

  lemma {:induction false} CollectSum(values: seq<Load>)
    ensures Collect(values).n == |values|
    ensures Multiple(|values|, Collect(values).average) == Sum(values)
  {
    if values != [] {
      var init, x := values[..|values| - 1], values[|values| - 1];
      CollectSum(init);
      SumBounds(values);
      NextMeanIsMean(|init|, Collect(init).average, x, Sum(init));
    }
  }

  /** The running average is the arithmetic mean. */
  lemma CollectMean(values: seq<Load>)
    ensures Collect(values).average == Mean(values)
  {
    CollectSum(values);
    SumBounds(values);
    if values != [] {
      QuotientOfMultiple(|values|, Collect(values).average, Sum(values));
    }
  }

  lemma QuotientOfMultiple(n: nat, a: real, s: real)
    requires n > 0 && Multiple(n, a) == s
    ensures a == s / n as real
  {
    MultipleIsProduct(n, a);
  }

  /** The two maxima are the two largest values. */
  lemma {:induction false} CollectTopTwo(values: seq<Load>)
    ensures TopTwo(WithZeros(values), Collect(values).largest, Collect(values).second)
  {
    if values != [] {
      var init, x := values[..|values| - 1], values[|values| - 1];
      CollectTopTwo(init);
      assert values == init + [x];
      assert WithZeros(values) == WithZeros(init) + multiset{x};
      AddTopTwo(WithZeros(init), Collect(init), x);
    }
  }

  /** The largest value is selected if the mean exceeds the target, the second largest one otherwise. */
  lemma SelectionMeaning(values: seq<Load>, target: Load, first: Load, second: Load)
    requires TopTwo(WithZeros(values), first, second)
    ensures Collect(values).Select(target) == if Mean(values) > target then first else second
  {
    CollectMean(values);
    CollectTopTwo(values);
    TopTwoUnique(WithZeros(values), Collect(values).largest, Collect(values).second, first, second);
  }

  // ---------------------------------------------------------------------
  // The visiting order does not matter
  // ---------------------------------------------------------------------

  function Remove<T>(s: seq<T>, i: nat): seq<T>
    requires i < |s|
  {
    s[..i] + s[i + 1..]
  }

  lemma RemoveInit<T>(s: seq<T>, i: nat)
    requires i + 1 < |s|
    ensures var r, n := Remove(s, i), |s| - 1;
      |r| == n && r[..n - 1] == Remove(s[..n], i) && r[n - 1] == s[n] && s[..n][i] == s[i]
  {
    var n := |s| - 1;
    assert s[i + 1..][..n - 1 - i] == s[..n][i + 1..];
  }

  lemma RemoveBag<T>(s: seq<T>, i: nat)
    requires i < |s|
    ensures multiset(Remove(s, i)) == multiset(s) - multiset{s[i]}
  {
    assert s == s[..i] + [s[i]] + s[i + 1..];
  }

  lemma {:induction false} SumRemove(s: seq<Load>, i: nat)
    requires i < |s|
    ensures Sum(s) == Sum(Remove(s, i)) + s[i]
  {
    var n := |s| - 1;
    if i == n {
      assert Remove(s, i) == s[..n];
    } else {
      SumRemove(s[..n], i);
      RemoveInit(s, i);
    }
  }

  lemma {:induction false} SumPermutation(a: seq<Load>, b: seq<Load>)
    requires multiset(a) == multiset(b)
    ensures Sum(a) == Sum(b)
  {
    assert |a| == |multiset(a)| == |multiset(b)| == |b|;
    if a != [] {
      var n := |a| - 1;
      assert a[n] in multiset(b);
      var i :| 0 <= i < |b| && b[i] == a[n];
      assert Remove(a, n) == a[..n];
      RemoveBag(a, n);
      RemoveBag(b, i);
      SumPermutation(a[..n], Remove(b, i));
      SumRemove(b, i);
    }
  }

  /** Values in any order are aggregated to the same result. */
  lemma CollectPermutation(a: seq<Load>, b: seq<Load>)
    requires multiset(a) == multiset(b)
    ensures Collect(a) == Collect(b)
  {
    assert |a| == |multiset(a)| == |multiset(b)| == |b|;
    CollectMean(a);
    CollectMean(b);
    CollectSum(a);
    CollectSum(b);
    CollectTopTwo(a);
    CollectTopTwo(b);
    SumPermutation(a, b);
    TopTwoUnique(WithZeros(a), Collect(a).largest, Collect(a).second, Collect(b).largest, Collect(b).second);
  }

  lemma {:induction false} ValuesConcat(a: seq<Entry>, b: seq<Entry>, lifetime: Timestamp, hops: Hops)
    ensures Values(a + b, lifetime, hops) == Values(a, lifetime, hops) + Values(b, lifetime, hops)
  {
    if b == [] {
      assert a + b == a;
    } else {
      var init := b[..|b| - 1];
      assert (a + b)[..|a + b| - 1] == a + init;
      ValuesConcat(a, init, lifetime, hops);
    }
  }

  lemma ValuesRemove(s: seq<Entry>, i: nat, lifetime: Timestamp, hops: Hops)
    requires i < |s|
    ensures multiset(Values(s, lifetime, hops)) ==
            multiset(Values(Remove(s, i), lifetime, hops)) + multiset(Shared(s[i], lifetime, hops))
  {
    assert s == s[..i] + ([s[i]] + s[i + 1..]);
    ValuesConcat(s[..i], [s[i]] + s[i + 1..], lifetime, hops);
    ValuesConcat([s[i]], s[i + 1..], lifetime, hops);
    ValuesConcat(s[..i], s[i + 1..], lifetime, hops);
    assert [s[i]][..0] == [];
  }

  lemma {:induction false} ValuesPermutation(a: seq<Entry>, b: seq<Entry>, lifetime: Timestamp, hops: Hops)
    requires multiset(a) == multiset(b)
    ensures multiset(Values(a, lifetime, hops)) == multiset(Values(b, lifetime, hops))
  {
    assert |a| == |multiset(a)| == |multiset(b)| == |b|;
    if a != [] {
      var n := |a| - 1;
      assert a[n] in multiset(b);
      var i :| 0 <= i < |b| && b[i] == a[n];
      assert Remove(a, n) == a[..n];
      RemoveBag(a, n);
      RemoveBag(b, i);
      ValuesPermutation(a[..n], Remove(b, i), lifetime, hops);
      ValuesRemove(a, n, lifetime, hops);
      ValuesRemove(b, i, lifetime, hops);
    }
  }

  /** A location table visited in any order gives the same one-hop and two-hop values. */
  lemma VisitingOrderIrrelevant(a: seq<Entry>, b: seq<Entry>, lifetime: Timestamp, hops: Hops, target: Load)
    requires multiset(a) == multiset(b)
    ensures Collect(Values(a, lifetime, hops)).Select(target) == Collect(Values(b, lifetime, hops)).Select(target)
  {
    ValuesPermutation(a, b, lifetime, hops);
    CollectPermutation(Values(a, lifetime, hops), Values(b, lifetime, hops));
  }
}
