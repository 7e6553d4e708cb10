/**
 * LruCache: least-recently-used cache whose missing entries are created by a generator.
 */
module LruCache {

  import opened Sequences

  // ---------------------------------------------------------------------
  // The cache
  // ---------------------------------------------------------------------

  /** Least recently used key at the end of the index, entries by key. */
  datatype Entries<K, V> = Entries(index: seq<K>, values: map<K, V>)

  /** Access to an entry, which creates it or makes it the most recent one. */
  function Touch<K, V>(c: Entries<K, V>, generator: K -> V, capacity: nat, k: K): Entries<K, V> {
    if k in c.values then Entries([k] + Without(c.index, k), c.values)
    else
      var kept := if |c.values| >= capacity && c.index != [] then Evict(c) else c;
      Entries([k] + kept.index, kept.values[k := generator(k)])
  }

  function Evict<K, V>(c: Entries<K, V>): Entries<K, V>
    requires c.index != []
  {
    Entries(c.index[..|c.index| - 1], c.values - {c.index[|c.index| - 1]})
  }

  ghost predicate Consistent<K, V>(c: Entries<K, V>) {
    && NoDuplicates(c.index)
    && |c.index| == |c.values|
    && (forall k :: k in c.index ==> k in c.values)
    && (forall k :: k in c.values ==> k in c.index)
  }

  class Cache<K(==), V> {
    const generator: K -> V
    const capacity: nat
    var index: seq<K>
    var cache: map<K, V>

    ghost function Contents(): Entries<K, V>
      reads this
    {
      Entries(index, cache)
    }

    constructor (generator: K -> V, capacity: nat)
      ensures Contents() == Entries([], map[]) && Consistent(Contents())
      ensures this.generator == generator && this.capacity == capacity
    {
      this.generator, this.capacity := generator, capacity;
      index, cache := [], map[];
    }

    /** The C++ operator returns a reference. This is reading through it, ... */
    method Get(k: K) returns (v: V)
      requires Consistent(Contents())
      modifies this
      ensures Consistent(Contents())
      ensures Contents() == Touch(old(Contents()), generator, capacity, k)
      ensures k in cache && v == cache[k]
    {
      TouchConsistent(Contents(), generator, capacity, k);
      if k !in cache {
        Add(k);
      } else {
        Refresh(k);
      }
      v := cache[k];
    }

    /** ... and this is assigning through it. */
    method Put(k: K, v: V)
      requires Consistent(Contents())
      modifies this
      ensures Consistent(Contents())
      ensures var touched := Touch(old(Contents()), generator, capacity, k);
        Contents() == Entries(touched.index, touched.values[k := v])
    {
      var _ := Get(k);
      assert cache[k := v].Keys == cache.Keys;
      cache := cache[k := v];
    }

    method Add(k: K)
      requires Consistent(Contents()) && k !in cache
      modifies this
      ensures Contents() == Touch(old(Contents()), generator, capacity, k)
    {
      if |cache| >= capacity {
        Remove();
      }
      index := [k] + index;
      cache := cache[k := generator(k)];
    }

    method Refresh(k: K)
      requires k in cache
      modifies this
      ensures Contents() == Touch(old(Contents()), generator, capacity, k)
    {
      index := [k] + Without(index, k);
    }

    method Remove()
      requires Consistent(Contents())
      modifies this
      ensures Contents() == if old(index) != [] then Evict(old(Contents())) else old(Contents())
    {
      if index != [] {
        cache := cache - {index[|index| - 1]};
        index := index[..|index| - 1];
      }
    }
  }

  lemma EvictConsistent<K, V>(c: Entries<K, V>)
    requires Consistent(c) && c.index != []
    ensures Consistent(Evict(c))
  {
    var init, last := c.index[..|c.index| - 1], c.index[|c.index| - 1];
    assert c.index == init + [last];
    assert (c.values - {last}).Keys == c.values.Keys - {last};
    forall k | k in init
      ensures k in c.values - {last}
    {
      assert k in c.index;
    }
    forall k | k in c.values - {last}
      ensures k in init
    {
      assert k in c.index;
    }
  }

  lemma AddConsistent<K, V>(c: Entries<K, V>, k: K, v: V)
    requires Consistent(c) && k !in c.values
    ensures Consistent(Entries([k] + c.index, c.values[k := v]))
  {
    ConsNoDuplicates(k, c.index);
    assert c.values[k := v].Keys == c.values.Keys + {k};
  }

  lemma RefreshConsistent<K, V>(c: Entries<K, V>, k: K)
    requires Consistent(c) && k in c.values
    ensures Consistent(Entries([k] + Without(c.index, k), c.values))
  {
    WithoutElements(c.index, k);
    ConsNoDuplicates(k, Without(c.index, k));
    var front := [k] + Without(c.index, k);
    forall x | x in front
      ensures x in c.values
    {
      assert x != k ==> x in Without(c.index, k);
    }
  }

  lemma TouchConsistent<K, V>(c: Entries<K, V>, generator: K -> V, capacity: nat, k: K)
    requires Consistent(c)
    ensures Consistent(Touch(c, generator, capacity, k))
  {
    if k in c.values {
      RefreshConsistent(c, k);
    } else if |c.values| >= capacity && c.index != [] {
      EvictConsistent(c);
      AddConsistent(Evict(c), k, generator(k));
    } else {
      AddConsistent(c, k, generator(k));
    }
  }

  // ---------------------------------------------------------------------
  // Access histories
  // ---------------------------------------------------------------------

  datatype Use<K, V> = Read(key: K) | Write(key: K, value: V)

  function Step<K, V>(c: Entries<K, V>, generator: K -> V, capacity: nat, u: Use<K, V>): Entries<K, V> {
    var touched := Touch(c, generator, capacity, u.key);
    match u
    case Read(_) => touched
    case Write(k, v) => Entries(touched.index, touched.values[k := v])
  }

  function Run<K, V>(generator: K -> V, capacity: nat, h: seq<Use<K, V>>): Entries<K, V> {
    if h == [] then Entries([], map[])
    else Step(Run(generator, capacity, h[..|h| - 1]), generator, capacity, h[|h| - 1])
  }

  /** All keys of a history, most recently used first. */
  function Recent<K(==), V>(h: seq<Use<K, V>>): seq<K> {
    if h == [] then [] else [h[|h| - 1].key] + Without(Recent(h[..|h| - 1]), h[|h| - 1].key)
  }

  /** Position of the last use of a key, counted from one; zero if it has never been used. */
  function LastUse<K(==), V>(h: seq<Use<K, V>>, k: K): nat {
    if h == [] then 0 else if h[|h| - 1].key == k then |h| else LastUse(h[..|h| - 1], k)
  }

  lemma {:induction false} LastUseBound<K, V>(h: seq<Use<K, V>>, k: K)
    ensures LastUse(h, k) <= |h|
  {
    if h != [] {
      LastUseBound(h[..|h| - 1], k);
    }
  }

  /** Recent lists each used key once and sorts the keys by their last use. */
  lemma {:induction false} RecentMeaning<K, V>(h: seq<Use<K, V>>)
    ensures NoDuplicates(Recent(h))
    ensures forall k :: k in Recent(h) <==> LastUse(h, k) > 0
    ensures forall i, j :: 0 <= i < j < |Recent(h)| ==> LastUse(h, Recent(h)[i]) > LastUse(h, Recent(h)[j])
  {
    if h != [] {
      var init, key := h[..|h| - 1], h[|h| - 1].key;
      RecentMeaning(init);
      WithoutElements(Recent(init), key);
      var cut := WithoutShift(Recent(init), key);
      var r := Recent(h);
      forall i, j | 0 <= i < j < |r|
        ensures LastUse(h, r[i]) > LastUse(h, r[j])
      {
        LastUseBound(init, r[j]);
      }
    }
  }

  /** A cache without any capacity still holds one entry. */
  function Effective(capacity: nat): nat {
    if capacity == 0 then 1 else capacity
  }

  function Prefix<K>(s: seq<K>, n: nat): seq<K> {
    s[..if n < |s| then n else |s|]
  }

  /** Taking the first n elements of a list whose element k has been moved to the front. */
  lemma MovedPrefix<K>(recent: seq<K>, k: K, n: nat)
    requires n <= |recent|
    ensures k in recent[..n] ==> Prefix([k] + Without(recent, k), n) == [k] + Without(recent[..n], k)
    ensures k !in recent[..n] && n > 0 ==> Prefix([k] + Without(recent, k), n) == [k] + recent[..n - 1]
  {
    var w := Without(recent, k);
    WithoutPrefix(recent, k, n);
    if k in recent[..n] {
      assert ([k] + w)[..n] == [k] + w[..n - 1];
    } else if n > 0 {
      assert ([k] + w)[..n] == [k] + w[..n - 1];
      assert w[..n - 1] == w[..n][..n - 1];
      assert recent[..n - 1] == recent[..n][..n - 1];
    }
  }

  lemma RefreshRecent<K>(recent: seq<K>, k: K, room: nat)
    requires NoDuplicates(recent) && k in Prefix(recent, room)
    ensures Prefix([k] + Without(recent, k), room) == [k] + Without(Prefix(recent, room), k)
  {
    var n := if room < |recent| then room else |recent|;
    WithoutElements(recent, k);
    MovedPrefix(recent, k, n);
  }

  lemma AddRecent<K>(recent: seq<K>, k: K, room: nat)
    requires NoDuplicates(recent) && k !in Prefix(recent, room) && room > 0
    ensures var index := Prefix(recent, room);
      Prefix([k] + Without(recent, k), room) == [k] + if |index| == room then index[..room - 1] else index
  {
    if room <= |recent| {
      MovedPrefix(recent, k, room);
      assert recent[..room][..room - 1] == recent[..room - 1];
    } else {
      assert recent[..|recent|] == recent;
      WithoutAbsent(recent, k);
    }
  }

  /** The index follows the most recently used keys through one access. */
  lemma TouchRecent<K, V>(c: Entries<K, V>, generator: K -> V, capacity: nat, recent: seq<K>, k: K)
    requires Consistent(c) && NoDuplicates(recent)
    requires c.index == Prefix(recent, Effective(capacity))
    ensures Touch(c, generator, capacity, k).index == Prefix([k] + Without(recent, k), Effective(capacity))
  {
    if k in c.values {
      RefreshRecent(recent, k, Effective(capacity));
    } else {
      AddRecent(recent, k, Effective(capacity));
    }
  }

  /**
   * The index always equals the most recently used keys of the whole history, as many as fit,
   * and the entries are exactly those keys.
   */
  lemma {:induction false} IndexIsRecent<K, V>(generator: K -> V, capacity: nat, h: seq<Use<K, V>>)
    ensures Run(generator, capacity, h).index == Prefix(Recent(h), Effective(capacity))
    ensures Consistent(Run(generator, capacity, h))
  {
    if h != [] {
      var init, u := h[..|h| - 1], h[|h| - 1];
      var before := Run(generator, capacity, init);
      IndexIsRecent(generator, capacity, init);
      RecentMeaning(init);
      TouchRecent(before, generator, capacity, Recent(init), u.key);
      TouchConsistent(before, generator, capacity, u.key);
      var touched := Touch(before, generator, capacity, u.key);
      if u.Write? {
        assert touched.values[u.key := u.value].Keys == touched.values.Keys;
      }
    }
  }

  /** Entries that have never been assigned hold the generated value. */
  lemma {:induction false} UnmodifiedIsGenerated<K, V>(generator: K -> V, capacity: nat, h: seq<Use<K, V>>, k: K)
    requires forall i :: 0 <= i < |h| ==> h[i].key == k ==> h[i].Read?
    requires k in Run(generator, capacity, h).values
    ensures Run(generator, capacity, h).values[k] == generator(k)
  {
    if h != [] {
      var init := h[..|h| - 1];
      if k in Run(generator, capacity, init).values {
        UnmodifiedIsGenerated(generator, capacity, init, k);
      }
    }
  }

  // ---------------------------------------------------------------------
  // How long an assigned value survives
  // ---------------------------------------------------------------------

  /** Keys other than k that are used in a history. */
  ghost function Others<K, V>(h: seq<Use<K, V>>, k: K): set<K> {
    set i | 0 <= i < |h| && h[i].key != k :: h[i].key
  }

  lemma OthersGrow<K, V>(h: seq<Use<K, V>>, u: Use<K, V>, k: K)
    ensures Others(h + [u], k) == Others(h, k) + if u.key != k then {u.key} else {}
  {
    var all := h + [u];
    forall x | x in Others(h, k)
      ensures x in Others(all, k)
    {
      var i :| 0 <= i < |h| && h[i].key != k && h[i].key == x;
      assert all[i].key == x;
    }
    assert all[|h|] == u;
  }

  /** Only keys in `others` are in front of k. */
  ghost predicate InFront<K>(s: seq<K>, k: K, others: set<K>, p: nat) {
    p < |s| && s[p] == k && forall i :: 0 <= i < p ==> s[i] in others
  }

  lemma MoveInFront<K>(s: seq<K>, k: K, others: set<K>, p: nat, x: K) returns (p': nat)
    requires InFront(s, k, others, p) && NoDuplicates(s) && x != k
    ensures InFront([x] + Without(s, x), k, others + {x}, p')
  {
    var cut := WithoutShift(s, x);
    WithoutElements(s, x);
    p' := if cut < p then p else p + 1;
  }

  /** Only keys used after k can be in front of it. */
  lemma {:induction false} InFrontAreOthers<K, V>(h: seq<Use<K, V>>, u: Use<K, V>, later: seq<Use<K, V>>)
    returns (p: nat)
    ensures InFront(Recent(h + [u] + later), u.key, Others(later, u.key), p)
  {
    var all := h + [u] + later;
    if later == [] {
      assert all == h + [u] && all[..|all| - 1] == h;
      p := 0;
    } else {
      var init, x := later[..|later| - 1], later[|later| - 1];
      p := InFrontAreOthers(h, u, init);
      assert all[..|all| - 1] == h + [u] + init;
      assert later == init + [x];
      OthersGrow(init, x, u.key);
      if x.key == u.key {
        p := 0;
      } else {
        RecentMeaning(h + [u] + init);
        p := MoveInFront(Recent(h + [u] + init), u.key, Others(init, u.key), p, x.key);
      }
    }
  }

  /** A prefix without duplicates is no longer than the set it is drawn from. */
  lemma {:induction false} PrefixSize<K>(s: seq<K>, p: nat, others: set<K>)
    requires NoDuplicates(s) && p <= |s| && forall i :: 0 <= i < p ==> s[i] in others
    ensures p <= |others|
  {
    if p > 0 {
      PrefixSize(s, p - 1, others - {s[p - 1]});
    }
  }

  lemma SubsetSize<K>(a: set<K>, b: set<K>)
    requires a <= b
    ensures |a| <= |b|
  {
    assert b == a + (b - a);
  }

  /** A key stays cached while fewer other keys than fit into the cache are used. */
  lemma StaysCached<K, V>(generator: K -> V, capacity: nat, h: seq<Use<K, V>>, u: Use<K, V>, later: seq<Use<K, V>>)
    requires |Others(later, u.key)| < Effective(capacity)
    ensures u.key in Run(generator, capacity, h + [u] + later).values
  {
    var all := h + [u] + later;
    var p := InFrontAreOthers(h, u, later);
    RecentMeaning(all);
    PrefixSize(Recent(all), p, Others(later, u.key));
    IndexIsRecent(generator, capacity, all);
    assert Prefix(Recent(all), Effective(capacity))[p] == u.key;
  }

  lemma {:induction false} LastUseAtLeast<K, V>(h: seq<Use<K, V>>, j: nat)
    requires j < |h|
    ensures LastUse(h, h[j].key) > j
    ensures (forall i :: j < i < |h| ==> h[i].key != h[j].key) ==> LastUse(h, h[j].key) == j + 1
  {
    if j < |h| - 1 {
      LastUseAtLeast(h[..|h| - 1], j);
    }
  }

  /** The first n elements of a list hold no more than n different ones. */
  lemma {:induction false} FirstElements<K>(s: seq<K>, n: nat, some: set<K>)
    requires n <= |s| && forall x :: x in some ==> x in s[..n]
    ensures |some| <= n
  {
    if n == 0 {
      assert some == {};
    } else {
      var last := s[n - 1];
      assert s[..n] == s[..n - 1] + [last];
      FirstElements(s, n - 1, some - {last});
      assert last in some ==> some == (some - {last}) + {last};
      assert last !in some ==> some == some - {last};
    }
  }

  /** Keys used after the last use of k are in front of it. */
  lemma LaterInFront<K, V>(h: seq<Use<K, V>>, u: Use<K, V>, later: seq<Use<K, V>>, p: nat)
    requires var r := Recent(h + [u] + later); p < |r| && r[p] == u.key
    requires forall i :: 0 <= i < |later| ==> later[i].key != u.key
    ensures |Others(later, u.key)| <= p
  {
    hide Recent, LastUse, NoDuplicates;
    var all := h + [u] + later;
    var r := Recent(all);
    assert all[|h|] == u;
    LastUseAtLeast(all, |h|);
    RecentMeaning(all);
    forall x | x in Others(later, u.key)
      ensures x in r[..p]
    {
      var i :| 0 <= i < |later| && later[i].key == x;
      assert all[|h| + 1 + i] == later[i];
      LastUseAtLeast(all, |h| + 1 + i);
      var j :| 0 <= j < |r| && r[j] == x;
      assert j < p;
    }
    FirstElements(r, p, Others(later, u.key));
  }

  /** A key is cached if and only if fewer other keys than fit into the cache have been used since its last use. */
  lemma CachedIff<K, V>(generator: K -> V, capacity: nat, h: seq<Use<K, V>>, u: Use<K, V>, later: seq<Use<K, V>>)
    requires forall i :: 0 <= i < |later| ==> later[i].key != u.key
    ensures u.key in Run(generator, capacity, h + [u] + later).values <==>
            |Others(later, u.key)| < Effective(capacity)
  {
    var all := h + [u] + later;
    if |Others(later, u.key)| < Effective(capacity) {
      StaysCached(generator, capacity, h, u, later);
    } else {
      var p := InFrontAreOthers(h, u, later);
      LaterInFront(h, u, later, p);
      RecentMeaning(all);
      IndexIsRecent(generator, capacity, all);
      hide Recent, Run, Others;
      assert u.key !in Prefix(Recent(all), Effective(capacity));
    }
  }

  /** A key that has never been used is not cached. */
  lemma NeverUsedNotCached<K, V>(generator: K -> V, capacity: nat, h: seq<Use<K, V>>, k: K)
    requires forall i :: 0 <= i < |h| ==> h[i].key != k
    ensures k !in Run(generator, capacity, h).values
  {
    NoLastUse(h, k);
    RecentMeaning(h);
    IndexIsRecent(generator, capacity, h);
    hide Recent, Run;
  }

  lemma {:induction false} NoLastUse<K, V>(h: seq<Use<K, V>>, k: K)
    requires forall i :: 0 <= i < |h| ==> h[i].key != k
    ensures LastUse(h, k) == 0
  {
    if h != [] {
      NoLastUse(h[..|h| - 1], k);
    }
  }

  lemma StepKeepsValue<K, V>(c: Entries<K, V>, generator: K -> V, capacity: nat, u: Use<K, V>, k: K)
    requires k in c.values && k in Step(c, generator, capacity, u).values
    requires u.key == k ==> u.Read?
    ensures Step(c, generator, capacity, u).values[k] == c.values[k]
  {
  }

  /**
   * An assigned value is read back unless the key is assigned again, as long as fewer other keys
   * than fit into the cache have been used since.
   */
  lemma {:induction false} WrittenValueSurvives<K, V>(generator: K -> V, capacity: nat,
      h: seq<Use<K, V>>, k: K, v: V, later: seq<Use<K, V>>)
    requires |Others(later, k)| < Effective(capacity)
    requires forall i :: 0 <= i < |later| ==> later[i].key == k ==> later[i].Read?
    ensures var c := Run(generator, capacity, h + [Write(k, v)] + later); k in c.values && c.values[k] == v
  {
    var all := h + [Write(k, v)] + later;
    StaysCached(generator, capacity, h, Write(k, v), later);
    if later == [] {
      assert all == h + [Write(k, v)];
    } else {
      var init, x := later[..|later| - 1], later[|later| - 1];
      assert all[..|all| - 1] == h + [Write(k, v)] + init;
      assert later == init + [x];
      OthersGrow(init, x, k);
      SubsetSize(Others(init, k), Others(later, k));
      WrittenValueSurvives(generator, capacity, h, k, v, init);
      StepKeepsValue(Run(generator, capacity, h + [Write(k, v)] + init), generator, capacity, x, k);
    }
  }
}
