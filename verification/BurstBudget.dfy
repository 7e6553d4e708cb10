/**
 * BurstBudget: transmission restrictions for DP0 message bursts.
 *
 * The budget keeps the most recent transmission times in a circular buffer.
 * Time is an integer number of microseconds.
 */
module BurstBudget {

  /** Limits of the C2C-CC Basic System Profile as set by the constructor. */
  const N_BURST: nat := 20
  const T_BURST: int := 1_000_000
  const T_BURST_PERIOD: int := 10_000_000

  datatype Limits = Limits(capacity: nat, duration: int, period: int) {
    /** What the setters and the assertion in delay() demand. */
    predicate Valid() {
      0 < duration < period
    }
  }

  /** A circular buffer drops its oldest element when an element is pushed while it is full. */
  function PushBack(messages: seq<int>, capacity: nat, now: int): (r: seq<int>)
    requires |messages| <= capacity
    ensures |r| <= capacity
  {
    if capacity == 0 then []
    else if |messages| == capacity then messages[1..] + [now]
    else messages + [now]
  }

  /** Buffer contents after delay(): only an overdue burst clears it. */
  function AfterDelay(l: Limits, messages: seq<int>, now: int): seq<int> {
    if messages == [] || (messages[0] + l.duration > now && |messages| != l.capacity) then messages
    else if messages[0] + l.period < now then []
    else messages
  }

  /** Duration returned by delay(). */
  function Delay(l: Limits, messages: seq<int>, now: int): int {
    if messages == [] || (messages[0] + l.duration > now && |messages| != l.capacity) then 0
    else if messages[0] + l.period < now then 0
    else messages[0] + l.period - now
  }

  /**
   * The delay is the shortest one that remains in budget: without further notifications the budget is
   * closed before that time and open at that time.
   */
  lemma DelayIsShortest(l: Limits, messages: seq<int>, now: int, t: int)
    requires l.Valid() && |messages| <= l.capacity && now <= t
    ensures Delay(l, messages, now) >= 0
    ensures var d := Delay(l, messages, now);
      (t < now + d ==> Delay(l, messages, t) == now + d - t) && (d > 0 && t == now + d ==> Delay(l, messages, t) == 0)
  {
  }

  /**
   * The budget is open if nothing is buffered, during a burst that has room left, and from the end of its period on.
   * A burst is forgotten exactly after the end of its period.
   */
  lemma OpenIff(l: Limits, messages: seq<int>, now: int)
    requires l.Valid() && messages != []
    ensures Delay(l, messages, now) == 0 <==>
            (now < messages[0] + l.duration && |messages| != l.capacity) || messages[0] + l.period <= now
    ensures |messages| <= l.capacity ==>
            AfterDelay(l, messages, now) == if messages[0] + l.period < now then [] else messages
  {
  }

  /** Time points of the clock's epoch, by which resizing fills up the buffer. */
  const EPOCH: int := 0

  /** Resizing a circular buffer may raise its capacity but never lowers it. */
  function Resized(l: Limits, n: nat): Limits {
    l.(capacity := if n > l.capacity then n else l.capacity)
  }

  /** Resizing a circular buffer removes its last elements, or appends default elements, to reach the given size. */
  function ResizedTo(messages: seq<int>, n: nat): (r: seq<int>)
    ensures |r| == n
  {
    if n <= |messages| then messages[..n] else messages + Times(EPOCH, n - |messages|)
  }

  class Budget {
    var limits: Limits
    var messages: seq<int>

    ghost predicate Valid()
      reads this
    {
      limits.Valid() && |messages| <= limits.capacity
    }

    constructor ()
      ensures Valid() && messages == []
      ensures limits == Limits(N_BURST, T_BURST, T_BURST_PERIOD)
    {
      limits := Limits(N_BURST, T_BURST, T_BURST_PERIOD);
      messages := [];
    }

    method GetDelay(now: int) returns (delay: int)
      requires Valid()
      modifies this`messages
      ensures Valid()
      ensures delay == Delay(limits, old(messages), now)
      ensures messages == AfterDelay(limits, old(messages), now)
    {
      if messages == [] {
        delay := 0;
      } else if messages[0] + limits.duration > now && |messages| != limits.capacity {
        delay := 0;
      } else if messages[0] + limits.period < now {
        messages := [];
        delay := 0;
      } else {
        delay := messages[0] + limits.period - now;
      }
    }

    method Notify(now: int)
      requires Valid()
      modifies this`messages
      ensures Valid()
      ensures messages == PushBack(old(messages), limits.capacity, now)
    {
      messages := PushBack(messages, limits.capacity, now);
    }

    method SetBurstMessages(n: nat)
      requires Valid()
      modifies this
      ensures Valid()
      ensures limits == Resized(old(limits), n) && messages == ResizedTo(old(messages), n)
    {
      limits, messages := Resized(limits, n), ResizedTo(messages, n);
    }
  }

  // ---------------------------------------------------------------------
  // Whole runs
  // ---------------------------------------------------------------------

  /**
   * One use of the budget: delay() is asked at some time. If `send` is set and
   * the answer was zero, then the transmission takes place and notify() follows.
   */
  datatype Use = Use(at: int, send: bool)

  /** Buffer, and the log of all notifications so far. */
  datatype State = State(messages: seq<int>, sent: seq<int>)

  function Step(l: Limits, s: State, u: Use): (r: State)
    requires |s.messages| <= l.capacity
    ensures |r.messages| <= l.capacity
  {
    var kept := AfterDelay(l, s.messages, u.at);
    if u.send && Delay(l, s.messages, u.at) == 0
    then State(PushBack(kept, l.capacity, u.at), s.sent + [u.at])
    else State(kept, s.sent)
  }

  function Run(l: Limits, uses: seq<Use>): (r: State)
    ensures |r.messages| <= l.capacity
  {
    if uses == [] then State([], [])
    else Step(l, Run(l, uses[..|uses| - 1]), uses[|uses| - 1])
  }

  /** Time never runs backwards during a run. */
  ghost predicate Monotone(uses: seq<Use>) {
    forall i, j :: 0 <= i < j < |uses| ==> uses[i].at <= uses[j].at
  }

  ghost predicate Ascending(s: seq<int>) {
    forall i, j :: 0 <= i <= j < |s| ==> s[i] <= s[j]
  }

  /** Number of elements within the half-open window [from, from + length). */
  function CountWithin(s: seq<int>, from: int, length: int): nat {
    if s == [] then 0
    else CountWithin(s[..|s| - 1], from, length) + if from <= s[|s| - 1] < from + length then 1 else 0
  }

  /**
   * Proof bookkeeping. A generation is the stretch of notifications between two
   * clearings of the buffer: `start` is the index of its first notification,
   * `front` the index of the message that was at the buffer's front when the
   * previous generation was cleared, and `cleared` the time of that clearing.
   */
  ghost predicate Generation(l: Limits, s: State, now: int, start: nat, front: nat, cleared: int) {
    && start <= |s.sent|
    && Ascending(s.sent)
    && (s.sent != [] ==> s.sent[|s.sent| - 1] <= now)
    && s.messages == s.sent[Oldest(l, |s.sent|, start)..]
    && RollsOver(l, s.sent, start)
    && LeftBehind(l, s.sent, now, start, front, cleared)
  }

  /** Within one generation a full buffer only ever rolls over after exactly one period. */
  ghost predicate RollsOver(l: Limits, sent: seq<int>, start: nat) {
    forall i, j :: start <= i && j == i + l.capacity && j < |sent| ==> sent[j] == sent[i] + l.period
  }

  /** An earlier generation is left behind by more than one period. */
  ghost predicate LeftBehind(l: Limits, sent: seq<int>, now: int, start: nat, front: nat, cleared: int)
    requires start <= |sent|
  {
    start > 0 ==>
      && front < start <= front + l.capacity
      && sent[front] + l.period < cleared <= now
      && (forall j :: start <= j < |sent| ==> cleared <= sent[j])
  }

  /** Index of the oldest notification that is still buffered. */
  function Oldest(l: Limits, n: nat, start: nat): nat {
    if n - l.capacity > start then n - l.capacity else start
  }

  /** Any 2N consecutive notifications span at least one period. */
  ghost predicate Spaced(l: Limits, sent: seq<int>)
    requires l.capacity >= 1
  {
    forall i, j :: 0 <= i && j == i + 2 * l.capacity - 1 && j < |sent| ==> sent[i] + l.period <= sent[j]
  }

  /** delay() may end a generation. */
  lemma DelayGeneration(l: Limits, s: State, at: int, start: nat, front: nat, cleared: int)
    returns (start': nat, front': nat, cleared': int)
    requires l.Valid() && l.capacity >= 1
    requires Generation(l, s, at, start, front, cleared)
    ensures Generation(l, State(AfterDelay(l, s.messages, at), s.sent), at, start', front', cleared')
  {
    var n := |s.sent|;
    if AfterDelay(l, s.messages, at) != s.messages {
      assert s.messages[0] == s.sent[Oldest(l, n, start)];
      start', front', cleared' := n, Oldest(l, n, start), at;
    } else {
      start', front', cleared' := start, front, cleared;
    }
  }

  /** A notification at an instant where the delay is zero extends the generation. */
  lemma NotifyGeneration(l: Limits, s: State, at: int, start: nat, front: nat, cleared: int)
    requires l.Valid() && l.capacity >= 1
    requires Generation(l, s, at, start, front, cleared)
    requires AfterDelay(l, s.messages, at) == s.messages && Delay(l, s.messages, at) == 0
    ensures |s.messages| <= l.capacity
    ensures Generation(l, State(PushBack(s.messages, l.capacity, at), s.sent + [at]), at, start, front, cleared)
  {
    hide RollsOver, LeftBehind, PushBack, Oldest;
    PushKeepsLatest(l, s.sent, at, start);
    ZeroDelayWhenFull(l, s, at, start);
    RollOver(l, s.sent, at, start);
    StillLeftBehind(l, s.sent, at, start, front, cleared);
  }

  /** The buffer still holds the latest notifications after one more. */
  lemma PushKeepsLatest(l: Limits, sent: seq<int>, at: int, start: nat)
    requires l.capacity >= 1 && start <= |sent|
    ensures |sent[Oldest(l, |sent|, start)..]| <= l.capacity
    ensures PushBack(sent[Oldest(l, |sent|, start)..], l.capacity, at) ==
            (sent + [at])[Oldest(l, |sent| + 1, start)..]
  {
  }

  /** A full buffer has no delay exactly at the end of its period. */
  lemma ZeroDelayWhenFull(l: Limits, s: State, at: int, start: nat)
    requires l.Valid() && l.capacity >= 1 && start <= |s.sent|
    requires s.messages == s.sent[Oldest(l, |s.sent|, start)..]
    requires AfterDelay(l, s.messages, at) == s.messages && Delay(l, s.messages, at) == 0
    ensures |s.sent| - l.capacity >= start ==> at == s.sent[|s.sent| - l.capacity] + l.period
  {
  }

  lemma StillLeftBehind(l: Limits, sent: seq<int>, at: int, start: nat, front: nat, cleared: int)
    requires start <= |sent| && LeftBehind(l, sent, at, start, front, cleared)
    ensures LeftBehind(l, sent + [at], at, start, front, cleared)
  {
  }

  lemma RollOver(l: Limits, sent: seq<int>, at: int, start: nat)
    requires l.capacity >= 1 && RollsOver(l, sent, start)
    requires |sent| - l.capacity >= start ==> at == sent[|sent| - l.capacity] + l.period
    ensures RollsOver(l, sent + [at], start)
  {
  }

  /** The bookkeeping implies that a new notification respects the spacing. */
  lemma SpacedNow(l: Limits, s: State, now: int, start: nat, front: nat, cleared: int)
    requires l.Valid() && l.capacity >= 1
    requires Generation(l, s, now, start, front, cleared)
    requires start < |s.sent| && Spaced(l, s.sent[..|s.sent| - 1])
    ensures Spaced(l, s.sent)
  {
    var last := |s.sent| - 1;
    forall i, j | 0 <= i && j == i + 2 * l.capacity - 1 && j < |s.sent|
      ensures s.sent[i] + l.period <= s.sent[j]
    {
      if j == last {
        var m := j - l.capacity;
        if start <= m {
          assert s.sent[m] + l.period == s.sent[j];
          assert s.sent[i] <= s.sent[m];
        } else {
          assert s.sent[i] <= s.sent[front];
        }
      } else {
        assert s.sent[..last][i] + l.period <= s.sent[..last][j];
      }
    }
  }

  /** One use of the budget keeps the bookkeeping and the spacing. */
  lemma StepSpaced(l: Limits, s: State, u: Use, start: nat, front: nat, cleared: int)
    returns (start': nat, front': nat, cleared': int)
    requires l.Valid() && l.capacity >= 1 && |s.messages| <= l.capacity
    requires Generation(l, s, u.at, start, front, cleared) && Spaced(l, s.sent)
    ensures Generation(l, Step(l, s, u), u.at, start', front', cleared')
    ensures Spaced(l, Step(l, s, u).sent)
  {
    start', front', cleared' := DelayGeneration(l, s, u.at, start, front, cleared);
    if u.send && Delay(l, s.messages, u.at) == 0 {
      NotifyGeneration(l, State(AfterDelay(l, s.messages, u.at), s.sent), u.at, start', front', cleared');
      var r := Step(l, s, u);
      assert r.sent[..|r.sent| - 1] == s.sent;
      SpacedNow(l, r, u.at, start', front', cleared');
    }
  }

  /** In every run, any 2N consecutive notifications span at least one period. */
  lemma {:induction false} RunSpaced(l: Limits, uses: seq<Use>, now: int)
    returns (start: nat, front: nat, cleared: int)
    requires l.Valid() && l.capacity >= 1 && Monotone(uses)
    requires uses != [] ==> uses[|uses| - 1].at <= now
    ensures Generation(l, Run(l, uses), now, start, front, cleared)
    ensures Spaced(l, Run(l, uses).sent)
  {
    if uses == [] {
      start, front, cleared := 0, 0, 0;
    } else {
      var u := uses[|uses| - 1];
      start, front, cleared := RunSpaced(l, uses[..|uses| - 1], u.at);
      start, front, cleared := StepSpaced(l, Run(l, uses[..|uses| - 1]), u, start, front, cleared);
    }
  }

  /** In an ascending sequence the members of a window are consecutive. */
  lemma {:induction false} WindowIsStretch(s: seq<int>, from: int, length: int)
    requires Ascending(s)
    ensures var c := CountWithin(s, from, length);
      c <= |s| && (c > 0 ==> exists i :: 0 <= i && i + c <= |s| && from <= s[i] && s[i + c - 1] < from + length)
    ensures var c := CountWithin(s, from, length);
      |s| > 0 && s[|s| - 1] < from + length && c > 0 ==> from <= s[|s| - c]
  {
    if s != [] {
      var init := s[..|s| - 1];
      WindowIsStretch(init, from, length);
      var c := CountWithin(init, from, length);
      var last := s[|s| - 1];
      if from <= last < from + length {
        assert c > 0 ==> init[|init| - 1] < from + length;
        assert from <= s[|s| - 1 - c] && s[|s| - 1] < from + length;
      } else if c > 0 {
        var i :| 0 <= i && i + c <= |init| && from <= init[i] && init[i + c - 1] < from + length;
        assert from <= s[i] && s[i + c - 1] < from + length;
      }
    }
  }

  /** A stretch of spaced notifications that fits into one period is shorter than 2N. */
  lemma ShortStretch(l: Limits, sent: seq<int>, i: nat, c: nat)
    requires l.capacity >= 1 && Ascending(sent) && Spaced(l, sent)
    requires 0 < c && i + c <= |sent| && sent[i + c - 1] < sent[i] + l.period
    ensures c <= 2 * l.capacity - 1
  {
    var j := i + 2 * l.capacity - 1;
    if j < |sent| {
      assert sent[i] + l.period <= sent[j];
    }
  }

  /**
   * Burst limit: no half-open window of one burst period contains more than 2N - 1 notifications,
   * no matter how the uses are timed, provided that the buffer has any capacity.
   */
  lemma BurstLimit(l: Limits, uses: seq<Use>, from: int)
    requires l.Valid() && l.capacity >= 1 && Monotone(uses)
    ensures CountWithin(Run(l, uses).sent, from, l.period) <= 2 * l.capacity - 1
  {
    var now := if uses == [] then 0 else uses[|uses| - 1].at;
    var start, front, cleared := RunSpaced(l, uses, now);
    var sent := Run(l, uses).sent;
    WindowIsStretch(sent, from, l.period);
    var c := CountWithin(sent, from, l.period);
    if c > 0 {
      var i :| 0 <= i && i + c <= |sent| && from <= sent[i] && sent[i + c - 1] < from + l.period;
      ShortStretch(l, sent, i, c);
    }
  }

  // ---------------------------------------------------------------------
  // Between two bursts
  // ---------------------------------------------------------------------

  /** The next use lets a message through. */
  predicate Passes(l: Limits, s: State, u: Use) {
    u.send && Delay(l, s.messages, u.at) == 0
  }

  /** A burst has begun at time f and its first message is still at the front, or one period has passed since then. */
  ghost predicate BegunAt(l: Limits, s: State, f: int, now: int) {
    (s.messages != [] && s.messages[0] == f) || f + l.period <= now
  }

  lemma StepBegunAt(l: Limits, s: State, u: Use, f: int, now: int)
    requires l.Valid() && |s.messages| <= l.capacity && BegunAt(l, s, f, now) && now <= u.at && f <= now
    ensures BegunAt(l, Step(l, s, u), f, u.at)
    ensures Passes(l, s, u) ==> u.at < f + l.duration || f + l.period <= u.at
  {
  }

  /** The first message of a burst. */
  lemma FirstBegunAt(l: Limits, s: State, u: Use)
    requires l.capacity >= 1 && |s.messages| <= l.capacity
    requires AfterDelay(l, s.messages, u.at) == [] && Passes(l, s, u)
    ensures BegunAt(l, Step(l, s, u), u.at, u.at)
  {
  }

  lemma RunNext(l: Limits, uses: seq<Use>, m: nat)
    requires 0 < m <= |uses|
    ensures Run(l, uses[..m]) == Step(l, Run(l, uses[..m - 1]), uses[m - 1])
  {
    assert uses[..m][..m - 1] == uses[..m - 1];
  }

  lemma {:induction false} RunBegunAt(l: Limits, uses: seq<Use>, n: nat, m: nat)
    requires l.Valid() && l.capacity >= 1 && Monotone(uses) && n < m <= |uses|
    requires var s := Run(l, uses[..n]); AfterDelay(l, s.messages, uses[n].at) == [] && Passes(l, s, uses[n])
    ensures BegunAt(l, Run(l, uses[..m]), uses[n].at, uses[m - 1].at)
  {
    hide Step, BegunAt, Passes, Run, AfterDelay;
    RunNext(l, uses, m);
    if m > n + 1 {
      RunBegunAt(l, uses, n, m - 1);
      StepBegunAt(l, Run(l, uses[..m - 1]), uses[m - 1], uses[n].at, uses[m - 2].at);
    } else {
      FirstBegunAt(l, Run(l, uses[..n]), uses[n]);
    }
  }

  /**
   * Bursts are short: after the first message of a burst, messages pass for the duration of a burst only, and then
   * not before the period is over, in every run.
   */
  lemma QuietPhase(l: Limits, uses: seq<Use>, n: nat, m: nat)
    requires l.Valid() && l.capacity >= 1 && Monotone(uses) && n < m < |uses|
    requires var s := Run(l, uses[..n]); AfterDelay(l, s.messages, uses[n].at) == [] && Passes(l, s, uses[n])
    requires Passes(l, Run(l, uses[..m]), uses[m])
    ensures uses[m].at < uses[n].at + l.duration || uses[n].at + l.period <= uses[m].at
  {
    RunBegunAt(l, uses, n, m);
    StepBegunAt(l, Run(l, uses[..m]), uses[m], uses[n].at, uses[m - 1].at);
  }

  // ---------------------------------------------------------------------
  // The limit is attained
  // ---------------------------------------------------------------------

  function Sends(at: int, k: nat): seq<Use> {
    seq(k, _ => Use(at, true))
  }

  function Times(at: int, k: nat): seq<int> {
    seq(k, _ => at)
  }

  lemma {:induction false} CountTimes(prefix: seq<int>, at: int, k: nat, from: int, length: int)
    requires from <= at < from + length
    ensures CountWithin(prefix + Times(at, k), from, length) == CountWithin(prefix, from, length) + k
  {
    if k == 0 {
      assert prefix + Times(at, 0) == prefix;
    } else {
      var s := prefix + Times(at, k);
      assert s[..|s| - 1] == prefix + Times(at, k - 1);
      CountTimes(prefix, at, k - 1, from, length);
    }
  }

  /** The buffer lets a message through without being cleared first. */
  ghost predicate Admits(l: Limits, messages: seq<int>, at: int) {
    messages != [] ==> messages[0] + l.period == at || messages[0] == at
  }

  lemma RunMore(l: Limits, uses: seq<Use>, u: Use)
    ensures Run(l, uses + [u]) == Step(l, Run(l, uses), u)
  {
    var all := uses + [u];
    assert all[..|all| - 1] == uses;
  }

  /** k sends in a row at one instant, all of them while the buffer has room. */
  lemma {:induction false} RunSends(l: Limits, uses: seq<Use>, at: int, k: nat)
    requires l.Valid() && Admits(l, Run(l, uses).messages, at)
    requires |Run(l, uses).messages| + k <= l.capacity
    ensures Run(l, uses + Sends(at, k)) ==
            State(Run(l, uses).messages + Times(at, k), Run(l, uses).sent + Times(at, k))
  {
    hide Step, Admits, Run;
    var s := Run(l, uses);
    if k == 0 {
      assert uses + Sends(at, 0) == uses;
      assert s == State(s.messages + Times(at, 0), s.sent + Times(at, 0));
    } else {
      RunSends(l, uses, at, k - 1);
      assert uses + Sends(at, k) == (uses + Sends(at, k - 1)) + [Use(at, true)];
      RunMore(l, uses + Sends(at, k - 1), Use(at, true));
      StillAdmits(l, s.messages, at, k - 1);
      OneSend(l, State(s.messages + Times(at, k - 1), s.sent + Times(at, k - 1)), at);
      assert s.messages + Times(at, k - 1) + [at] == s.messages + Times(at, k);
      assert s.sent + Times(at, k - 1) + [at] == s.sent + Times(at, k);
    }
  }

  lemma StillAdmits(l: Limits, messages: seq<int>, at: int, k: nat)
    requires Admits(l, messages, at)
    ensures Admits(l, messages + Times(at, k), at)
  {
  }

  lemma OneSend(l: Limits, s: State, at: int)
    requires l.Valid() && |s.messages| < l.capacity && Admits(l, s.messages, at)
    ensures Step(l, s, Use(at, true)) == State(s.messages + [at], s.sent + [at])
  {
  }

  /** One message, N - 1 more exactly one period later and N more just after that. */
  function Saturating(l: Limits): seq<Use>
    requires l.capacity >= 1
  {
    [Use(0, true)] + Sends(l.period, l.capacity - 1) + [Use(l.period + 1, true)] + Sends(l.period + 1, l.capacity - 1)
  }

  /** The burst limit is attained for every capacity: the end of one burst and the next one fit into one period. */
  lemma BurstLimitAttained(l: Limits)
    requires l.Valid() && l.capacity >= 1
    ensures Monotone(Saturating(l))
    ensures CountWithin(Run(l, Saturating(l)).sent, l.period, l.period) == 2 * l.capacity - 1
  {
    hide Run, CountWithin, Sends, Times, Monotone, Saturating;
    SaturatingMonotone(l);
    RunSaturating(l);
    CountSaturating(l);
  }

  lemma RunSaturating(l: Limits)
    requires l.Valid() && l.capacity >= 1
    ensures Run(l, Saturating(l)).sent ==
            [0] + Times(l.period, l.capacity - 1) + [l.period + 1] + Times(l.period + 1, l.capacity - 1)
  {
    hide Run, Sends, Times;
    RunCleared(l);
    var cleared := [Use(0, true)] + Sends(l.period, l.capacity - 1) + [Use(l.period + 1, true)];
    RunSends(l, cleared, l.period + 1, l.capacity - 1);
  }

  lemma CountSaturating(l: Limits)
    requires l.Valid() && l.capacity >= 1
    ensures var sent := [0] + Times(l.period, l.capacity - 1) + [l.period + 1] + Times(l.period + 1, l.capacity - 1);
      CountWithin(sent, l.period, l.period) == 2 * l.capacity - 1
  {
    var boundary := [0] + Times(l.period, l.capacity - 1);
    var cleared := boundary + [l.period + 1];
    CountTimes(cleared, l.period + 1, l.capacity - 1, l.period, l.period);
    assert cleared[..|cleared| - 1] == boundary;
    CountTimes([0], l.period, l.capacity - 1, l.period, l.period);
  }

  lemma SaturatingMonotone(l: Limits)
    requires l.Valid() && l.capacity >= 1
    ensures Monotone(Saturating(l))
  {
    var uses, n := Saturating(l), l.capacity;
    forall i | 0 <= i < |uses|
      ensures uses[i].at == if i == 0 then 0 else if i < n then l.period else l.period + 1
    {
    }
  }

  lemma RunCleared(l: Limits)
    requires l.Valid() && l.capacity >= 1
    ensures Run(l, [Use(0, true)] + Sends(l.period, l.capacity - 1) + [Use(l.period + 1, true)]) ==
            State([l.period + 1], [0] + Times(l.period, l.capacity - 1) + [l.period + 1])
  {
    RunBoundary(l);
    RunMore(l, [Use(0, true)] + Sends(l.period, l.capacity - 1), Use(l.period + 1, true));
  }

  lemma RunBoundary(l: Limits)
    requires l.Valid() && l.capacity >= 1
    ensures var b := [0] + Times(l.period, l.capacity - 1);
      Run(l, [Use(0, true)] + Sends(l.period, l.capacity - 1)) == State(b, b)
  {
    var first := [Use(0, true)];
    assert first == [] + first;
    RunMore(l, [], Use(0, true));
    OneSend(l, State([], []), 0);
    RunSends(l, first, l.period, l.capacity - 1);
  }

  // ---------------------------------------------------------------------
  // Reconfiguration
  // ---------------------------------------------------------------------

  /**
   * Setting the number of messages per burst takes effect if and only if it is not lowered. If so, the buffer is
   * full afterwards: the budget is closed until one period after its front, which is the epoch if it was empty.
   */
  lemma SetterRaisesOnly(l: Limits, messages: seq<int>, n: nat, now: int)
    requires l.Valid() && |messages| <= l.capacity && 0 < l.capacity
    ensures Resized(l, n).capacity == n <==> n >= l.capacity
    ensures Resized(l, n).capacity >= l.capacity
    ensures var front := if messages == [] then EPOCH else messages[0];
      n >= l.capacity ==> (Delay(Resized(l, n), ResizedTo(messages, n), now) > 0 <==> now < front + l.period)
  {
    if n >= l.capacity {
      var r := ResizedTo(messages, n);
      assert r[0] == if messages == [] then EPOCH else messages[0];
    }
  }

  /** Any number of messages that are sent at one instant, as far as the budget permits. */
  function SendMany(l: Limits, s: State, at: int, k: nat): (r: State)
    requires |s.messages| <= l.capacity
    ensures |r.messages| <= l.capacity
  {
    if k == 0 then s else Step(l, SendMany(l, s, at, k - 1), Use(at, true))
  }

  /** Exactly as many messages pass an empty buffer at one instant as it has capacity for. */
  lemma {:induction false} SendManyFromEmpty(l: Limits, sent: seq<int>, at: int, k: nat)
    requires l.Valid() && 0 < l.capacity
    ensures var passed := if k < l.capacity then k else l.capacity;
      SendMany(l, State([], sent), at, k) == State(Times(at, passed), sent + Times(at, passed))
  {
    if k == 0 {
      assert sent + Times(at, 0) == sent;
    } else {
      SendManyFromEmpty(l, sent, at, k - 1);
      if k <= l.capacity {
        OneSend(l, State(Times(at, k - 1), sent + Times(at, k - 1)), at);
        assert Times(at, k - 1) + [at] == Times(at, k);
        assert sent + Times(at, k - 1) + [at] == sent + Times(at, k);
      }
    }
  }

  /** Rounds of k messages at one instant; before each round the number of messages per burst is set to zero. */
  function Rounds(l: Limits, at: int, k: nat, rounds: nat): (r: State)
    ensures |r.messages| <= l.capacity
  {
    if rounds == 0 then State([], [])
    else
      var s := Rounds(l, at, k, rounds - 1);
      SendMany(Resized(l, 0), State(ResizedTo(s.messages, 0), s.sent), at, k)
  }

  function Product(n: nat, k: nat): nat {
    n * k
  }

  lemma NextProduct(n: nat, k: nat)
    requires n > 0
    ensures Product(n, k) == Product(n - 1, k) + k
  {
  }

  /**
   * Lowering the number of messages to zero does not close the budget. It forgets the burst and still admits as
   * many messages as before, so that there is no limit on the messages sent at one instant.
   */
  lemma {:induction false} LoweringForgets(l: Limits, at: int, k: nat, rounds: nat)
    requires l.Valid() && 0 < l.capacity
    ensures var passed := if k < l.capacity then k else l.capacity;
      Rounds(l, at, k, rounds).sent == Times(at, Product(rounds, passed))
  {
    var passed := if k < l.capacity then k else l.capacity;
    if rounds > 0 {
      var s := Rounds(l, at, k, rounds - 1);
      assert Resized(l, 0) == l && ResizedTo(s.messages, 0) == [];
      hide Product, SendMany, Times, ResizedTo, Resized;
      LoweringForgets(l, at, k, rounds - 1);
      SendManyFromEmpty(l, s.sent, at, k);
      NextProduct(rounds, passed);
      TimesMore(at, Product(rounds - 1, passed), passed);
    }
  }

  lemma TimesMore(at: int, a: nat, b: nat)
    ensures Times(at, a) + Times(at, b) == Times(at, a + b)
  {
  }
}
