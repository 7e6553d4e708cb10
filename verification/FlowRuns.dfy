/**
 * Properties of FlowControl over whole runs, for any rate control.
 */
module FlowRuns {
  import opened Runtime
  import opened FlowModel

  /** Everything that can happen, together with the answers of the rate control at that time. */
  datatype Op =
    | Submit(profile: Profile, lifetime: int, size: nat, delays: Delays)
    | Fire(before: Delays, after: Delays)
    | Retime(delays: Delays)
    | Advance(to: int)
    | SetLimit(limit: nat)

  function NextRequest(s: State, profile: Profile, lifetime: int, size: nat): Request {
    Request(profile, lifetime, size, |s.requests|)
  }

  function Step(s: State, op: Op): (r: State)
    requires Shaped(s)
    ensures Shaped(r)
  {
    AllAliveShape(s.queues, s.now);
    match op
    case Submit(profile, lifetime, size, d) => Arrive(s, NextRequest(s, profile, lifetime, size), d)
    case Fire(before, after) => if s.wakes == [] then s else Trigger(s.(wakes := s.wakes[1..]), before, after)
    case Retime(d) => Reschedule(s, d)
    case Advance(to) => s.(now := to)
    case SetLimit(limit) => s.(limit := limit)
  }

  predicate Enabled(s: State, op: Op) {
    match op
    case Fire(_, _) => s.wakes != [] && s.wakes[0] <= s.now
    case Advance(to) => s.now <= to
    case _ => true
  }

  function Run(s: State, ops: seq<Op>): (r: State)
    requires Shaped(s)
    ensures Shaped(r)
  {
    if |ops| == 0 then s else Step(Run(s, ops[..|ops| - 1]), ops[|ops| - 1])
  }

  // ---------------------------------------------------------------------
  // Conservation
  // ---------------------------------------------------------------------

  /** Number of occurrences of a request in a log, a queue, all queues and the transmissions. */
  function Logged(log: seq<Request>, x: Request): nat {
    if log == [] then 0 else (if log[0] == x then 1 else 0) + Logged(log[1..], x)
  }

  function Waiting(q: seq<Pending>, x: Request): nat {
    if q == [] then 0 else (if q[0].request == x then 1 else 0) + Waiting(q[1..], x)
  }

  function Queued(queues: seq<seq<Pending>>, x: Request): nat {
    if queues == [] then 0 else Waiting(queues[0], x) + Queued(queues[1..], x)
  }

  function Transmitted(sent: seq<Sent>, x: Request): nat {
    if sent == [] then 0 else (if sent[0].request == x then 1 else 0) + Transmitted(sent[1..], x)
  }

  /** Requests transmitted, expired, evicted and queued. */
  function Accounted(s: State, x: Request): nat {
    Transmitted(s.sent, x) + Logged(s.expired, x) + Logged(s.evicted, x) + Queued(s.queues, x)
  }

  function One(r: Request, x: Request): nat {
    if r == x then 1 else 0
  }

  lemma {:induction false} LoggedConcat(a: seq<Request>, b: seq<Request>, x: Request)
    ensures Logged(a + b, x) == Logged(a, x) + Logged(b, x)
  {
    if a == [] {
      assert a + b == b;
    } else {
      LoggedConcat(a[1..], b, x);
      assert (a + b)[1..] == a[1..] + b;
    }
  }

  lemma {:induction false} TransmittedMore(sent: seq<Sent>, t: Sent, x: Request)
    ensures Transmitted(sent + [t], x) == Transmitted(sent, x) + One(t.request, x)
  {
    if sent == [] {
      assert sent + [t] == [t];
    } else {
      TransmittedMore(sent[1..], t, x);
      assert (sent + [t])[1..] == sent[1..] + [t];
    }
  }

  lemma {:induction false} WaitingMore(q: seq<Pending>, p: Pending, x: Request)
    ensures Waiting(q + [p], x) == Waiting(q, x) + One(p.request, x)
  {
    if q == [] {
      assert q + [p] == [p];
    } else {
      WaitingMore(q[1..], p, x);
      assert (q + [p])[1..] == q[1..] + [p];
    }
  }

  lemma {:induction false} AliveWaiting(q: seq<Pending>, now: int, x: Request)
    ensures Waiting(q, x) == Waiting(Alive(q, now), x) + Logged(Dead(q, now), x)
  {
    if q != [] {
      AliveWaiting(q[1..], now, x);
      if q[0].expiry < now {
        assert Dead(q, now)[1..] == Dead(q[1..], now);
        assert Alive(q, now) == Alive(q[1..], now);
      } else {
        assert Alive(q, now)[1..] == Alive(q[1..], now);
        assert Dead(q, now) == Dead(q[1..], now);
      }
    }
  }

  lemma {:induction false} AllAliveQueued(queues: seq<seq<Pending>>, now: int, x: Request)
    ensures Queued(queues, x) == Queued(AllAlive(queues, now), x) + Logged(AllDead(queues, now), x)
  {
    if queues != [] {
      AliveWaiting(queues[0], now, x);
      AllAliveQueued(queues[1..], now, x);
      LoggedConcat(Dead(queues[0], now), AllDead(queues[1..], now), x);
      assert AllAlive(queues, now)[1..] == AllAlive(queues[1..], now);
    }
  }

  lemma {:induction false} QueuedUpdate(queues: seq<seq<Pending>>, k: nat, q: seq<Pending>, x: Request)
    requires k < |queues|
    ensures Queued(queues[k := q], x) == Queued(queues, x) - Waiting(queues[k], x) + Waiting(q, x)
  {
    if k == 0 {
      assert queues[0 := q][1..] == queues[1..];
    } else {
      QueuedUpdate(queues[1..], k - 1, q, x);
      assert queues[k := q][1..] == queues[1..][k - 1 := q];
    }
  }

  lemma {:induction false} FrontsWaiting(q: seq<Pending>, n: nat, x: Request)
    requires n <= |q|
    ensures Waiting(q, x) == Logged(Fronts(q, n), x) + Waiting(q[n..], x)
  {
    if n == 0 {
      assert q[0..] == q;
    } else {
      FrontsWaiting(q[1..], n - 1, x);
      assert q[1..][n - 1..] == q[n..];
      assert Fronts(q, n)[1..] == Fronts(q[1..], n - 1);
    }
  }

  lemma DropExpiredAccounted(s: State, x: Request)
    ensures Accounted(DropExpired(s), x) == Accounted(s, x)
  {
    AllAliveQueued(s.queues, s.now, x);
    LoggedConcat(s.expired, AllDead(s.queues, s.now), x);
  }

  lemma PushAccounted(s: State, r: Request, x: Request)
    requires Shaped(s)
    ensures Accounted(Push(s, r), x) == Accounted(s, x) + One(r, x)
  {
    var k := Rank(r.profile);
    var q := s.queues[k];
    var n := Excess(s.limit, |q|);
    var p := Pending(s.now + r.lifetime, r);
    QueuedUpdate(s.queues, k, q[n..] + [p], x);
    WaitingMore(q[n..], p, x);
    FrontsWaiting(q, n, x);
    LoggedConcat(s.evicted, Fronts(q, n), x);
  }

  lemma PushRequests(s: State, r: Request)
    requires Shaped(s)
    ensures Push(s, r).requests == s.requests
  {
  }

  lemma ArriveAccounted(s: State, r: Request, d: Delays, x: Request)
    requires Shaped(s)
    ensures Accounted(Arrive(s, r, d), x) == Accounted(s, x) + One(r, x)
    ensures Arrive(s, r, d).requests == s.requests + [r]
  {
    AllAliveShape(s.queues, s.now);
    var t := DropExpired(s).(requests := s.requests + [r]);
    DropExpiredAccounted(s, x);
    assert Accounted(t, x) == Accounted(s, x);
    hide DropExpired, Queued, Logged, Transmitted, FirstBusy, Push, InsertTime;
    TransmittedMore(t.sent, Sent(r, t.now, None), x);
    PushAccounted(t, r, x);
    PushRequests(t, r);
  }

  lemma DequeueAccounted(s: State, d: Delays, x: Request)
    ensures Accounted(Dequeue(s, d), x) == Accounted(s, x)
  {
    var next := NextQueue(s.queues, d);
    if next.Some? {
      var q := s.queues[next.value];
      QueuedUpdate(s.queues, next.value, q[1..], x);
      TransmittedMore(s.sent, Sent(q[0].request, s.now, Some(q[0].expiry)), x);
    }
  }

  lemma StepAccounted(s: State, op: Op, x: Request)
    requires Shaped(s)
    ensures Accounted(Step(s, op), x) - Logged(Step(s, op).requests, x) == Accounted(s, x) - Logged(s.requests, x)
  {
    match op {
      case Submit(profile, lifetime, size, d) =>
        var r := NextRequest(s, profile, lifetime, size);
        ArriveAccounted(s, r, d, x);
        LoggedConcat(s.requests, [r], x);
        hide Accounted, Arrive;
      case Fire(before, after) =>
        if s.wakes != [] {
          var t := s.(wakes := s.wakes[1..]);
          DropExpiredAccounted(t, x);
          DequeueAccounted(DropExpired(t), before, x);
          hide DropExpired, NextQueue, Queued, Logged, Transmitted;
        }
      case Retime(d) =>
        hide NextQueue;
      case Advance(to) =>
      case SetLimit(limit) =>
    }
  }

  lemma {:induction false} NothingQueued(queues: seq<seq<Pending>>, x: Request)
    requires forall i :: 0 <= i < |queues| ==> queues[i] == []
    ensures Queued(queues, x) == 0
  {
    if queues != [] {
      NothingQueued(queues[1..], x);
    }
  }

  /** Conservation: in every run each request is accounted for as often as it has been made. */
  lemma {:induction false} RunConserves(limit: nat, now: int, ops: seq<Op>, x: Request)
    ensures var r := Run(Init(limit, now), ops); Accounted(r, x) == Logged(r.requests, x)
  {
    if |ops| == 0 {
      NothingQueued(Init(limit, now).queues, x);
    } else {
      RunConserves(limit, now, ops[..|ops| - 1], x);
      hide Accounted, Step;
      StepAccounted(Run(Init(limit, now), ops[..|ops| - 1]), ops[|ops| - 1], x);
    }
  }

  /** Requests are numbered consecutively. */
  ghost predicate Numbered(s: State) {
    forall i :: 0 <= i < |s.requests| ==> s.requests[i].tag == i
  }

  lemma StepNumbered(s: State, op: Op)
    requires Shaped(s) && Numbered(s)
    ensures Numbered(Step(s, op))
    ensures s.requests <= Step(s, op).requests
  {
    match op {
      case Submit(profile, lifetime, size, d) =>
        ArriveAccounted(s, NextRequest(s, profile, lifetime, size), d, NextRequest(s, profile, lifetime, size));
        hide Arrive, Accounted;
      case _ =>
        hide DropExpired, NextQueue;
    }
  }

  lemma {:induction false} RunNumbered(limit: nat, now: int, ops: seq<Op>)
    ensures Numbered(Run(Init(limit, now), ops))
  {
    if |ops| > 0 {
      RunNumbered(limit, now, ops[..|ops| - 1]);
      hide Step;
      StepNumbered(Run(Init(limit, now), ops[..|ops| - 1]), ops[|ops| - 1]);
    }
  }

  lemma {:induction false} LoggedOnce(log: seq<Request>, x: Request, first: nat)
    requires forall i :: 0 <= i < |log| ==> log[i].tag == first + i
    ensures Logged(log, x) == if x in log then 1 else 0
  {
    if log != [] {
      LoggedOnce(log[1..], x, first + 1);
      assert log == [log[0]] + log[1..];
    }
  }

  /**
   * Each requested packet is exactly one of transmitted once, expired, evicted or still queued,
   * and nothing else ever shows up.
   */
  lemma ExactlyOneFate(limit: nat, now: int, ops: seq<Op>, x: Request)
    ensures var r := Run(Init(limit, now), ops);
      Transmitted(r.sent, x) + Logged(r.expired, x) + Logged(r.evicted, x) + Queued(r.queues, x) ==
      if x in r.requests then 1 else 0
  {
    RunConserves(limit, now, ops, x);
    RunNumbered(limit, now, ops);
    LoggedOnce(Run(Init(limit, now), ops).requests, x, 0);
  }

  // ---------------------------------------------------------------------
  // Order
  // ---------------------------------------------------------------------

  /** A queue holds requests of its rank in the order of their arrival, all of them later than `after`. */
  ghost predicate InOrder(q: seq<Pending>, rank: nat, after: int, total: nat) {
    && (forall i :: 0 <= i < |q| ==> Rank(q[i].request.profile) == rank && after < q[i].request.tag < total)
    && (forall i, j :: 0 <= i < j < |q| ==> q[i].request.tag < q[j].request.tag)
  }

  /** Tag of the latest transmission of a rank, or -1. */
  function LastTag(sent: seq<Sent>, rank: nat): int {
    if sent == [] then -1
    else if Rank(sent[|sent| - 1].request.profile) == rank then sent[|sent| - 1].request.tag
    else LastTag(sent[..|sent| - 1], rank)
  }

  /** Transmissions of each rank have ascending tags. */
  ghost predicate Ascending(sent: seq<Sent>) {
    sent == [] ||
      var last := sent[|sent| - 1].request;
      LastTag(sent[..|sent| - 1], Rank(last.profile)) < last.tag && Ascending(sent[..|sent| - 1])
  }

  ghost predicate Fifo(s: State) {
    && Shaped(s)
    && Ascending(s.sent)
    && (forall k :: 0 <= k < RANKS ==> LastTag(s.sent, k) < |s.requests|)
    && (forall k :: 0 <= k < RANKS ==> InOrder(s.queues[k], k, LastTag(s.sent, k), |s.requests|))
  }

  lemma {:induction false} AliveElements(q: seq<Pending>, now: int)
    ensures forall p :: p in Alive(q, now) <==> p in q && now <= p.expiry
  {
    if q != [] {
      AliveElements(q[1..], now);
      assert q == [q[0]] + q[1..];
    }
  }

  lemma {:induction false} AliveInOrder(q: seq<Pending>, now: int, rank: nat, after: int, total: nat)
    requires InOrder(q, rank, after, total)
    ensures InOrder(Alive(q, now), rank, after, total)
  {
    if q != [] {
      AliveInOrder(q[1..], now, rank, q[0].request.tag, total);
      var rest := Alive(q[1..], now);
      if q[0].expiry >= now {
        assert Alive(q, now) == [q[0]] + rest;
      }
    }
  }

  lemma DropExpiredFifo(s: State)
    requires Fifo(s)
    ensures Fifo(DropExpired(s))
  {
    AllAliveShape(s.queues, s.now);
    hide InOrder, AllAlive, AllDead, Alive;
    forall k | 0 <= k < RANKS
      ensures InOrder(Alive(s.queues[k], s.now), k, LastTag(s.sent, k), |s.requests|)
    {
      AliveInOrder(s.queues[k], s.now, k, LastTag(s.sent, k), |s.requests|);
    }
  }

  lemma LastTagMore(sent: seq<Sent>, t: Sent, k: nat)
    ensures LastTag(sent + [t], k) == if Rank(t.request.profile) == k then t.request.tag else LastTag(sent, k)
  {
    assert (sent + [t])[..|sent|] == sent;
  }

  lemma AscendingMore(sent: seq<Sent>, t: Sent)
    requires Ascending(sent) && LastTag(sent, Rank(t.request.profile)) < t.request.tag
    ensures Ascending(sent + [t])
  {
    assert (sent + [t])[..|sent|] == sent;
  }

  /** State after a packet has been passed to the access layer, with one queue shortened accordingly. */
  lemma TransmitFifo(s: State, t: State, r: Request, expiry: Option<int>)
    requires Fifo(s) && Shaped(t) && t.sent == s.sent && |t.requests| >= |s.requests|
    requires LastTag(s.sent, Rank(r.profile)) < r.tag < |t.requests|
    requires forall k :: 0 <= k < RANKS ==>
      InOrder(t.queues[k], k, if k == Rank(r.profile) then r.tag else LastTag(s.sent, k), |t.requests|)
    ensures Fifo(Transmit(t, r, expiry))
  {
    var x := Sent(r, t.now, expiry);
    AscendingMore(s.sent, x);
    hide InOrder, Ascending, LastTag;
    forall k | 0 <= k < RANKS
      ensures LastTag(s.sent + [x], k) < |t.requests|
      ensures InOrder(t.queues[k], k, LastTag(s.sent + [x], k), |t.requests|)
    {
      LastTagMore(s.sent, x, k);
    }
  }

  lemma InOrderLonger(q: seq<Pending>, rank: nat, after: int, total: nat, more: nat)
    requires InOrder(q, rank, after, total) && total <= more
    ensures InOrder(q, rank, after, more)
  {
  }

  lemma PushInOrder(q: seq<Pending>, n: nat, p: Pending, rank: nat, after: int, total: nat)
    requires InOrder(q, rank, after, total) && n <= |q|
    requires Rank(p.request.profile) == rank && p.request.tag == total && after < total
    ensures InOrder(q[n..] + [p], rank, after, total + 1)
  {
  }

  lemma PushFifo(s: State, r: Request)
    requires Fifo(s) && r.tag == |s.requests|
    ensures Fifo(Push(s.(requests := s.requests + [r]), r))
  {
    var k := Rank(r.profile);
    var q := s.queues[k];
    var n := Excess(s.limit, |q|);
    var p := Pending(s.now + r.lifetime, r);
    hide InOrder, Ascending, LastTag, Fronts, Excess, Rank;
    PushInOrder(q, n, p, k, LastTag(s.sent, k), |s.requests|);
    var t := Push(s.(requests := s.requests + [r]), r);
    forall j | 0 <= j < RANKS
      ensures InOrder(t.queues[j], j, LastTag(s.sent, j), |s.requests| + 1)
    {
      InOrderLonger(s.queues[j], j, LastTag(s.sent, j), |s.requests|, |s.requests| + 1);
    }
  }

  lemma ImmediateFifo(s: State, r: Request)
    requires Fifo(s) && r.tag == |s.requests| && !Contention(s, Rank(r.profile))
    ensures Fifo(Transmit(s.(requests := s.requests + [r]), r, None))
  {
    var t := s.(requests := s.requests + [r]);
    var k := Rank(r.profile);
    assert s.queues[k] == [];
    hide Ascending, LastTag;
    forall j | 0 <= j < RANKS
      ensures InOrder(t.queues[j], j, if j == k then r.tag else LastTag(s.sent, j), |t.requests|)
    {
      if j != k {
        InOrderLonger(s.queues[j], j, LastTag(s.sent, j), |s.requests|, |t.requests|);
      }
    }
    TransmitFifo(s, t, r, None);
  }

  lemma ArriveFifo(s: State, r: Request, d: Delays)
    requires Fifo(s) && r.tag == |s.requests|
    ensures Fifo(Arrive(s, r, d))
  {
    DropExpiredFifo(s);
    var t := DropExpired(s);
    hide Fifo, DropExpired, FirstBusy;
    if !Contention(t, Rank(r.profile)) && d(r) == 0 {
      ImmediateFifo(t, r);
    } else {
      PushFifo(t, r);
      ScheduleFifo(Push(t.(requests := s.requests + [r]), r), d(r));
    }
  }

  lemma ScheduleFifo(s: State, delay: int)
    ensures Fifo(s) ==> Fifo(ScheduleTrigger(s, delay))
  {
  }

  lemma DequeueFifo(s: State, d: Delays)
    requires Fifo(s)
    ensures Fifo(Dequeue(s, d))
  {
    var next := NextQueue(s.queues, d);
    hide Ascending, LastTag, NextQueue;
    if next.Some? {
      var k := next.value;
      var q := s.queues[k];
      var t := s.(queues := s.queues[k := q[1..]]);
      assert forall j :: 0 <= j < RANKS ==>
        InOrder(t.queues[j], j, if j == k then q[0].request.tag else LastTag(s.sent, j), |t.requests|);
      TransmitFifo(s, t, q[0].request, Some(q[0].expiry));
    }
  }

  lemma ScheduleNextFifo(s: State, d: Delays)
    ensures Fifo(s) ==> Fifo(ScheduleNext(s, d))
  {
    hide NextQueue, LastTag, Ascending, InOrder;
  }

  lemma StepFifo(s: State, op: Op)
    requires Fifo(s)
    ensures Fifo(Step(s, op))
  {
    match op {
      case Submit(profile, lifetime, size, d) =>
        ArriveFifo(s, NextRequest(s, profile, lifetime, size), d);
      case Fire(before, after) =>
        if s.wakes != [] {
          var t := s.(wakes := s.wakes[1..]);
          assert Fifo(t);
          hide Fifo, Dequeue, DropExpired, ScheduleNext;
          DropExpiredFifo(t);
          DequeueFifo(DropExpired(t), before);
          ScheduleNextFifo(Dequeue(DropExpired(t), before), after);
        }
      case Retime(d) =>
        assert Fifo(s.(wakes := []));
        hide Fifo, ScheduleNext;
        ScheduleNextFifo(s.(wakes := []), d);
      case _ =>
    }
  }

  /** The transmissions of each access category are in the order of their requests, in every run. */
  lemma {:induction false} RunFifo(limit: nat, now: int, ops: seq<Op>)
    ensures Fifo(Run(Init(limit, now), ops))
  {
    if |ops| > 0 {
      RunFifo(limit, now, ops[..|ops| - 1]);
      hide Fifo, Step;
      StepFifo(Run(Init(limit, now), ops[..|ops| - 1]), ops[|ops| - 1]);
    }
  }

  lemma {:induction false} LastTagIsLatest(sent: seq<Sent>, i: nat)
    requires Ascending(sent) && i < |sent|
    ensures sent[i].request.tag <= LastTag(sent, Rank(sent[i].request.profile))
  {
    var n := |sent| - 1;
    if i < n {
      LastTagIsLatest(sent[..n], i);
    }
  }

  /** Ascending means what it says: any two transmissions of one category are in request order. */
  lemma {:induction false} AscendingPairs(sent: seq<Sent>, i: nat, j: nat)
    requires Ascending(sent) && i < j < |sent|
    requires Rank(sent[i].request.profile) == Rank(sent[j].request.profile)
    ensures sent[i].request.tag < sent[j].request.tag
  {
    var n := |sent| - 1;
    if j < n {
      AscendingPairs(sent[..n], i, j);
    } else {
      LastTagIsLatest(sent[..n], i);
    }
  }

  // ---------------------------------------------------------------------
  // Priority and expiry
  // ---------------------------------------------------------------------

  /** The rate control does not distinguish packets. */
  ghost predicate Flat(d: Delays) {
    forall a, b :: d(a) == d(b)
  }

  /** The rate control always answers with a duration that ends some day. */
  ghost predicate Finite(d: Delays) {
    forall a :: 0 <= d(a) < MAX_DELAY
  }

  /** All queued packets have lower priority than the given one, or the same but a later request. */
  ghost predicate Behind(s: State, r: Request) {
    forall k, i :: 0 <= k < |s.queues| && 0 <= i < |s.queues[k]| ==>
      k > Rank(r.profile) || (k == Rank(r.profile) && r.tag < s.queues[k][i].request.tag)
  }

  /**
   * A trigger serves the highest waiting priority if and only if no lower priority has a shorter delay.
   */
  lemma HighestServedIff(queues: seq<seq<Pending>>, d: Delays)
    requires Finite(d) && FirstBusy(queues) < |queues|
    ensures var k := FirstBusy(queues);
      NextQueue(queues, d) == Some(k) <==>
      forall j :: 0 <= j < |queues| && queues[j] != [] ==> d(queues[k][0].request) <= d(queues[j][0].request)
  {
    var k := FirstBusy(queues);
    var next := NextQueue(queues, d);
    assert queues[k] != [] && d(queues[k][0].request) < MAX_DELAY;
    if forall j :: 0 <= j < |queues| && queues[j] != [] ==> d(queues[k][0].request) <= d(queues[j][0].request) {
      assert IsNext(queues, d, k);
      NextUnique(queues, d, k, next.value);
    }
  }

  /** Without distinction of packets the highest waiting priority is served. */
  lemma FlatServesHighest(queues: seq<seq<Pending>>, d: Delays)
    requires Flat(d) && NextQueue(queues, d).Some?
    ensures NextQueue(queues, d).value == FirstBusy(queues)
  {
    var k := NextQueue(queues, d).value;
    assert forall j :: 0 <= j < k ==> queues[j] == [];
  }

  lemma DequeueNoOvertaking(s: State, d: Delays)
    requires Fifo(s) && Flat(d)
    ensures LeavesBehind(s, Dequeue(s, d))
  {
    var next := NextQueue(s.queues, d);
    if next.Some? {
      FlatServesHighest(s.queues, d);
      hide NextQueue, Ascending, LastTag;
      assert Rank(s.queues[next.value][0].request.profile) == next.value;
    }
  }

  lemma ImmediateNoOvertaking(s: State, r: Request)
    requires Shaped(s) && !Contention(s, Rank(r.profile))
    ensures Behind(Transmit(s, r, None), r)
  {
  }

  /** Triggers do not distinguish packets; immediate transmissions may do so. */
  ghost predicate FlatOp(op: Op) {
    op.Fire? ==> Flat(op.before)
  }

  /** The transmissions of a step leave only packets of lower priority, or later ones of the same priority, behind. */
  ghost predicate LeavesBehind(s: State, r: State) {
    r.sent == s.sent || (|r.sent| == |s.sent| + 1 && s.sent <= r.sent && Behind(r, r.sent[|s.sent|].request))
  }

  lemma ArriveNoOvertaking(s: State, r: Request, d: Delays)
    requires Shaped(s)
    ensures LeavesBehind(s, Arrive(s, r, d))
  {
    var t := DropExpired(s).(requests := s.requests + [r]);
    AllAliveShape(s.queues, s.now);
    hide AllAlive, AllDead, FirstBusy, InsertTime, Behind, Fronts;
    if !Contention(t, Rank(r.profile)) {
      ImmediateNoOvertaking(t, r);
    }
  }

  lemma TriggerNoOvertaking(s: State, before: Delays, after: Delays)
    requires Fifo(s) && Flat(before)
    ensures LeavesBehind(s, Trigger(s, before, after))
  {
    DropExpiredFifo(s);
    hide AllAlive, AllDead, Fifo, NextQueue, Dequeue, Flat;
    DequeueNoOvertaking(DropExpired(s), before);
  }

  lemma StepNoOvertaking(s: State, op: Op)
    requires Fifo(s) && FlatOp(op)
    ensures LeavesBehind(s, Step(s, op))
  {
    match op {
      case Submit(profile, lifetime, size, d) =>
        ArriveNoOvertaking(s, NextRequest(s, profile, lifetime, size), d);
        hide Arrive, Behind;
      case Fire(before, after) =>
        if s.wakes != [] {
          var t := s.(wakes := s.wakes[1..]);
          assert Fifo(t);
          TriggerNoOvertaking(t, before, after);
          hide Trigger, Behind;
        }
      case Retime(d) =>
        hide NextQueue, Behind;
      case _ =>
    }
  }

  ghost predicate WasQueued(s: State, x: Request) {
    exists k, p :: 0 <= k < |s.queues| && p in s.queues[k] && p.request == x
  }

  /** Where the packets in the queues and the transmissions of a step come from. */
  ghost predicate Follows(r: State, s: State) {
    && Shaped(r) && Shaped(s)
    && (forall k, p :: 0 <= k < RANKS && p in r.queues[k] ==> p in s.queues[k] || p.request.tag >= |s.requests|)
    && s.sent <= r.sent
    && (forall i :: |s.sent| <= i < |r.sent| ==>
          r.sent[i].request.tag >= |s.requests| || WasQueued(s, r.sent[i].request))
  }

  lemma FollowsTransitive(r: State, q: State, s: State)
    requires Follows(r, q) && Follows(q, s) && |q.requests| >= |s.requests|
    ensures Follows(r, s)
  {
  }

  lemma DropExpiredFollows(s: State)
    requires Shaped(s)
    ensures Follows(DropExpired(s), s)
  {
    AllAliveShape(s.queues, s.now);
    hide AllAlive, AllDead;
    forall k | 0 <= k < RANKS
      ensures forall p :: p in Alive(s.queues[k], s.now) ==> p in s.queues[k]
    {
      AliveElements(s.queues[k], s.now);
    }
  }

  lemma PushFollows(s: State, r: Request)
    requires Shaped(s) && r.tag >= |s.requests| - 1
    ensures Follows(Push(s, r), s.(requests := if s.requests == [] then [] else s.requests[..|s.requests| - 1]))
  {
    hide Fronts, WasQueued;
  }

  lemma ArriveFollows(s: State, r: Request, d: Delays)
    requires Shaped(s) && r.tag == |s.requests|
    ensures Follows(Arrive(s, r, d), s)
  {
    var t := DropExpired(s).(requests := s.requests + [r]);
    DropExpiredFollows(s);
    AllAliveShape(s.queues, s.now);
    PushFollows(t, r);
    assert t.requests[..|t.requests| - 1] == s.requests;
    hide AllAlive, AllDead, FirstBusy, Push, InsertTime, WasQueued;
  }

  lemma DequeueFollows(s: State, d: Delays)
    requires Shaped(s)
    ensures Follows(Dequeue(s, d), s)
  {
    var next := NextQueue(s.queues, d);
    hide NextQueue;
    if next.Some? {
      var k := next.value;
      assert s.queues[k][0] in s.queues[k];
    }
  }

  lemma StepFollows(s: State, op: Op)
    requires Shaped(s)
    ensures Follows(Step(s, op), s)
  {
    match op {
      case Submit(profile, lifetime, size, d) =>
        ArriveFollows(s, NextRequest(s, profile, lifetime, size), d);
      case Fire(before, after) =>
        if s.wakes != [] {
          var t := s.(wakes := s.wakes[1..]);
          var u := DropExpired(t);
          DropExpiredFollows(t);
          DequeueFollows(u, before);
          hide DropExpired, NextQueue, Dequeue;
          FollowsTransitive(Dequeue(u, before), u, t);
        }
      case Retime(d) =>
        hide NextQueue;
      case _ =>
    }
  }

  /** A transmission that comes after that of a later request has lower priority than it. */
  ghost predicate SentInOrder(sent: seq<Sent>) {
    forall i, j :: 0 <= i < j < |sent| && sent[j].request.tag < sent[i].request.tag ==>
      Rank(sent[i].request.profile) < Rank(sent[j].request.profile)
  }

  /** A packet that is still queued after the transmission of a later request has lower priority than it. */
  ghost predicate QueuedInOrder(s: State) {
    forall i, k, p :: 0 <= i < |s.sent| && 0 <= k < |s.queues| && p in s.queues[k] ==>
      p.request.tag < s.sent[i].request.tag ==> Rank(s.sent[i].request.profile) < k
  }

  lemma SentBefore(s: State)
    requires Fifo(s)
    ensures forall i :: 0 <= i < |s.sent| ==> s.sent[i].request.tag < |s.requests|
  {
    forall i | 0 <= i < |s.sent|
      ensures s.sent[i].request.tag < |s.requests|
    {
      LastTagIsLatest(s.sent, i);
    }
  }

  lemma QueuedRank(s: State)
    requires Fifo(s)
    ensures forall k, p :: 0 <= k < RANKS && p in s.queues[k] ==> Rank(p.request.profile) == k
  {
  }

  /** New transmissions have not been overtaken by older ones. */
  lemma KeepsSentInOrder(s: State, r: State)
    requires Fifo(s) && SentInOrder(s.sent) && QueuedInOrder(s) && Follows(r, s) && LeavesBehind(s, r)
    ensures SentInOrder(r.sent)
  {
    SentBefore(s);
    QueuedRank(s);
    hide Fifo;
    forall i, j | 0 <= i < j < |r.sent| && r.sent[j].request.tag < r.sent[i].request.tag
      ensures Rank(r.sent[i].request.profile) < Rank(r.sent[j].request.profile)
    {
      assert r.sent[i] == s.sent[i];
    }
  }

  /** A packet that remains queued has not been overtaken by older transmissions. */
  lemma OlderInOrder(s: State, r: State, i: nat, k: nat, p: Pending)
    requires QueuedInOrder(s) && Follows(r, s) && i < |s.sent| && s.sent[i].request.tag < |s.requests|
    requires k < |r.queues| && p in r.queues[k]
    ensures p.request.tag < r.sent[i].request.tag ==> Rank(r.sent[i].request.profile) < k
  {
    assert r.sent[i] == s.sent[i];
  }

  /** Nor by the new one. */
  lemma NewInOrder(r: State, x: Request, k: nat, p: Pending)
    requires Behind(r, x) && k < |r.queues| && p in r.queues[k]
    ensures p.request.tag < x.tag ==> Rank(x.profile) < k
  {
    var j :| 0 <= j < |r.queues[k]| && r.queues[k][j] == p;
  }

  lemma KeepsQueuedInOrder(s: State, r: State)
    requires Fifo(s) && QueuedInOrder(s) && Follows(r, s) && LeavesBehind(s, r)
    ensures QueuedInOrder(r)
  {
    SentBefore(s);
    forall i, k, p | 0 <= i < |r.sent| && 0 <= k < |r.queues| && p in r.queues[k]
      ensures p.request.tag < r.sent[i].request.tag ==> Rank(r.sent[i].request.profile) < k
    {
      hide Fifo, Follows, QueuedInOrder, Behind, Rank;
      if i < |s.sent| {
        OlderInOrder(s, r, i, k, p);
      } else {
        NewInOrder(r, r.sent[i].request, k, p);
      }
    }
  }

  /**
   * If triggers treat all packets alike, nothing is ever overtaken by a later request unless that has higher
   * priority: neither what is transmitted nor what is still queued, in every run.
   */
  lemma {:induction false} RunNoOvertaking(limit: nat, now: int, ops: seq<Op>)
    requires forall i :: 0 <= i < |ops| ==> FlatOp(ops[i])
    ensures var r := Run(Init(limit, now), ops); SentInOrder(r.sent) && QueuedInOrder(r)
  {
    if |ops| > 0 {
      var s, op := Run(Init(limit, now), ops[..|ops| - 1]), ops[|ops| - 1];
      RunNoOvertaking(limit, now, ops[..|ops| - 1]);
      RunFifo(limit, now, ops[..|ops| - 1]);
      StepNoOvertaking(s, op);
      StepFollows(s, op);
      hide Fifo, Step, FlatOp, Follows, SentInOrder, QueuedInOrder, LeavesBehind;
      KeepsSentInOrder(s, Step(s, op));
      KeepsQueuedInOrder(s, Step(s, op));
    }
  }

  /** Packets sent from a queue have not expired. */
  ghost predicate Timely(sent: seq<Sent>) {
    forall i :: 0 <= i < |sent| && sent[i].expiry.Some? ==> sent[i].at <= sent[i].expiry.value
  }

  lemma DropExpiredLeavesAlive(s: State)
    requires Shaped(s)
    ensures Shaped(DropExpired(s))
    ensures forall k, i :: 0 <= k < RANKS && 0 <= i < |DropExpired(s).queues[k]| ==>
      s.now <= DropExpired(s).queues[k][i].expiry
  {
    AllAliveShape(s.queues, s.now);
    forall k | 0 <= k < RANKS
      ensures forall i :: 0 <= i < |Alive(s.queues[k], s.now)| ==> s.now <= Alive(s.queues[k], s.now)[i].expiry
    {
      AliveElements(s.queues[k], s.now);
    }
  }

  lemma StepTimely(s: State, op: Op)
    requires Shaped(s) && Timely(s.sent)
    ensures Timely(Step(s, op).sent)
  {
    match op {
      case Fire(before, after) =>
        if s.wakes != [] {
          DropExpiredLeavesAlive(s.(wakes := s.wakes[1..]));
          hide AllAlive, AllDead, NextQueue;
        }
      case Submit(profile, lifetime, size, d) =>
        hide AllAlive, AllDead, FirstBusy, Fronts, InsertTime;
      case _ =>
        hide NextQueue;
    }
  }

  /** No expired packet ever leaves by a trigger. */
  lemma {:induction false} RunTimely(limit: nat, now: int, ops: seq<Op>)
    ensures Timely(Run(Init(limit, now), ops).sent)
  {
    if |ops| > 0 {
      RunTimely(limit, now, ops[..|ops| - 1]);
      hide Step;
      StepTimely(Run(Init(limit, now), ops[..|ops| - 1]), ops[|ops| - 1]);
    }
  }

  // ---------------------------------------------------------------------
  // Expiry and the drop hook
  // ---------------------------------------------------------------------

  lemma ArriveQueues(s: State, r: Request, d: Delays, k: nat, p: Pending)
    requires Shaped(s) && Shaped(Arrive(s, r, d)) && k < RANKS && p in Arrive(s, r, d).queues[k]
    ensures p in s.queues[k] || p == Pending(s.now + r.lifetime, r)
  {
    AllAliveShape(s.queues, s.now);
    AliveElements(s.queues[k], s.now);
    hide AllAlive, AllDead, FirstBusy, Fronts, InsertTime, Alive;
  }

  lemma DequeueQueues(s: State, d: Delays, k: nat, p: Pending)
    requires Shaped(s) && k < RANKS && p in Dequeue(s, d).queues[k]
    ensures p in s.queues[k]
  {
    hide NextQueue;
  }

  lemma TriggerQueues(s: State, before: Delays, after: Delays, k: nat, p: Pending)
    requires Shaped(s) && Shaped(Trigger(s, before, after)) && k < RANKS
    requires p in Trigger(s, before, after).queues[k]
    ensures p in s.queues[k]
  {
    var t := DropExpired(s);
    AllAliveShape(s.queues, s.now);
    AliveElements(s.queues[k], s.now);
    hide AllAlive, AllDead, Alive;
    assert p in Dequeue(t, before).queues[k] by { hide NextQueue, Dequeue, InsertTime; }
    hide NextQueue, Dequeue, ScheduleNext;
    DequeueQueues(t, before, k, p);
  }

  /** Packets are queued until their lifetime is over, counted from the request. */
  lemma StepQueues(s: State, op: Op, k: nat, p: Pending)
    requires Shaped(s) && k < RANKS && p in Step(s, op).queues[k]
    ensures p in s.queues[k] ||
            (op.Submit? && p == Pending(s.now + op.lifetime, NextRequest(s, op.profile, op.lifetime, op.size)))
  {
    match op {
      case Submit(profile, lifetime, size, d) =>
        ArriveQueues(s, NextRequest(s, profile, lifetime, size), d, k, p);
      case Fire(before, after) =>
        if s.wakes != [] {
          TriggerQueues(s.(wakes := s.wakes[1..]), before, after, k, p);
        }
      case Retime(d) =>
        hide NextQueue;
      case _ =>
    }
  }

  /** Time of a request. */
  function RequestedAt(s: State, ops: seq<Op>, x: Request): Option<int>
    requires Shaped(s)
  {
    if |ops| == 0 then None
    else
      var before, op := Run(s, ops[..|ops| - 1]), ops[|ops| - 1];
      if op.Submit? && NextRequest(before, op.profile, op.lifetime, op.size) == x then Some(before.now)
      else RequestedAt(s, ops[..|ops| - 1], x)
  }

  /** In every run, the expiry of a queued packet is the time of its request plus its lifetime. */
  lemma {:induction false} RunExpiry(limit: nat, now: int, ops: seq<Op>, k: nat, p: Pending)
    requires k < RANKS && p in Run(Init(limit, now), ops).queues[k]
    ensures RequestedAt(Init(limit, now), ops, p.request) == Some(p.expiry - p.request.lifetime)
  {
    if |ops| > 0 {
      var m := |ops| - 1;
      var s := Run(Init(limit, now), ops[..m]);
      hide Step, Fifo;
      StepQueues(s, ops[m], k, p);
      if p in s.queues[k] {
        RunFifo(limit, now, ops[..m]);
        QueuedTag(s, k, p);
        RunExpiry(limit, now, ops[..m], k, p);
      }
    }
  }

  lemma QueuedTag(s: State, k: nat, p: Pending)
    requires Fifo(s) && k < RANKS && p in s.queues[k]
    ensures p.request.tag < |s.requests|
  {
    assert InOrder(s.queues[k], k, LastTag(s.sent, k), |s.requests|);
  }

  /** A queued packet has expired when the operation looks at the queues. */
  ghost predicate LostToExpiry(s: State, op: Op, x: Request)
    requires Shaped(s)
  {
    (op.Submit? || op.Fire?) && exists k, p :: 0 <= k < RANKS && p in s.queues[k] && p.request == x && p.expiry < s.now
  }

  lemma {:induction false} DeadElements(q: seq<Pending>, now: int, x: Request)
    requires x in Dead(q, now)
    ensures exists p :: p in q && p.request == x && p.expiry < now
  {
    if q[0].expiry < now && q[0].request == x {
      assert q[0] in q;
    } else {
      DeadElements(q[1..], now, x);
    }
  }

  lemma {:induction false} AllDeadElements(queues: seq<seq<Pending>>, now: int, x: Request)
    requires x in AllDead(queues, now)
    ensures exists k, p :: 0 <= k < |queues| && p in queues[k] && p.request == x && p.expiry < now
  {
    if x in Dead(queues[0], now) {
      DeadElements(queues[0], now, x);
    } else {
      AllDeadElements(queues[1..], now, x);
      var k, p :| 0 <= k < |queues[1..]| && p in queues[1..][k] && p.request == x && p.expiry < now;
      assert p in queues[k + 1];
    }
  }

  /** What a step adds to the log of expired packets. */
  lemma StepExpires(s: State, op: Op)
    requires Shaped(s)
    ensures var t := Step(s, op);
      t.expired == s.expired || ((op.Submit? || op.Fire?) && t.expired == s.expired + AllDead(s.queues, s.now))
  {
    match op {
      case Submit(profile, lifetime, size, d) =>
        hide AllAlive, AllDead, FirstBusy, Fronts, InsertTime;
      case Fire(before, after) =>
        hide AllAlive, AllDead, NextQueue;
      case Retime(d) =>
        hide NextQueue;
      case _ =>
    }
  }

  /** In every run a packet is dropped as expired only after its expiry. */
  lemma {:induction false} RunExpires(limit: nat, now: int, ops: seq<Op>, x: Request) returns (n: nat)
    requires x in Run(Init(limit, now), ops).expired
    ensures n < |ops| && LostToExpiry(Run(Init(limit, now), ops[..n]), ops[n], x)
  {
    if |ops| > 0 {
      var m := |ops| - 1;
      var s := Run(Init(limit, now), ops[..m]);
      hide Step;
      StepExpires(s, ops[m]);
      if x in s.expired {
        n := RunExpires(limit, now, ops[..m], x);
        assert ops[..m][..n] == ops[..n];
      } else {
        AllDeadElements(s.queues, s.now, x);
        n := m;
      }
    }
  }

  /** The drop hook has been told as often as packets were dropped, and about each expired one. */
  ghost predicate Reported(s: State, x: Request) {
    |s.reported| == |s.expired| + |s.evicted| && Logged(s.expired, x) <= Logged(s.reported, x)
  }

  lemma StepReports(s: State, op: Op, x: Request)
    requires Shaped(s) && Reported(s, x)
    ensures Reported(Step(s, op), x)
  {
    match op {
      case Submit(profile, lifetime, size, d) =>
        var r := NextRequest(s, profile, lifetime, size);
        var t := DropExpired(s).(requests := s.requests + [r]);
        AllAliveShape(s.queues, s.now);
        DropExpiredReports(s, x);
        assert Reported(t, x);
        PushReports(t, r, x);
        hide DropExpired, FirstBusy, Push, InsertTime, Reported;
        SameReports(Push(t, r), ScheduleTrigger(Push(t, r), d(r)), x);
        SameReports(t, Transmit(t, r, None), x);
      case Fire(before, after) =>
        if s.wakes != [] {
          DropExpiredReports(s.(wakes := s.wakes[1..]), x);
          hide DropExpired, NextQueue;
        }
      case Retime(d) =>
        hide NextQueue;
      case _ =>
    }
  }

  lemma SameReports(s: State, t: State, x: Request)
    requires t.reported == s.reported && t.expired == s.expired && t.evicted == s.evicted
    ensures Reported(t, x) == Reported(s, x)
  {
  }

  lemma DropExpiredReports(s: State, x: Request)
    requires Reported(s, x)
    ensures Reported(DropExpired(s), x)
  {
    LoggedConcat(s.expired, AllDead(s.queues, s.now), x);
    LoggedConcat(s.reported, AllDead(s.queues, s.now), x);
  }

  lemma PushReports(s: State, r: Request, x: Request)
    requires Shaped(s) && Reported(s, x)
    ensures Reported(Push(s, r), x)
  {
    var q := s.queues[Rank(r.profile)];
    var n := Excess(s.limit, |q|);
    FrontsAre(q, n);
    LoggedConcat(s.reported, seq(n, _ => r), x);
  }

  /** In every run the drop hook learns about each expired packet and is told once for each evicted one. */
  lemma {:induction false} RunReports(limit: nat, now: int, ops: seq<Op>, x: Request)
    ensures Reported(Run(Init(limit, now), ops), x)
  {
    if |ops| > 0 {
      RunReports(limit, now, ops[..|ops| - 1], x);
      hide Step, Reported;
      StepReports(Run(Init(limit, now), ops[..|ops| - 1]), ops[|ops| - 1], x);
    }
  }

  // ---------------------------------------------------------------------
  // Liveness
  // ---------------------------------------------------------------------

  /** Number of queued packets. */
  function Total(queues: seq<seq<Pending>>): nat {
    if queues == [] then 0 else |queues[0]| + Total(queues[1..])
  }

  /** A trigger is pending whenever a packet is queued. */
  ghost predicate Armed(s: State) {
    Empty(s) || s.wakes != []
  }

  lemma {:induction false} TotalZero(queues: seq<seq<Pending>>)
    ensures Total(queues) == 0 <==> FirstBusy(queues) == |queues|
  {
    if queues != [] {
      TotalZero(queues[1..]);
    }
  }

  lemma {:induction false} TotalUpdate(queues: seq<seq<Pending>>, k: nat, q: seq<Pending>)
    requires k < |queues|
    ensures Total(queues[k := q]) == Total(queues) - |queues[k]| + |q|
  {
    if k == 0 {
      assert queues[0 := q][1..] == queues[1..];
    } else {
      TotalUpdate(queues[1..], k - 1, q);
      assert queues[k := q][1..] == queues[1..][k - 1 := q];
    }
  }

  lemma {:induction false} AliveShorter(q: seq<Pending>, now: int)
    ensures |Alive(q, now)| <= |q|
  {
    if q != [] {
      AliveShorter(q[1..], now);
    }
  }

  lemma {:induction false} TotalAlive(queues: seq<seq<Pending>>, now: int)
    ensures Total(AllAlive(queues, now)) <= Total(queues)
  {
    if queues != [] {
      AliveShorter(queues[0], now);
      TotalAlive(queues[1..], now);
      assert AllAlive(queues, now)[1..] == AllAlive(queues[1..], now);
    }
  }

  /** With finite delays the next queue exists as soon as any packet is queued. */
  lemma NextExists(s: State, d: Delays)
    requires Finite(d)
    ensures NextQueue(s.queues, d).Some? <==> !Empty(s)
  {
    var k := FirstBusy(s.queues);
    if k < |s.queues| {
      assert s.queues[k] != [] && d(s.queues[k][0].request) < MAX_DELAY;
    }
  }

  /** A trigger is scheduled for the packet that may be transmitted first, after its delay. */
  lemma ScheduleNextMeaning(s: State, d: Delays) returns (k: nat)
    ensures if HasNext(s.queues, d)
            then IsNext(s.queues, d, k) && ScheduleNext(s, d) == ScheduleTrigger(s, d(s.queues[k][0].request))
            else ScheduleNext(s, d) == s
  {
    var next := NextQueue(s.queues, d);
    k := if next.Some? then next.value else 0;
    hide NextQueue, InsertTime;
  }

  /** Rescheduling replaces all pending triggers by one for the packet that may be transmitted first. */
  lemma RescheduleMeaning(s: State, d: Delays) returns (k: nat)
    ensures if HasNext(s.queues, d)
            then IsNext(s.queues, d, k) && Reschedule(s, d) == s.(wakes := [s.now + d(s.queues[k][0].request)])
            else Reschedule(s, d) == s
  {
    var next := NextQueue(s.queues, d);
    k := if next.Some? then next.value else 0;
    hide NextQueue;
  }

  lemma ScheduleNextArmed(s: State, d: Delays)
    requires Finite(d)
    ensures Armed(ScheduleNext(s, d)) && ScheduleNext(s, d).queues == s.queues
  {
    NextExists(s, d);
    hide NextQueue, FirstBusy;
  }

  lemma DequeueTotal(s: State, d: Delays)
    requires Finite(d)
    ensures Total(Dequeue(s, d).queues) == if Empty(s) then Total(s.queues) else Total(s.queues) - 1
  {
    NextExists(s, d);
    var next := NextQueue(s.queues, d);
    if next.Some? {
      TotalUpdate(s.queues, next.value, s.queues[next.value][1..]);
    }
  }

  /** Every firing on non-empty queues leaves fewer packets behind, and a trigger for the rest. */
  lemma TriggerProgress(s: State, before: Delays, after: Delays)
    requires Shaped(s) && Finite(before) && Finite(after)
    ensures var r := Trigger(s, before, after);
      Armed(r) && Total(r.queues) <= if Total(s.queues) > 0 then Total(s.queues) - 1 else 0
  {
    var t := DropExpired(s);
    TotalAlive(s.queues, s.now);
    TotalZero(t.queues);
    DequeueTotal(t, before);
    ScheduleNextArmed(Dequeue(t, before), after);
  }

  lemma {:induction false} EmptyStaysEmpty(queues: seq<seq<Pending>>, now: int)
    requires FirstBusy(queues) == |queues|
    ensures FirstBusy(AllAlive(queues, now)) == |queues|
  {
    TotalZero(queues);
    TotalAlive(queues, now);
    TotalZero(AllAlive(queues, now));
    AllAliveShape(queues, now);
  }

  ghost predicate FiniteOp(op: Op) {
    match op
    case Submit(_, _, _, d) => Finite(d)
    case Fire(before, after) => Finite(before) && Finite(after)
    case Retime(d) => Finite(d)
    case _ => true
  }

  lemma ArriveArmed(s: State, r: Request, d: Delays)
    requires Shaped(s) && Armed(s)
    ensures Armed(Arrive(s, r, d))
  {
    AllAliveShape(s.queues, s.now);
    var t := DropExpired(s).(requests := s.requests + [r]);
    if Empty(s) {
      EmptyStaysEmpty(s.queues, s.now);
    }
    hide AllAlive, AllDead, FirstBusy, Fronts;
  }

  lemma StepArmed(s: State, op: Op)
    requires Shaped(s) && Armed(s) && FiniteOp(op)
    ensures Armed(Step(s, op))
  {
    match op {
      case Submit(profile, lifetime, size, d) =>
        ArriveArmed(s, NextRequest(s, profile, lifetime, size), d);
        hide Arrive, FirstBusy;
      case Fire(before, after) =>
        if s.wakes != [] {
          TriggerProgress(s.(wakes := s.wakes[1..]), before, after);
          hide Trigger, FirstBusy;
        }
      case Retime(d) =>
        NextExists(s, d);
        ScheduleNextArmed(s.(wakes := []), d);
        hide NextQueue, ScheduleNext, FirstBusy;
      case _ =>
    }
  }

  /** In every run with finite delays a trigger is pending whenever a packet is queued. */
  lemma {:induction false} RunArmed(limit: nat, now: int, ops: seq<Op>)
    requires forall i :: 0 <= i < |ops| ==> FiniteOp(ops[i])
    ensures Armed(Run(Init(limit, now), ops))
  {
    if |ops| > 0 {
      RunArmed(limit, now, ops[..|ops| - 1]);
      hide Step, Armed;
      StepArmed(Run(Init(limit, now), ops[..|ops| - 1]), ops[|ops| - 1]);
    }
  }

  function Fires(ops: seq<Op>): nat {
    if |ops| == 0 then 0 else Fires(ops[..|ops| - 1]) + if ops[|ops| - 1].Fire? then 1 else 0
  }

  /** Every operation of the run is possible when it occurs, and none of them is a request. */
  ghost predicate Draining(s: State, ops: seq<Op>)
    requires Shaped(s)
  {
    |ops| == 0 ||
      var op := ops[|ops| - 1];
      Draining(s, ops[..|ops| - 1]) && !op.Submit? && FiniteOp(op) && Enabled(Run(s, ops[..|ops| - 1]), op)
  }

  lemma StepDrains(s: State, op: Op)
    requires Shaped(s) && !op.Submit? && FiniteOp(op) && Enabled(s, op)
    ensures Total(Step(s, op).queues) <=
            if op.Fire? && Total(s.queues) > 0 then Total(s.queues) - 1 else Total(s.queues)
  {
    match op {
      case Fire(before, after) =>
        TriggerProgress(s.(wakes := s.wakes[1..]), before, after);
        hide Trigger, Total;
      case _ =>
        hide NextQueue, Total;
    }
  }

  /** Without new requests the queues drain: each firing takes away at least one of the remaining packets. */
  lemma {:induction false} Drains(s: State, ops: seq<Op>)
    requires Shaped(s) && Draining(s, ops)
    ensures Total(Run(s, ops).queues) <=
            if Fires(ops) < Total(s.queues) then Total(s.queues) - Fires(ops) else 0
  {
    if |ops| > 0 {
      Drains(s, ops[..|ops| - 1]);
      hide Step, Total, Enabled;
      StepDrains(Run(s, ops[..|ops| - 1]), ops[|ops| - 1]);
    }
  }

  /** The number of queued packets and pending triggers together. */
  function Workload(s: State): nat {
    Total(s.queues) + |s.wakes|
  }

  lemma {:induction false} InsertTimeLonger(wakes: seq<int>, t: int)
    ensures |InsertTime(wakes, t)| == |wakes| + 1
  {
    if wakes != [] && t >= wakes[0] {
      InsertTimeLonger(wakes[1..], t);
    }
  }

  /** A trigger that finds nothing queued does nothing. */
  lemma TriggerOnEmpty(s: State, before: Delays, after: Delays)
    requires Shaped(s) && Empty(s)
    ensures var r := Trigger(s, before, after); r.wakes == s.wakes && Empty(r) && Total(r.queues) == 0
    ensures NextQueue(Dequeue(DropExpired(s), before).queues, after).None?
  {
    EmptyStaysEmpty(s.queues, s.now);
    AllAliveShape(s.queues, s.now);
    TotalZero(AllAlive(s.queues, s.now));
    hide AllAlive, AllDead;
  }

  lemma TriggerWakes(s: State, before: Delays, after: Delays)
    ensures |Trigger(s, before, after).wakes| <= |s.wakes| + 1
  {
    var t := Dequeue(DropExpired(s), before);
    var next := NextQueue(t.queues, after);
    assert t.wakes == s.wakes;
    hide NextQueue, Dequeue, DropExpired;
    if next.Some? {
      InsertTimeLonger(t.wakes, t.now + after(t.queues[next.value][0].request));
    }
  }

  /** Each firing lowers the workload, even if it schedules another trigger for the same instant. */
  lemma FireLowersWorkload(s: State, op: Op)
    requires Shaped(s) && op.Fire? && FiniteOp(op) && s.wakes != []
    ensures Workload(Step(s, op)) < Workload(s)
  {
    var t := s.(wakes := s.wakes[1..]);
    TotalZero(s.queues);
    if Empty(s) {
      TriggerOnEmpty(t, op.before, op.after);
    } else {
      TriggerProgress(t, op.before, op.after);
      TriggerWakes(t, op.before, op.after);
    }
    hide Trigger, Total, FirstBusy;
  }

  /** Hence no more triggers fire in a row than there are packets and triggers at the beginning. */
  lemma {:induction false} FiringEnds(s: State, ops: seq<Op>)
    requires Shaped(s) && Draining(s, ops) && forall i :: 0 <= i < |ops| ==> ops[i].Fire?
    ensures |ops| + Workload(Run(s, ops)) <= Workload(s)
  {
    if |ops| > 0 {
      FiringEnds(s, ops[..|ops| - 1]);
      hide Step, Workload;
      FireLowersWorkload(Run(s, ops[..|ops| - 1]), ops[|ops| - 1]);
    }
  }

  /** With infinite delays only, a trigger serves nothing and does not schedule another one: the queues are stuck. */
  lemma StuckWithoutFiniteDelay(s: State, d: Delays)
    requires Shaped(s) && forall a :: d(a) >= MAX_DELAY
    ensures Trigger(s, d, d) == DropExpired(s)
  {
    hide DropExpired;
  }

  // ---------------------------------------------------------------------
  // Overflow and the drop hook
  // ---------------------------------------------------------------------

  /** A limited queue never exceeds its limit after a packet has been appended to it. */
  lemma PushWithinLimit(s: State, r: Request)
    requires Shaped(s) && s.limit > 0
    ensures var q := Push(s, r).queues[Rank(r.profile)];
      0 < |q| <= s.limit && q[|q| - 1].request == r
  {
  }

  lemma {:induction false} FrontsAre(q: seq<Pending>, n: nat)
    requires n <= |q|
    ensures |Fronts(q, n)| == n && forall i :: 0 <= i < n ==> Fronts(q, n)[i] == q[i].request
  {
    if n > 0 {
      FrontsAre(q[1..], n - 1);
    }
  }

  /**
   * Only as many packets are evicted as the limit demands, the oldest ones first: a queue with room left grows by the
   * new packet, and a full one is cut down to its limit.
   */
  ghost predicate Evicts(q: seq<Pending>, limit: nat, p: Pending, q': seq<Pending>, evicted: seq<Request>) {
    && |evicted| <= |q|
    && (forall i :: 0 <= i < |evicted| ==> evicted[i] == q[i].request)
    && q' == q[|evicted|..] + [p]
    && |q'| == if limit == 0 || |q| < limit then |q| + 1 else limit
  }

  lemma PushEvicts(s: State, r: Request)
    requires Shaped(s)
    ensures var k, t := Rank(r.profile), Push(s, r);
      && s.evicted <= t.evicted
      && Evicts(s.queues[k], s.limit, Pending(s.now + r.lifetime, r), t.queues[k], t.evicted[|s.evicted|..])
      && (forall j :: 0 <= j < RANKS && j != k ==> t.queues[j] == s.queues[j])
  {
    var q := s.queues[Rank(r.profile)];
    FrontsAre(q, Excess(s.limit, |q|));
    hide Fronts;
  }

  /** A full queue of its category has lost this request, while a whole limit of later ones was there or came in. */
  ghost predicate LostToOverflow(s: State, op: Op, x: Request)
    requires Shaped(s)
  {
    && op.Submit? && s.limit > 0
    && var q := Alive(s.queues[Rank(op.profile)], s.now);
      exists j :: 0 <= j <= |q| - s.limit && q[j].request == x
  }

  lemma StepEvicts(s: State, op: Op)
    requires Shaped(s)
    ensures s.evicted <= Step(s, op).evicted
    ensures forall x :: x in Step(s, op).evicted[|s.evicted|..] ==> LostToOverflow(s, op, x)
  {
    match op {
      case Submit(profile, lifetime, size, d) =>
        var r := NextRequest(s, profile, lifetime, size);
        var t := DropExpired(s).(requests := s.requests + [r]);
        AllAliveShape(s.queues, s.now);
        PushEvicts(t, r);
        hide AllAlive, AllDead, FirstBusy, InsertTime, Push, Alive;
      case Fire(before, after) =>
        assert DropExpired(s.(wakes := if s.wakes == [] then [] else s.wakes[1..])).evicted == s.evicted;
        hide DropExpired, NextQueue;
      case Retime(d) =>
        hide NextQueue;
      case _ =>
    }
  }

  /** In every run a request is evicted only by an arriving one of its category that finds the queue full. */
  lemma {:induction false} RunEvicts(limit: nat, now: int, ops: seq<Op>, x: Request) returns (n: nat)
    requires x in Run(Init(limit, now), ops).evicted
    ensures n < |ops| && LostToOverflow(Run(Init(limit, now), ops[..n]), ops[n], x)
  {
    var m := |ops| - 1;
    if |ops| > 0 {
      var s := Run(Init(limit, now), ops[..m]);
      hide Step, LostToOverflow;
      StepEvicts(s, ops[m]);
      var evicted := Run(Init(limit, now), ops).evicted;
      if x in s.evicted {
        n := RunEvicts(limit, now, ops[..m], x);
        assert ops[..m][..n] == ops[..n];
      } else {
        assert evicted == evicted[..|s.evicted|] + evicted[|s.evicted|..];
        n := m;
      }
    }
  }

  lemma {:induction false} FrontsDiffer(q: seq<Pending>, n: nat, r: Request)
    requires n <= |q| && forall i :: 0 <= i < |q| ==> q[i].request != r
    ensures |Fronts(q, n)| == n
    ensures forall i :: 0 <= i < n ==> Fronts(q, n)[i] != r
  {
    if n > 0 {
      FrontsDiffer(q[1..], n - 1, r);
    }
  }

  /**
   * The drop hook learns about the evicted packets if and only if the queue has room left: for each evicted packet
   * it is told about the arriving one instead.
   */
  lemma EvictionMisreported(s: State, r: Request)
    requires Fifo(s) && r.tag == |s.requests|
    ensures var t := Push(s, r);
      t.reported[|s.reported|..] == t.evicted[|s.evicted|..] <==>
      s.limit == 0 || |s.queues[Rank(r.profile)]| < s.limit
  {
    var q := s.queues[Rank(r.profile)];
    var n := Excess(s.limit, |q|);
    FrontsDiffer(q, n, r);
    var t := Push(s, r);
    assert t.reported[|s.reported|..] == seq(n, _ => r);
    assert t.evicted[|s.evicted|..] == Fronts(q, n);
    if n > 0 {
      assert t.reported[|s.reported|..][0] == r;
    }
  }
}
