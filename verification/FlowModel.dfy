/**
 * FlowControl, the gatekeeper above the access layer, as a transition system.
 *
 * There is one queue for each access category. DCC profiles map onto access categories one to one, so a
 * queue is found by the rank of its profile: rank 0 is the highest priority (DP0, voice), rank 3 the lowest
 * (DP3, background). Whatever the rate control answers is passed to the operations as functions.
 */
module FlowModel {
  import opened Runtime

  datatype Profile = DP0 | DP1 | DP2 | DP3

  const RANKS: nat := 4

  /** Rank of the access category that a profile is mapped onto. */
  function Rank(p: Profile): (r: nat)
    ensures r < RANKS
  {
    match p
    case DP0 => 0
    case DP1 => 1
    case DP2 => 2
    case DP3 => 3
  }

  /** DP0 has the highest priority and DP3 the lowest one. */
  lemma RanksByPriority()
    ensures Rank(DP0) < Rank(DP1) < Rank(DP2) < Rank(DP3)
  {
  }

  /** Packet with its request parameters; the tag is the number of requests before it. */
  datatype Request = Request(profile: Profile, lifetime: int, size: nat, tag: nat)

  datatype Pending = Pending(expiry: int, request: Request)

  /** Transmission: a packet passed to the access layer, with its expiry if it has been queued. */
  datatype Sent = Sent(request: Request, at: int, expiry: Option<int>)

  /** Answers of the rate control to delay(). */
  type Delays = Request -> int

  /** Clock::duration::max() */
  const MAX_DELAY: int := 0x7FFF_FFFF_FFFF_FFFF

  datatype State = State(
    queues: seq<seq<Pending>>,
    limit: nat,
    now: int,
    wakes: seq<int>,
    requests: seq<Request>,
    sent: seq<Sent>,
    expired: seq<Request>,
    evicted: seq<Request>,
    reported: seq<Request>)

  ghost predicate Shaped(s: State) {
    |s.queues| == RANKS
  }

  function Init(limit: nat, now: int): State {
    State([[], [], [], []], limit, now, [], [], [], [], [], [])
  }

  // ---------------------------------------------------------------------
  // Pending triggers in firing order
  // ---------------------------------------------------------------------

  function InsertTime(wakes: seq<int>, t: int): seq<int> {
    if wakes == [] || t < wakes[0] then [t] + wakes else [wakes[0]] + InsertTime(wakes[1..], t)
  }

  // ---------------------------------------------------------------------
  // Queues
  // ---------------------------------------------------------------------

  function Alive(q: seq<Pending>, now: int): seq<Pending> {
    if q == [] then []
    else (if q[0].expiry < now then [] else [q[0]]) + Alive(q[1..], now)
  }

  function Dead(q: seq<Pending>, now: int): seq<Request> {
    if q == [] then []
    else (if q[0].expiry < now then [q[0].request] else []) + Dead(q[1..], now)
  }

  /** Requests of all expired packets, queue by queue. */
  function AllDead(queues: seq<seq<Pending>>, now: int): seq<Request> {
    if queues == [] then [] else Dead(queues[0], now) + AllDead(queues[1..], now)
  }

  function AllAlive(queues: seq<seq<Pending>>, now: int): seq<seq<Pending>> {
    if queues == [] then [] else [Alive(queues[0], now)] + AllAlive(queues[1..], now)
  }

  /** Remove expired packets from all queues; the drop hook learns about each of them. */
  function DropExpired(s: State): State {
    s.(queues := AllAlive(s.queues, s.now),
       expired := s.expired + AllDead(s.queues, s.now),
       reported := s.reported + AllDead(s.queues, s.now))
  }

  /** Number of leading empty queues. */
  function FirstBusy(queues: seq<seq<Pending>>): (k: nat)
    ensures k <= |queues|
    ensures forall i :: 0 <= i < k ==> queues[i] == []
    ensures k < |queues| ==> queues[k] != []
  {
    if queues == [] || queues[0] != [] then 0 else 1 + FirstBusy(queues[1..])
  }

  predicate Empty(s: State) {
    FirstBusy(s.queues) == |s.queues|
  }

  /** A packet of equal or higher priority is waiting. */
  predicate Contention(s: State, rank: nat) {
    FirstBusy(s.queues) <= rank
  }

  /** Queue k is the first one among those whose front has the least delay, and that delay is finite. */
  ghost predicate IsNext(queues: seq<seq<Pending>>, d: Delays, k: nat) {
    && k < |queues| && queues[k] != []
    && d(queues[k][0].request) < MAX_DELAY
    && (forall j :: 0 <= j < |queues| && queues[j] != [] ==> d(queues[k][0].request) <= d(queues[j][0].request))
    && (forall j :: 0 <= j < k && queues[j] != [] ==> d(queues[k][0].request) < d(queues[j][0].request))
  }

  ghost predicate HasNext(queues: seq<seq<Pending>>, d: Delays) {
    exists j :: 0 <= j < |queues| && queues[j] != [] && d(queues[j][0].request) < MAX_DELAY
  }

  /** Search for the next queue among the first n, given in rank order. */
  function NextAmong(queues: seq<seq<Pending>>, d: Delays, n: nat): (r: Option<nat>)
    requires n <= |queues|
    ensures r.Some? ==> IsNext(queues[..n], d, r.value)
    ensures r.None? ==> !HasNext(queues[..n], d)
  {
    if n == 0 then None
    else
      var before := NextAmong(queues, d, n - 1);
      assert forall i :: 0 <= i < n - 1 ==> queues[..n - 1][i] == queues[..n][i];
      if queues[n - 1] == [] then before
      else if before.None? then if d(queues[n - 1][0].request) < MAX_DELAY then Some(n - 1) else None
      else if d(queues[n - 1][0].request) < d(queues[before.value][0].request) then Some(n - 1)
      else before
  }

  function NextQueue(queues: seq<seq<Pending>>, d: Delays): (r: Option<nat>)
    ensures r.Some? ==> IsNext(queues, d, r.value)
    ensures r.None? ==> !HasNext(queues, d)
  {
    assert queues[..|queues|] == queues;
    NextAmong(queues, d, |queues|)
  }

  lemma NextUnique(queues: seq<seq<Pending>>, d: Delays, j: nat, k: nat)
    requires IsNext(queues, d, j) && IsNext(queues, d, k)
    ensures j == k
  {
  }

  // ---------------------------------------------------------------------
  // Operations
  // ---------------------------------------------------------------------

  function Transmit(s: State, r: Request, expiry: Option<int>): State {
    s.(sent := s.sent + [Sent(r, s.now, expiry)])
  }

  function ScheduleTrigger(s: State, delay: int): State {
    s.(wakes := InsertTime(s.wakes, s.now + delay))
  }

  /** Number of packets evicted from a queue before another one is appended. */
  function Excess(limit: nat, length: nat): nat {
    if limit > 0 && length >= limit then length - limit + 1 else 0
  }

  /** Requests of the first n packets of a queue. */
  function Fronts(q: seq<Pending>, n: nat): seq<Request>
    requires n <= |q|
  {
    if n == 0 then [] else [q[0].request] + Fronts(q[1..], n - 1)
  }

  /** The drop hook is told about the arriving packet for each evicted one. */
  function Push(s: State, r: Request): State
    requires Shaped(s)
  {
    var q := s.queues[Rank(r.profile)];
    var n := Excess(s.limit, |q|);
    s.(queues := s.queues[Rank(r.profile) := q[n..] + [Pending(s.now + r.lifetime, r)]],
       evicted := s.evicted + Fronts(q, n),
       reported := s.reported + seq(n, _ => r))
  }

  function Enqueue(s: State, r: Request, d: Delays): State
    requires Shaped(s)
  {
    if Empty(s) then ScheduleTrigger(Push(s, r), d(r)) else Push(s, r)
  }

  /** The delay is asked for once by transmit_immediately and, if need be, once more by enqueue. */
  function Arrive(s: State, r: Request, d: Delays): State
    requires Shaped(s)
  {
    var t := DropExpired(s).(requests := s.requests + [r]);
    AllAliveShape(s.queues, s.now);
    if !Contention(t, Rank(r.profile)) && d(r) == 0 then Transmit(t, r, None) else Enqueue(t, r, d)
  }

  lemma AllAliveShape(queues: seq<seq<Pending>>, now: int)
    ensures |AllAlive(queues, now)| == |queues|
    ensures forall i :: 0 <= i < |queues| ==> AllAlive(queues, now)[i] == Alive(queues[i], now)
  {
  }

  /** Take the front of the next queue and transmit it. */
  function Dequeue(s: State, d: Delays): State {
    match NextQueue(s.queues, d)
    case None => s
    case Some(k) =>
      Transmit(s.(queues := s.queues[k := s.queues[k][1..]]), s.queues[k][0].request, Some(s.queues[k][0].expiry))
  }

  /** Schedule a trigger for the front of the next queue. */
  function ScheduleNext(s: State, d: Delays): State {
    match NextQueue(s.queues, d)
    case None => s
    case Some(k) => ScheduleTrigger(s, d(s.queues[k][0].request))
  }

  /** Delays before and after the transmission may differ, because the rate control is notified in between. */
  function Trigger(s: State, before: Delays, after: Delays): State {
    ScheduleNext(Dequeue(DropExpired(s), before), after)
  }

  function Reschedule(s: State, d: Delays): State {
    if NextQueue(s.queues, d).None? then s else ScheduleNext(s.(wakes := []), d)
  }
}
