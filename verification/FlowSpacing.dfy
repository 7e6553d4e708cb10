/**
 * FlowControl with a StateMachineBudget of constant interval: spacing of transmissions.
 */
module FlowSpacing {
  import opened Runtime
  import opened FlowModel
  import opened FlowRuns
  import opened StateMachineBudget

  /** Every transmission notifies the budget, so its last transmission is the last one of the log. */
  function LastTx(s: State): Option<int> {
    if s.sent == [] then None else Some(s.sent[|s.sent| - 1].at)
  }

  /** The budget treats all packets alike. */
  function Answer(s: State, interval: int): Delays {
    var d := Delay(LastTx(s), interval, s.now);
    (r: Request) => d
  }

  /** Operations whose delays are answered by the budget. */
  datatype Call = Ask(profile: Profile, lifetime: int, size: nat) | Due | Again | Pass(to: int) | Resize(limit: nat)

  function AsOp(s: State, c: Call, interval: int): Op {
    match c
    case Ask(profile, lifetime, size) => Submit(profile, lifetime, size, Answer(s, interval))
    case Due =>
      var t := if s.wakes == [] then s else s.(wakes := s.wakes[1..]);
      Fire(Answer(t, interval), Answer(Dequeue(DropExpired(t), Answer(t, interval)), interval))
    case Again => Retime(Answer(s, interval))
    case Pass(to) => Advance(to)
    case Resize(limit) => SetLimit(limit)
  }

  function StepCall(s: State, c: Call, interval: int): (r: State)
    requires Shaped(s)
    ensures Shaped(r)
  {
    Step(s, AsOp(s, c, interval))
  }

  /** Consecutive transmissions are at least one interval apart. */
  ghost predicate Spaced(sent: seq<Sent>, interval: int) {
    forall i, j :: 0 <= i && j == i + 1 && j < |sent| ==> sent[i].at + interval <= sent[j].at
  }

  /**
   * Exactly one trigger is pending while any packet is queued, and it is not earlier than the budget permits:
   * it is either due at once or exactly when the budget opens.
   */
  ghost predicate Paced(s: State, interval: int) {
    && Shaped(s)
    && Spaced(s.sent, interval)
    && (s.sent != [] ==> LastTx(s).value <= s.now)
    && |s.wakes| == (if Empty(s) then 0 else 1)
    && (s.wakes != [] ==>
          && s.sent != []
          && LastTx(s).value + interval <= s.wakes[0]
          && (s.wakes[0] == LastTx(s).value + interval || s.wakes[0] <= s.now))
  }

  lemma SpacedMore(sent: seq<Sent>, x: Sent, interval: int)
    requires Spaced(sent, interval) && (sent != [] ==> sent[|sent| - 1].at + interval <= x.at)
    ensures Spaced(sent + [x], interval)
  {
  }

  /** What a request finds after expired packets have been dropped. */
  function Cleared(s: State, r: Request): State {
    DropExpired(s).(requests := s.requests + [r])
  }

  predicate Immediate(s: State, r: Request, interval: int) {
    !Contention(Cleared(s, r), Rank(r.profile)) && Delay(LastTx(s), interval, s.now) == 0
  }

  lemma PushNotEmpty(s: State, r: Request)
    requires Shaped(s)
    ensures !Empty(Push(s, r))
  {
    var t := Push(s, r);
    assert t.queues[Rank(r.profile)] != [];
  }

  lemma AskForm(s: State, c: Call, interval: int)
    requires Shaped(s) && c.Ask?
    ensures var r := NextRequest(s, c.profile, c.lifetime, c.size);
      var t := Cleared(s, r);
      && Shaped(t)
      && StepCall(s, c, interval) ==
         if Immediate(s, r, interval) then Transmit(t, r, None)
         else if Empty(t) then ScheduleTrigger(Push(t, r), Delay(LastTx(s), interval, s.now))
         else Push(t, r)
  {
    AllAliveShape(s.queues, s.now);
    hide AllAlive, AllDead, FirstBusy, Push, Delay;
  }

  /** A request keeps the pace if it finds empty queues, */
  lemma AskWhenEmpty(s: State, c: Call, interval: int)
    requires Paced(s, interval) && 0 < interval && c.Ask? && Empty(s)
    ensures Paced(StepCall(s, c, interval), interval)
  {
    var r := NextRequest(s, c.profile, c.lifetime, c.size);
    var t := Cleared(s, r);
    AskForm(s, c, interval);
    EmptyStaysEmpty(s.queues, s.now);
    PushNotEmpty(t, r);
    assert Empty(t);
    hide AllAlive, AllDead, FirstBusy, StepCall;
    if Immediate(s, r, interval) {
      SpacedMore(s.sent, Sent(r, s.now, None), interval);
    }
  }

  /** or if some packet remains queued and it is queued itself. */
  lemma AskWhenQueued(s: State, c: Call, interval: int)
    requires Paced(s, interval) && 0 < interval && c.Ask? && !Empty(s)
    requires var r := NextRequest(s, c.profile, c.lifetime, c.size);
      !Empty(Cleared(s, r)) && !Immediate(s, r, interval)
    ensures Paced(StepCall(s, c, interval), interval)
  {
    var r := NextRequest(s, c.profile, c.lifetime, c.size);
    AskForm(s, c, interval);
    PushNotEmpty(Cleared(s, r), r);
    hide AllAlive, AllDead, FirstBusy, StepCall, Immediate;
  }

  // ---------------------------------------------------------------------
  // Triggers
  // ---------------------------------------------------------------------

  lemma AnswerFinite(s: State, interval: int)
    requires 0 <= interval < MAX_DELAY && (s.sent != [] ==> LastTx(s).value <= s.now)
    ensures Finite(Answer(s, interval))
  {
  }

  /** A trigger on non-empty queues transmits one packet now. */
  lemma DequeueForm(s: State, d: Delays) returns (x: Sent)
    requires Finite(d)
    ensures Empty(s) ==> Dequeue(s, d) == s
    ensures !Empty(s) ==> x.at == s.now && Dequeue(s, d).sent == s.sent + [x]
    ensures Dequeue(s, d).now == s.now && Dequeue(s, d).wakes == s.wakes && |Dequeue(s, d).queues| == |s.queues|
  {
    NextExists(s, d);
    hide FirstBusy, NextQueue;
    var next := NextQueue(s.queues, d);
    x := if next.None? then Sent(Request(DP0, 0, 0, 0), s.now, None)
         else Sent(s.queues[next.value][0].request, s.now, Some(s.queues[next.value][0].expiry));
  }

  lemma ScheduleNextForm(s: State, interval: int)
    requires 0 <= interval < MAX_DELAY && (s.sent != [] ==> LastTx(s).value <= s.now)
    ensures var d := Answer(s, interval);
      ScheduleNext(s, d) == if Empty(s) then s else ScheduleTrigger(s, Delay(LastTx(s), interval, s.now))
  {
    AnswerFinite(s, interval);
    NextExists(s, Answer(s, interval));
    hide FirstBusy, NextQueue;
  }

  /** State after a trigger: at most one more transmission, and one trigger for what remains. */
  lemma DueForm(s: State, interval: int) returns (v: State, x: Sent)
    requires Shaped(s) && 0 < interval < MAX_DELAY && s.wakes != [] && (s.sent != [] ==> LastTx(s).value <= s.now)
    ensures Shaped(v) && v.now == s.now && v.wakes == s.wakes[1..] && x.at == s.now
    ensures Empty(DropExpired(s)) ==> v.sent == s.sent && Empty(v)
    ensures !Empty(DropExpired(s)) ==> v.sent == s.sent + [x]
    ensures Total(v.queues) == if Empty(DropExpired(s)) then 0 else Total(DropExpired(s).queues) - 1
    ensures StepCall(s, Due, interval) ==
            if Empty(v) then v else ScheduleTrigger(v, Delay(LastTx(v), interval, v.now))
  {
    var t := s.(wakes := s.wakes[1..]);
    var u := DropExpired(t);
    AllAliveShape(t.queues, t.now);
    AnswerFinite(t, interval);
    x := DequeueForm(u, Answer(t, interval));
    DequeueTotal(u, Answer(t, interval));
    TotalZero(u.queues);
    v := Dequeue(u, Answer(t, interval));
    if Empty(u) {
      x := Sent(Request(DP0, 0, 0, 0), s.now, None);
    }
    hide AllAlive, AllDead, FirstBusy, Dequeue, ScheduleNext, Total, Answer;
    ScheduleNextForm(v, interval);
  }

  lemma DuePaced(s: State, interval: int)
    requires Paced(s, interval) && 0 < interval < MAX_DELAY && s.wakes != [] && s.wakes[0] <= s.now
    ensures Paced(StepCall(s, Due, interval), interval)
  {
    hide DropExpired, FirstBusy, StepCall, Step, Total, Spaced;
    var v, x := DueForm(s, interval);
    if !Empty(DropExpired(s)) {
      SpacedMore(s.sent, x, interval);
    }
  }

  lemma AgainPaced(s: State, interval: int)
    requires Paced(s, interval) && 0 < interval < MAX_DELAY
    ensures Paced(StepCall(s, Again, interval), interval)
  {
    AnswerFinite(s, interval);
    NextExists(s, Answer(s, interval));
    ScheduleNextForm(s.(wakes := []), interval);
    hide FirstBusy, NextQueue, ScheduleNext;
    assert Answer(s.(wakes := []), interval) == Answer(s, interval);
  }

  // ---------------------------------------------------------------------
  // Whole runs
  // ---------------------------------------------------------------------

  /** Triggers fire only when they are due, and time does not run backwards. */
  predicate Possible(s: State, c: Call) {
    match c
    case Due => s.wakes != [] && s.wakes[0] <= s.now
    case Pass(to) => s.now <= to
    case _ => true
  }

  /** Requests come after the triggers due at the same instant, and do not find all queued packets expired. */
  predicate Calm(s: State, c: Call) {
    c.Ask? ==> (s.wakes == [] || s.now < s.wakes[0]) && (Empty(s) || !Empty(DropExpired(s)))
  }

  function RunCalls(s: State, calls: seq<Call>, interval: int): (r: State)
    requires Shaped(s)
    ensures Shaped(r)
  {
    if calls == [] then s else StepCall(RunCalls(s, calls[..|calls| - 1], interval), calls[|calls| - 1], interval)
  }

  predicate AllCalm(s: State, calls: seq<Call>, interval: int)
    requires Shaped(s)
  {
    calls == [] ||
      var before := RunCalls(s, calls[..|calls| - 1], interval);
      var c := calls[|calls| - 1];
      AllCalm(s, calls[..|calls| - 1], interval) && Possible(before, c) && Calm(before, c)
  }

  lemma AskCalm(s: State, c: Call, interval: int)
    requires Paced(s, interval) && 0 < interval < MAX_DELAY && c.Ask? && Calm(s, c)
    ensures Paced(StepCall(s, c, interval), interval)
  {
    var r := NextRequest(s, c.profile, c.lifetime, c.size);
    assert Empty(DropExpired(s)) <==> Empty(Cleared(s, r));
    hide StepCall, DropExpired, FirstBusy, Spaced;
    if Empty(s) {
      AskWhenEmpty(s, c, interval);
    } else {
      AskWhenQueued(s, c, interval);
    }
  }

  lemma CalmPaced(s: State, c: Call, interval: int)
    requires Paced(s, interval) && 0 < interval < MAX_DELAY && Possible(s, c) && Calm(s, c)
    ensures Paced(StepCall(s, c, interval), interval)
  {
    match c {
      case Ask(profile, lifetime, size) =>
        AskCalm(s, c, interval);
      case Due => DuePaced(s, interval);
      case Again => AgainPaced(s, interval);
      case Pass(to) =>
      case Resize(limit) =>
    }
  }

  /**
   * Spacing: with one budget of constant interval, consecutive transmissions are at least one interval apart in
   * every run in which requests are calm.
   */
  lemma {:induction false} RunSpaced(limit: nat, now: int, calls: seq<Call>, interval: int)
    requires 0 < interval < MAX_DELAY && AllCalm(Init(limit, now), calls, interval)
    ensures Paced(RunCalls(Init(limit, now), calls, interval), interval)
    ensures Spaced(RunCalls(Init(limit, now), calls, interval).sent, interval)
  {
    if calls != [] {
      var before := RunCalls(Init(limit, now), calls[..|calls| - 1], interval);
      RunSpaced(limit, now, calls[..|calls| - 1], interval);
      hide StepCall, Possible, Calm;
      CalmPaced(before, calls[|calls| - 1], interval);
    }
  }

  // ---------------------------------------------------------------------
  // Requests that cost the spacing
  // ---------------------------------------------------------------------

  /** Dropping expired packets twice at the same time is the same as doing it once. */
  lemma {:induction false} AliveTwice(q: seq<Pending>, now: int)
    ensures Alive(Alive(q, now), now) == Alive(q, now)
  {
    if q != [] {
      AliveTwice(q[1..], now);
      if q[0].expiry < now {
        assert Alive(q, now) == Alive(q[1..], now);
      } else {
        assert Alive(q, now)[1..] == Alive(q[1..], now);
      }
    }
  }

  lemma AllAliveTwice(queues: seq<seq<Pending>>, now: int)
    ensures AllAlive(AllAlive(queues, now), now) == AllAlive(queues, now)
  {
    AllAliveShape(queues, now);
    AllAliveShape(AllAlive(queues, now), now);
    forall i | 0 <= i < |queues|
      ensures AllAlive(AllAlive(queues, now), now)[i] == AllAlive(queues, now)[i]
    {
      AliveTwice(queues[i], now);
    }
  }

  /**
   * A request that comes just before a due trigger and meets packets of lower priority only is transmitted at
   * once, and so is the packet that the trigger finds: two transmissions at one instant.
   */
  lemma RequestBeforeDueTrigger(s: State, c: Call, interval: int)
    requires Paced(s, interval) && 0 < interval < MAX_DELAY && c.Ask?
    requires s.wakes != [] && s.wakes[0] <= s.now
    requires !Empty(DropExpired(s)) && !Contention(DropExpired(s), Rank(c.profile))
    ensures var r := StepCall(StepCall(s, c, interval), Due, interval);
      |r.sent| == |s.sent| + 2 && !Spaced(r.sent, interval)
  {
    var r := NextRequest(s, c.profile, c.lifetime, c.size);
    AskForm(s, c, interval);
    assert Immediate(s, r, interval);
    var q := StepCall(s, c, interval);
    AllAliveTwice(s.queues, s.now);
    assert DropExpired(q).queues == DropExpired(s).queues;
    var v, x := DueForm(q, interval);
    hide StepCall, DropExpired, FirstBusy, Total;
    var sent := q.sent + [x];
    assert sent[|s.sent|].at == sent[|s.sent| + 1].at == s.now;
  }

  /** Two due triggers transmit two packets at one instant. */
  lemma TwoTriggersTwoTransmissions(s: State, interval: int)
    requires Shaped(s) && 0 < interval < MAX_DELAY && s.sent != [] && LastTx(s).value <= s.now
    requires |s.wakes| == 2 && s.wakes[0] <= s.wakes[1] <= s.now && Total(DropExpired(s).queues) >= 2
    ensures var q := StepCall(s, Due, interval);
      var r := StepCall(q, Due, interval);
      q.wakes != [] && q.wakes[0] <= q.now && |r.sent| == |s.sent| + 2 && !Spaced(r.sent, interval)
  {
    hide StepCall, Step, DropExpired, FirstBusy, Total;
    TotalZero(DropExpired(s).queues);
    var v, x := DueForm(s, interval);
    TotalZero(v.queues);
    var q := StepCall(s, Due, interval);
    assert q.wakes != [] && q.wakes[0] <= q.now;
    LiveRemain(s, q, interval);
    var w, y := DueForm(q, interval);
    var sent := q.sent + [y];
    assert sent[|s.sent|].at == sent[|s.sent| + 1].at == s.now;
  }

  /** Packets that survive one trigger have not expired for another one at the same time. */
  lemma LiveRemain(s: State, q: State, interval: int)
    requires Shaped(s) && 0 < interval < MAX_DELAY && s.wakes != [] && s.sent != [] && LastTx(s).value <= s.now
    requires q == StepCall(s, Due, interval) && Total(DropExpired(s).queues) >= 2
    ensures !Empty(DropExpired(q))
  {
    var t := s.(wakes := s.wakes[1..]);
    var u := DropExpired(t);
    AllAliveShape(t.queues, t.now);
    AnswerFinite(t, interval);
    TotalZero(u.queues);
    NextExists(u, Answer(t, interval));
    var k := NextQueue(u.queues, Answer(t, interval)).value;
    assert q.queues == u.queues[k := u.queues[k][1..]];
    TailStaysAlive(s.queues, s.now, k);
    TotalUpdate(u.queues, k, u.queues[k][1..]);
    TotalZero(q.queues);
  }

  lemma TailStaysAlive(queues: seq<seq<Pending>>, now: int, k: nat)
    requires var u := AllAlive(queues, now); k < |u| && u[k] != []
    ensures var u := AllAlive(queues, now); var r := u[k := u[k][1..]]; AllAlive(r, now) == r
  {
    var u := AllAlive(queues, now);
    var r := u[k := u[k][1..]];
    AllAliveShape(queues, now);
    AllAliveShape(r, now);
    forall i | 0 <= i < |r|
      ensures Alive(r[i], now) == r[i]
    {
      AliveTwice(queues[i], now);
      if i == k {
        AliveTail(u[k], now);
      }
    }
  }

  lemma {:induction false} AllLive(q: seq<Pending>, now: int)
    requires forall p :: p in q ==> now <= p.expiry
    ensures Alive(q, now) == q
  {
    if q != [] {
      AllLive(q[1..], now);
      assert q[0] in q;
    }
  }

  lemma AliveTail(q: seq<Pending>, now: int)
    requires q != [] && Alive(q, now) == q
    ensures Alive(q[1..], now) == q[1..]
  {
    AliveElements(q, now);
    AllLive(q[1..], now);
  }

  // ---------------------------------------------------------------------
  // Harmless states: spacing survives although the pace is lost
  // ---------------------------------------------------------------------

  /** A due trigger is left over that will find nothing to transmit. */
  ghost predicate Idle(s: State, interval: int) {
    && Shaped(s) && Spaced(s.sent, interval) && s.sent != [] && LastTx(s).value <= s.now
    && Empty(s) && |s.wakes| == 1 && s.wakes[0] <= s.now
  }

  /** Two triggers are pending for packets that have all expired. */
  ghost predicate Lapsed(s: State, interval: int) {
    && Shaped(s) && Spaced(s.sent, interval) && s.sent != [] && LastTx(s).value <= s.now
    && !Empty(s) && Empty(DropExpired(s))
    && s.wakes == [LastTx(s).value + interval, LastTx(s).value + interval]
  }

  ghost predicate Harmless(s: State, interval: int) {
    Paced(s, interval) || Idle(s, interval) || Lapsed(s, interval)
  }

  lemma IdleDue(s: State, interval: int)
    requires Idle(s, interval) && 0 < interval < MAX_DELAY
    ensures Paced(StepCall(s, Due, interval), interval)
  {
    EmptyStaysEmpty(s.queues, s.now);
    AllAliveShape(s.queues, s.now);
    assert Empty(DropExpired(s));
    hide FirstBusy, StepCall, Step, Total, AllAlive, AllDead, Spaced, Delay, DropExpired;
    var v, x := DueForm(s, interval);
  }

  lemma IdleAgain(s: State, interval: int)
    requires Idle(s, interval) && 0 < interval < MAX_DELAY
    ensures StepCall(s, Again, interval) == s
  {
    hide FirstBusy, NextQueue, Spaced;
    AnswerFinite(s, interval);
    NextExists(s, Answer(s, interval));
  }

  lemma IdleStep(s: State, c: Call, interval: int)
    requires Idle(s, interval) && 0 < interval < MAX_DELAY && Possible(s, c) && Calm(s, c)
    ensures Harmless(StepCall(s, c, interval), interval)
  {
    match c {
      case Due =>
        hide StepCall;
        IdleDue(s, interval);
      case Again =>
        IdleAgain(s, interval);
        hide StepCall;
      case _ =>
        hide FirstBusy, Spaced, Arrive;
    }
  }

  lemma {:induction false} DeadStayDead(q: seq<Pending>, now: int, to: int)
    requires Alive(q, now) == [] && now <= to
    ensures Alive(q, to) == []
  {
    if q != [] {
      DeadStayDead(q[1..], now, to);
    }
  }

  lemma PassLapsed(s: State, to: int, interval: int)
    requires Lapsed(s, interval) && s.now <= to
    ensures Lapsed(s.(now := to), interval)
  {
    AllAliveShape(s.queues, s.now);
    AllAliveShape(s.queues, to);
    forall k | 0 <= k < RANKS
      ensures Alive(s.queues[k], to) == []
    {
      DeadStayDead(s.queues[k], s.now, to);
    }
  }

  lemma LapsedStep(s: State, c: Call, interval: int)
    requires Lapsed(s, interval) && 0 < interval < MAX_DELAY && Possible(s, c) && Calm(s, c)
    ensures Harmless(StepCall(s, c, interval), interval)
  {
    match c {
      case Due =>
        var v, x := DueForm(s, interval);
        hide FirstBusy, StepCall, Total, DropExpired;
      case Again =>
        AnswerFinite(s, interval);
        NextExists(s, Answer(s, interval));
        ScheduleNextForm(s.(wakes := []), interval);
        hide FirstBusy, NextQueue, ScheduleNext, DropExpired;
        assert Answer(s.(wakes := []), interval) == Answer(s, interval);
      case Pass(to) =>
        PassLapsed(s, to, interval);
      case _ =>
    }
  }

  lemma {:induction false} HarmlessRun(s: State, calls: seq<Call>, interval: int)
    requires Harmless(s, interval) && 0 < interval < MAX_DELAY && AllCalm(s, calls, interval)
    ensures Harmless(RunCalls(s, calls, interval), interval)
  {
    if calls != [] {
      var before, c := RunCalls(s, calls[..|calls| - 1], interval), calls[|calls| - 1];
      HarmlessRun(s, calls[..|calls| - 1], interval);
      hide StepCall, Possible, Calm, Paced, Idle, Lapsed;
      if Paced(before, interval) {
        CalmPaced(before, c, interval);
      } else if Idle(before, interval) {
        IdleStep(before, c, interval);
      } else {
        LapsedStep(before, c, interval);
      }
    }
  }

  /** Expiry has emptied the queues, and the request is transmitted at once. */
  lemma AskIdles(s: State, c: Call, interval: int)
    requires Paced(s, interval) && 0 < interval < MAX_DELAY && c.Ask? && !Empty(s) && Empty(DropExpired(s))
    requires Immediate(s, NextRequest(s, c.profile, c.lifetime, c.size), interval)
    ensures Idle(StepCall(s, c, interval), interval)
  {
    var r := NextRequest(s, c.profile, c.lifetime, c.size);
    AskForm(s, c, interval);
    hide AllAlive, AllDead, FirstBusy, StepCall;
    SpacedMore(s.sent, Sent(r, s.now, None), interval);
  }

  // ---------------------------------------------------------------------
  // Two triggers
  // ---------------------------------------------------------------------

  /** Two triggers are pending for the instant at which the budget opens. */
  ghost predicate Doubled(s: State, interval: int) {
    && Shaped(s) && s.sent != [] && LastTx(s).value <= s.now < LastTx(s).value + interval
    && s.wakes == [LastTx(s).value + interval, LastTx(s).value + interval]
  }

  /**
   * If expiry empties the queues inside a request, the next queued packet brings a second trigger. What is queued
   * then is this packet only; it has expired if and only if its lifetime is negative.
   */
  lemma ExpiryDoublesTrigger(s: State, c: Call, interval: int)
    requires Paced(s, interval) && 0 < interval < MAX_DELAY && c.Ask? && !Empty(s) && Empty(DropExpired(s))
    requires !Immediate(s, NextRequest(s, c.profile, c.lifetime, c.size), interval)
    ensures var q := StepCall(s, c, interval);
      && Doubled(q, interval) && q.sent == s.sent && q.now == s.now && !Empty(q)
      && (Empty(DropExpired(q)) <==> c.lifetime < 0)
  {
    var r := NextRequest(s, c.profile, c.lifetime, c.size);
    var t := Cleared(s, r);
    AskForm(s, c, interval);
    PushNotEmpty(t, r);
    OnlyOne(t, r, Delay(LastTx(s), interval, s.now));
    hide DropExpired, FirstBusy, StepCall;
    assert s.wakes == [LastTx(s).value + interval];
    assert InsertTime(s.wakes[1..], s.wakes[0]) == [s.wakes[0]];
  }

  /** The only packet is dropped as expired if and only if its lifetime is negative. */
  lemma OnlyOne(t: State, r: Request, delay: int)
    requires Shaped(t) && Empty(t)
    ensures Empty(DropExpired(ScheduleTrigger(Push(t, r), delay))) <==> r.lifetime < 0
  {
    var q := Push(t, r).queues;
    var p := Pending(t.now + r.lifetime, r);
    AllAliveShape(q, t.now);
    assert q[Rank(r.profile)] == [p];
    assert Alive([p], t.now) == if r.lifetime < 0 then [] else [p];
  }

  /** A packet in the queue of this rank lives until time w. */
  ghost predicate Lives(s: State, rank: nat, w: int) {
    rank < |s.queues| && exists p :: p in s.queues[rank] && w <= p.expiry
  }

  /** Another request is calm and queued; it does not change the triggers. */
  lemma AskDoubled(s: State, c: Call, w: int, interval: int)
    requires Doubled(s, interval) && 0 < interval < MAX_DELAY && c.Ask? && !Empty(DropExpired(s))
    requires s.now + c.lifetime == LastTx(s).value + interval == w
    ensures Possible(s, c) && Calm(s, c)
    ensures var q := StepCall(s, c, interval);
      && Doubled(q, interval) && q.sent == s.sent && q.now == s.now && !Empty(DropExpired(q))
      && Lives(q, Rank(c.profile), w)
      && (forall k :: 0 <= k < RANKS && k != Rank(c.profile) && Lives(s, k, w) ==> Lives(q, k, w))
  {
    var r := NextRequest(s, c.profile, c.lifetime, c.size);
    var t := Cleared(s, r);
    AskForm(s, c, interval);
    DropExpiredLives(s, w);
    assert Empty(t) <==> Empty(DropExpired(s));
    hide DropExpired, FirstBusy, StepCall;
    PushLives(t, r, w);
    LivesNotEmpty(Push(t, r), Rank(c.profile), w);
  }

  lemma PushLives(t: State, r: Request, w: int)
    requires Shaped(t) && t.now + r.lifetime == w
    ensures Lives(Push(t, r), Rank(r.profile), w)
    ensures forall k :: 0 <= k < RANKS && k != Rank(r.profile) && Lives(t, k, w) ==> Lives(Push(t, r), k, w)
  {
    var q := Push(t, r).queues[Rank(r.profile)];
    assert q[|q| - 1] in q;
  }

  lemma DropExpiredLives(s: State, w: int)
    requires Shaped(s) && s.now <= w
    ensures forall k :: 0 <= k < RANKS && Lives(s, k, w) ==> Lives(DropExpired(s), k, w)
  {
    AllAliveShape(s.queues, s.now);
    forall k | 0 <= k < RANKS && Lives(s, k, w)
      ensures Lives(DropExpired(s), k, w)
    {
      AliveElements(s.queues[k], s.now);
      var p :| p in s.queues[k] && w <= p.expiry;
      assert p in DropExpired(s).queues[k];
    }
  }

  lemma LivesNotEmpty(s: State, rank: nat, w: int)
    requires Shaped(s) && Lives(s, rank, w) && s.now <= w
    ensures !Empty(DropExpired(s))
  {
    DropExpiredLives(s, w);
    AllAliveShape(s.queues, s.now);
  }

  lemma TwoLive(s: State, w: int)
    requires Shaped(s) && Lives(s, 0, w) && Lives(s, 1, w) && s.now <= w
    ensures Total(DropExpired(s).queues) >= 2
  {
    DropExpiredLives(s, w);
    AllAliveShape(s.queues, s.now);
    var q := DropExpired(s).queues;
    assert q[0] != [] && q[1] != [];
    assert Total(q) == |q[0]| + Total(q[1..]);
    assert q[1..][0] == q[1];
  }

  /** Two more requests, and two triggers at the time when the budget opens. */
  function Overload(s: State, interval: int): seq<Call>
    requires s.sent != []
  {
    var w := LastTx(s).value + interval;
    [Ask(DP0, w - s.now, 0), Ask(DP1, w - s.now, 0), Pass(w), Due, Due]
  }

  lemma AddCall(s: State, calls: seq<Call>, c: Call, interval: int)
    requires Shaped(s)
    ensures RunCalls(s, calls + [c], interval) == StepCall(RunCalls(s, calls, interval), c, interval)
    ensures var r := RunCalls(s, calls, interval);
      AllCalm(s, calls + [c], interval) <==> AllCalm(s, calls, interval) && Possible(r, c) && Calm(r, c)
  {
    assert (calls + [c])[..|calls|] == calls;
  }

  /** Two more packets wait when the budget opens. */
  lemma DoubledFillsUp(s: State, w: int, interval: int)
    requires Doubled(s, interval) && 0 < interval < MAX_DELAY && !Empty(DropExpired(s))
    requires w == LastTx(s).value + interval
    ensures var calls := [Ask(DP0, w - s.now, 0), Ask(DP1, w - s.now, 0)];
      var t := RunCalls(s, calls, interval);
      && AllCalm(s, calls, interval) && Doubled(t, interval) && t.sent == s.sent && t.now == s.now
      && Lives(t, 0, w) && Lives(t, 1, w)
  {
    var a, b := Ask(DP0, w - s.now, 0), Ask(DP1, w - s.now, 0);
    assert AllCalm(s, [], interval) && RunCalls(s, [], interval) == s;
    hide AllCalm, RunCalls, StepCall, DropExpired, FirstBusy, Calm, Lives;
    AddCall(s, [], a, interval);
    assert [] + [a] == [a];
    AskDoubled(s, a, w, interval);
    AddCall(s, [a], b, interval);
    assert [a] + [b] == [a, b];
    AskDoubled(StepCall(s, a, interval), b, w, interval);
  }

  /** Both triggers fire when the budget opens. */
  lemma FireTwice(s: State, w: int, interval: int)
    requires Doubled(s, interval) && 0 < interval < MAX_DELAY && w == LastTx(s).value + interval
    requires Lives(s, 0, w) && Lives(s, 1, w)
    ensures AllCalm(s, [Pass(w), Due, Due], interval)
    ensures !Spaced(RunCalls(s, [Pass(w), Due, Due], interval).sent, interval)
  {
    var t := s.(now := w);
    assert Lives(t, 0, w) && Lives(t, 1, w);
    assert AllCalm(s, [], interval) && RunCalls(s, [], interval) == s;
    hide AllCalm, RunCalls, StepCall, Step, DropExpired, FirstBusy, Total, Lives, Spaced, Delay;
    TwoLive(t, w);
    TwoTriggersTwoTransmissions(t, interval);
    PassIs(s, w, interval);
    AddCall(s, [], Pass(w), interval);
    assert [] + [Pass(w)] == [Pass(w)];
    AddCall(s, [Pass(w)], Due, interval);
    assert [Pass(w)] + [Due] == [Pass(w), Due];
    AddCall(s, [Pass(w), Due], Due, interval);
    assert [Pass(w), Due] + [Due] == [Pass(w), Due, Due];
  }

  lemma {:induction false} ConcatCalls(s: State, a: seq<Call>, b: seq<Call>, interval: int)
    requires Shaped(s)
    ensures RunCalls(s, a + b, interval) == RunCalls(RunCalls(s, a, interval), b, interval)
    ensures AllCalm(s, a + b, interval) <==>
            AllCalm(s, a, interval) && AllCalm(RunCalls(s, a, interval), b, interval)
  {
    if b == [] {
      assert a + b == a;
    } else {
      var n := |b| - 1;
      assert (a + b)[..|a + b| - 1] == a + b[..n];
      hide StepCall, Possible, Calm;
      ConcatCalls(s, a, b[..n], interval);
    }
  }

  /** Two pending triggers cost the spacing, although all further requests are calm. */
  lemma DoubledLosesSpacing(s: State, interval: int)
    requires Doubled(s, interval) && 0 < interval < MAX_DELAY && !Empty(DropExpired(s))
    ensures AllCalm(s, Overload(s, interval), interval)
    ensures !Spaced(RunCalls(s, Overload(s, interval), interval).sent, interval)
  {
    var w := LastTx(s).value + interval;
    var two := [Ask(DP0, w - s.now, 0), Ask(DP1, w - s.now, 0)];
    assert two + [Pass(w), Due, Due] == Overload(s, interval);
    hide AllCalm, RunCalls, StepCall, Step, DropExpired, FirstBusy, Empty, Lives, Spaced, Possible, Calm, Delay;
    DoubledFillsUp(s, w, interval);
    FireTwice(RunCalls(s, two, interval), w, interval);
    ConcatCalls(s, two, [Pass(w), Due, Due], interval);
  }

  lemma PassIs(s: State, to: int, interval: int)
    requires Shaped(s) && s.now <= to
    ensures StepCall(s, Pass(to), interval) == s.(now := to)
    ensures Possible(s, Pass(to)) && Calm(s, Pass(to))
  {
  }

  // ---------------------------------------------------------------------
  // Which requests cost the spacing
  // ---------------------------------------------------------------------

  /** Every calm continuation keeps the spacing. */
  ghost predicate StaysSpaced(s: State, interval: int)
    requires Shaped(s)
  {
    forall calls :: AllCalm(s, calls, interval) ==> Spaced(RunCalls(s, calls, interval).sent, interval)
  }

  lemma HarmlessStaysSpaced(s: State, interval: int)
    requires Harmless(s, interval) && 0 < interval < MAX_DELAY
    ensures StaysSpaced(s, interval)
  {
    forall calls | AllCalm(s, calls, interval)
      ensures Spaced(RunCalls(s, calls, interval).sent, interval)
    {
      HarmlessRun(s, calls, interval);
    }
  }

  /** What the sender of a request could check beforehand. */
  predicate SafeRequest(s: State, c: Call, interval: int)
    requires c.Ask?
  {
    var immediate := Immediate(s, NextRequest(s, c.profile, c.lifetime, c.size), interval);
    || Empty(s)
    || (Empty(DropExpired(s)) && (immediate || c.lifetime < 0))
    || (!Empty(DropExpired(s)) && !immediate)
  }

  lemma SafeIsHarmless(s: State, c: Call, interval: int)
    requires Paced(s, interval) && 0 < interval < MAX_DELAY && c.Ask? && SafeRequest(s, c, interval)
    ensures Harmless(StepCall(s, c, interval), interval)
  {
    var r := NextRequest(s, c.profile, c.lifetime, c.size);
    assert Empty(DropExpired(s)) <==> Empty(Cleared(s, r));
    hide StepCall, DropExpired, FirstBusy, Spaced, Immediate;
    if Empty(s) {
      AskWhenEmpty(s, c, interval);
    } else if !Empty(DropExpired(s)) {
      AskWhenQueued(s, c, interval);
    } else if Immediate(s, r, interval) {
      AskIdles(s, c, interval);
    } else {
      ExpiryDoublesTrigger(s, c, interval);
    }
  }

  lemma UnsafeLosesSpacing(s: State, c: Call, interval: int)
    requires Paced(s, interval) && 0 < interval < MAX_DELAY && c.Ask? && !SafeRequest(s, c, interval)
    ensures !StaysSpaced(StepCall(s, c, interval), interval)
  {
    var q := StepCall(s, c, interval);
    if Empty(DropExpired(s)) {
      ExpiryDoublesTrigger(s, c, interval);
      DoubledLosesSpacing(q, interval);
    } else {
      AddCall(q, [], Due, interval);
      RequestBeforeDueTrigger(s, c, interval);
      assert [] + [Due] == [Due];
      assert AllCalm(q, [Due], interval);
    }
  }

  /**
   * While the pace is kept, a request preserves the spacing of all transmissions in every calm continuation if
   * and only if one of these holds: nothing is queued; everything queued has expired, and the request is
   * transmitted at once or has expired itself; or something queued has not expired, and the request is queued.
   */
  lemma RequestSpacedIff(s: State, c: Call, interval: int)
    requires Paced(s, interval) && 0 < interval < MAX_DELAY && c.Ask?
    ensures StaysSpaced(StepCall(s, c, interval), interval) <==> SafeRequest(s, c, interval)
  {
    assert Shaped(s);
    hide StaysSpaced, SafeRequest, StepCall, Paced, Harmless;
    if SafeRequest(s, c, interval) {
      SafeIsHarmless(s, c, interval);
      HarmlessStaysSpaced(StepCall(s, c, interval), interval);
    } else {
      UnsafeLosesSpacing(s, c, interval);
    }
  }

  // ---------------------------------------------------------------------
  // Both kinds of unsafe requests in runs from the start
  // ---------------------------------------------------------------------

  /** Nothing has ever happened. */
  ghost predicate Fresh(s: State) {
    Shaped(s) && Empty(s) && s.wakes == [] && s.sent == []
  }

  /** One transmission, nothing queued. */
  ghost predicate FirstOut(s: State, at: int) {
    Shaped(s) && Empty(s) && s.wakes == [] && LastTx(s) == Some(at) && s.now == at
  }

  /** A single packet is queued, with this rank and expiry, since a transmission at this time. */
  ghost predicate OneQueued(s: State, at: int, rank: nat, expiry: int, interval: int) {
    && Shaped(s) && s.wakes == [at + interval] && LastTx(s) == Some(at)
    && (forall k :: 0 <= k < RANKS && k != rank ==> s.queues[k] == [])
    && rank < RANKS && |s.queues[rank]| == 1 && s.queues[rank][0].expiry == expiry
  }

  lemma TwoCalls(s: State, a: Call, b: Call, interval: int)
    requires Shaped(s)
    ensures RunCalls(s, [a, b], interval) == StepCall(StepCall(s, a, interval), b, interval)
    ensures var q := StepCall(s, a, interval);
      Possible(s, a) && Calm(s, a) && Possible(q, b) && Calm(q, b) ==> AllCalm(s, [a, b], interval)
  {
    assert AllCalm(s, [], interval) && RunCalls(s, [], interval) == s;
    hide AllCalm, RunCalls, StepCall, Possible, Calm;
    AddCall(s, [], a, interval);
    assert [] + [a] == [a];
    AddCall(s, [a], b, interval);
    assert [a] + [b] == [a, b];
  }

  /** Two requests at the start: the first one is transmitted, the second one is queued. */
  lemma Opening(s: State, a: Call, b: Call, interval: int)
    requires 0 < interval < MAX_DELAY && Fresh(s) && a.Ask? && b.Ask?
    ensures var r := RunCalls(s, [a, b], interval);
      && AllCalm(s, [a, b], interval) && r.now == s.now
      && OneQueued(r, s.now, Rank(b.profile), s.now + b.lifetime, interval)
  {
    FirstTransmitted(s, a, interval);
    SecondQueued(StepCall(s, a, interval), b, interval);
    assert Possible(s, a) && Calm(s, a);
    hide AllCalm, RunCalls, StepCall, FirstBusy, DropExpired, OneQueued;
    TwoCalls(s, a, b, interval);
  }

  lemma FirstTransmitted(s: State, c: Call, interval: int)
    requires 0 < interval < MAX_DELAY && Fresh(s) && c.Ask?
    ensures FirstOut(StepCall(s, c, interval), s.now)
  {
    AskForm(s, c, interval);
    EmptyStaysEmpty(s.queues, s.now);
    AllAliveShape(s.queues, s.now);
    hide StepCall, AllAlive, AllDead, FirstBusy;
  }

  lemma SecondQueued(s: State, c: Call, interval: int)
    requires 0 < interval < MAX_DELAY && FirstOut(s, s.now) && c.Ask?
    ensures var r := StepCall(s, c, interval);
      r.now == s.now && OneQueued(r, s.now, Rank(c.profile), s.now + c.lifetime, interval)
  {
    AskForm(s, c, interval);
    EmptyStaysEmpty(s.queues, s.now);
    AllAliveShape(s.queues, s.now);
    var r := NextRequest(s, c.profile, c.lifetime, c.size);
    PushFirst(Cleared(s, r), r);
    hide StepCall, AllAlive, AllDead, FirstBusy, Push;
  }

  lemma PushFirst(t: State, r: Request)
    requires Shaped(t) && Empty(t)
    ensures var q := Push(t, r);
      && q.now == t.now && q.wakes == t.wakes && q.sent == t.sent && Shaped(q)
      && (forall k :: 0 <= k < RANKS && k != Rank(r.profile) ==> q.queues[k] == [])
      && q.queues[Rank(r.profile)] == [Pending(t.now + r.lifetime, r)]
  {
  }

  /** Time passes after the opening. */
  lemma Prologue(s: State, a: Call, b: Call, to: int, interval: int)
    requires 0 < interval < MAX_DELAY && Fresh(s) && a.Ask? && b.Ask? && s.now <= to
    ensures var r := RunCalls(s, [a, b, Pass(to)], interval);
      && AllCalm(s, [a, b, Pass(to)], interval) && r.now == to
      && OneQueued(r, s.now, Rank(b.profile), s.now + b.lifetime, interval)
  {
    assert Shaped(s);
    hide AllCalm, RunCalls, StepCall, Fresh, FirstBusy;
    Opening(s, a, b, interval);
    PassIs(RunCalls(s, [a, b], interval), to, interval);
    AddCall(s, [a, b], Pass(to), interval);
    assert [a, b] + [Pass(to)] == [a, b, Pass(to)];
  }

  lemma Around(s: State, calls: seq<Call>, c: Call, rest: seq<Call>, interval: int)
    requires Shaped(s)
    ensures RunCalls(s, calls + [c] + rest, interval) ==
            RunCalls(StepCall(RunCalls(s, calls, interval), c, interval), rest, interval)
  {
    hide RunCalls, StepCall;
    AddCall(s, calls, c, interval);
    ConcatCalls(s, calls + [c], rest, interval);
  }

  /** The only queued packet has not expired, and a request of higher priority comes before the due trigger. */
  lemma OneAlive(s: State, at: int, rank: nat, expiry: int, c: Call, interval: int)
    requires Paced(s, interval) && 0 < interval < MAX_DELAY && c.Ask? && Rank(c.profile) < rank
    requires OneQueued(s, at, rank, expiry, interval) && at + interval <= s.now <= expiry
    ensures !SafeRequest(s, c, interval)
    ensures var q := StepCall(s, c, interval);
      Possible(q, Due) && !Spaced(StepCall(q, Due, interval).sent, interval)
  {
    AllAliveShape(s.queues, s.now);
    assert Alive(s.queues[rank], s.now) == s.queues[rank];
    AskForm(s, c, interval);
    hide AllAlive, AllDead, Spaced, StepCall;
    RequestBeforeDueTrigger(s, c, interval);
  }

  /**
   * A run from the start in which a request comes first when the budget opens, and then the trigger of a packet of
   * lower priority that has been waiting for this instant: two transmissions at once. Only the third request is
   * not calm.
   */
  lemma RequestFirstFromStart(s: State, limit: nat, a: Call, b: Call, c: Call, to: int, interval: int)
    requires 0 < interval < MAX_DELAY && s == Init(limit, s.now) && a.Ask? && b.Ask? && c.Ask?
    requires s.now + interval <= to <= s.now + b.lifetime && Rank(c.profile) < Rank(b.profile)
    ensures var calls := [a, b, Pass(to)];
      && AllCalm(s, calls, interval) && !SafeRequest(RunCalls(s, calls, interval), c, interval)
      && Possible(StepCall(RunCalls(s, calls, interval), c, interval), Due)
      && !Spaced(RunCalls(s, calls + [c] + [Due], interval).sent, interval)
  {
    var calls := [a, b, Pass(to)];
    assert Fresh(s) && calls != [];
    hide RunCalls, AllCalm, StepCall, Paced, Spaced, FirstBusy, SafeRequest, OneQueued, Fresh, DropExpired;
    Prologue(s, a, b, to, interval);
    RunSpaced(limit, s.now, calls, interval);
    var r := RunCalls(s, calls, interval);
    OneAlive(r, s.now, Rank(b.profile), s.now + b.lifetime, c, interval);
    AddCall(s, calls, c, interval);
    AddCall(s, calls + [c], Due, interval);
  }

  /** The only queued packet has expired while the budget is closed. */
  lemma OneLapsed(s: State, at: int, rank: nat, expiry: int, c: Call, interval: int)
    requires OneQueued(s, at, rank, expiry, interval) && expiry < s.now && at <= s.now < at + interval
    requires c.Ask? && c.lifetime >= 0
    ensures !Empty(s) && Empty(DropExpired(s)) && !SafeRequest(s, c, interval)
  {
    AllAliveShape(s.queues, s.now);
    assert Alive(s.queues[rank], s.now) == [];
    assert forall k :: 0 <= k < RANKS ==> AllAlive(s.queues, s.now)[k] == [];
    hide AllAlive, AllDead;
  }

  lemma AfterLapse(s: State, at: int, rank: nat, expiry: int, c: Call, interval: int)
    requires Paced(s, interval) && 0 < interval < MAX_DELAY && c.Ask? && c.lifetime >= 0
    requires OneQueued(s, at, rank, expiry, interval) && expiry < s.now && at <= s.now < at + interval
    ensures var q := StepCall(s, c, interval);
      && q.sent != [] && AllCalm(q, Overload(q, interval), interval)
      && !Spaced(RunCalls(q, Overload(q, interval), interval).sent, interval)
  {
    hide RunCalls, AllCalm, StepCall, Step, DropExpired, FirstBusy, Paced, Spaced, SafeRequest, Overload;
    OneLapsed(s, at, rank, expiry, c, interval);
    assert !Immediate(s, NextRequest(s, c.profile, c.lifetime, c.size), interval);
    ExpiryDoublesTrigger(s, c, interval);
    DoubledLosesSpacing(StepCall(s, c, interval), interval);
  }

  /**
   * A run from the start in which the only queued packet expires while the budget is closed, and the next request
   * finds it: a second trigger is scheduled, and two of the packets that are requested afterwards are transmitted
   * at the same instant. Only the third request is not calm.
   */
  lemma ExpiryFromStart(s: State, limit: nat, a: Call, b: Call, c: Call, to: int, interval: int)
    requires 0 < interval < MAX_DELAY && s == Init(limit, s.now) && a.Ask? && b.Ask? && c.Ask?
    requires s.now <= to < s.now + interval && s.now + b.lifetime < to && c.lifetime >= 0
    ensures var calls := [a, b, Pass(to)];
      var r := RunCalls(s, calls, interval);
      var q := StepCall(r, c, interval);
      && AllCalm(s, calls, interval) && !SafeRequest(r, c, interval)
      && q.sent != [] && AllCalm(q, Overload(q, interval), interval)
      && !Spaced(RunCalls(s, calls + [c] + Overload(q, interval), interval).sent, interval)
  {
    var calls := [a, b, Pass(to)];
    assert Fresh(s) && calls != [];
    hide RunCalls, AllCalm, StepCall, Paced, Spaced, FirstBusy, SafeRequest, OneQueued, Fresh, Overload, DropExpired;
    Prologue(s, a, b, to, interval);
    RunSpaced(limit, s.now, calls, interval);
    var r := RunCalls(s, calls, interval);
    OneLapsed(r, s.now, Rank(b.profile), s.now + b.lifetime, c, interval);
    AfterLapse(r, s.now, Rank(b.profile), s.now + b.lifetime, c, interval);
    Around(s, calls, c, Overload(StepCall(r, c, interval), interval), interval);
  }
}
