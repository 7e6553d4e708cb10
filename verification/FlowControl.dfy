/**
 * FlowControl as an object, operating on a ManualRuntime. Each method is proved to perform the corresponding
 * operation of the transition system. The rate control is represented by the delays it answers with.
 */
module FlowControl {
  import opened Runtime
  import opened FlowModel
  import opened FlowRuns

  /** Identifies the callback that runs a trigger. */
  const TRIGGER: nat := 3

  lemma {:induction false} DeadlinesAfter(q: seq<Event>, scope: nat, t: int)
    requires Sorted(q) && (q != [] ==> t < q[0].deadline)
    ensures Deadlines(q, scope) != [] ==> t < Deadlines(q, scope)[0]
  {
    if q != [] && q[0].scope != scope {
      DeadlinesAfter(q[1..], scope, t);
    }
  }

  /** The runtime's queue orders the pending triggers like the model does. */
  lemma {:induction false} InsertDeadlines(q: seq<Event>, e: Event)
    requires Sorted(q)
    ensures Deadlines(Insert(q, e), e.scope) == InsertTime(Deadlines(q, e.scope), e.deadline)
  {
    if q == [] || e.deadline < q[0].deadline {
      DeadlinesAfter(q, e.scope, e.deadline);
      assert ([e] + q)[1..] == q;
    } else {
      InsertDeadlines(q[1..], e);
      var later := Deadlines(q[1..], e.scope);
      assert Insert(q, e)[1..] == Insert(q[1..], e) && Insert(q, e)[0] == q[0];
      if q[0].scope == e.scope {
        assert Deadlines(q, e.scope) == [q[0].deadline] + later;
        assert Deadlines(q, e.scope)[1..] == later;
      } else {
        assert Deadlines(q, e.scope) == later;
        assert Deadlines(Insert(q, e), e.scope) == Deadlines(Insert(q[1..], e), e.scope);
      }
    }
  }

  class Gatekeeper {
    const runtime: ManualRuntime
    const scope: nat
    var queues: seq<seq<Pending>>
    var limit: nat
    /** Packets passed to the access layer. */
    var sent: seq<Sent>
    /** Packets that the drop hook has been told about. */
    var reported: seq<Request>

    ghost var requests: seq<Request>
    ghost var expired: seq<Request>
    ghost var evicted: seq<Request>

    ghost function View(): State
      reads this, runtime
    {
      State(queues, limit, runtime.now, Deadlines(runtime.queue, scope), requests, sent, expired, evicted, reported)
    }

    ghost predicate Valid()
      reads this, runtime
    {
      runtime.Valid() && scope != 0 && |queues| == RANKS
    }

    constructor (runtime: ManualRuntime, scope: nat)
      requires runtime.Valid() && scope != 0 && Deadlines(runtime.queue, scope) == []
      ensures Valid() && this.runtime == runtime && this.scope == scope
      ensures View() == Init(0, runtime.now)
    {
      this.runtime, this.scope := runtime, scope;
      queues, limit, sent, reported := [[], [], [], []], 0, [], [];
      requests, expired, evicted := [], [], [];
    }

    /** Remove the expired packets of one queue. */
    static method RemoveExpired(q: seq<Pending>, now: int) returns (alive: seq<Pending>, dead: seq<Request>)
      ensures alive == Alive(q, now) && dead == Dead(q, now)
    {
      alive, dead := [], [];
      for i := 0 to |q|
        invariant alive + Alive(q[i..], now) == Alive(q, now)
        invariant dead + Dead(q[i..], now) == Dead(q, now)
      {
        assert q[i..][0] == q[i] && q[i..][1..] == q[i + 1..];
        if q[i].expiry < now {
          dead := dead + [q[i].request];
        } else {
          alive := alive + [q[i]];
        }
      }
    }

    /** Remove the expired packets of all queues, one queue after the other. */
    static method RemoveAllExpired(queues: seq<seq<Pending>>, now: int)
      returns (alive: seq<seq<Pending>>, dead: seq<Request>)
      ensures alive == AllAlive(queues, now) && dead == AllDead(queues, now)
    {
      hide Alive, Dead;
      alive, dead := [], [];
      for i := 0 to |queues|
        invariant alive + AllAlive(queues[i..], now) == AllAlive(queues, now)
        invariant dead + AllDead(queues[i..], now) == AllDead(queues, now)
      {
        assert queues[i..][0] == queues[i] && queues[i..][1..] == queues[i + 1..];
        var a, d := RemoveExpired(queues[i], now);
        alive, dead := alive + [a], dead + d;
      }
    }

    method DropExpiredPackets()
      requires Valid()
      modifies this
      ensures Valid() && View() == DropExpired(old(View()))
    {
      AllAliveShape(queues, runtime.now);
      hide AllAlive, AllDead, Deadlines;
      var alive, dead := RemoveAllExpired(queues, runtime.now);
      queues, reported := alive, reported + dead;
      expired := expired + dead;
    }

    /** A packet need not be queued if nothing of its priority or above waits and the budget is open. */
    method TransmitImmediately(r: Request, d: Delays) returns (immediately: bool)
      requires Valid()
      ensures immediately == (!Contention(View(), Rank(r.profile)) && d(r) == 0)
    {
      var contention := false;
      var i := 0;
      while i <= Rank(r.profile) && !contention
        invariant i <= Rank(r.profile) + 1
        invariant !contention ==> forall j :: 0 <= j < i ==> queues[j] == []
        invariant contention ==> exists j :: 0 <= j <= Rank(r.profile) && queues[j] != []
        decreases Rank(r.profile) + 1 - i, !contention
      {
        if queues[i] != [] {
          contention := true;
        } else {
          i := i + 1;
        }
      }
      immediately := !contention && d(r) == 0;
    }

    method IsEmpty() returns (empty: bool)
      requires Valid()
      ensures empty == Empty(View())
    {
      empty := forall i :: 0 <= i < RANKS ==> queues[i] == [];
    }

    /** Queue whose front may be transmitted first; higher priorities are looked at first. */
    method FindNext(d: Delays) returns (next: Option<nat>)
      requires Valid()
      ensures next == NextQueue(queues, d)
    {
      next := None;
      var minDelay := MAX_DELAY;
      for i := 0 to RANKS
        invariant next == NextAmong(queues, d, i)
        invariant next.Some? ==> next.value < i && queues[next.value] != []
        invariant next.Some? ==> minDelay == d(queues[next.value][0].request)
        invariant next.None? ==> minDelay == MAX_DELAY
      {
        if queues[i] != [] {
          var delay := d(queues[i][0].request);
          if delay < minDelay {
            minDelay, next := delay, Some(i);
          }
        }
      }
    }

    method ScheduleTriggerIn(delay: int)
      requires Valid()
      modifies runtime`queue
      ensures Valid() && View() == ScheduleTrigger(old(View()), delay)
      ensures Foreign(runtime.queue, scope) == old(Foreign(runtime.queue, scope))
    {
      hide Deadlines, Foreign, Insert, InsertTime;
      InsertForeign(runtime.queue, Event(runtime.now + delay, TRIGGER, scope), scope);
      InsertDeadlines(runtime.queue, Event(runtime.now + delay, TRIGGER, scope));
      runtime.ScheduleAt(runtime.now + delay, TRIGGER, scope);
    }

    /** Make room in a queue; the hook is told about the arriving packet. */
    method EvictFor(r: Request)
      requires Valid()
      modifies this
      ensures Valid()
      ensures var k := Rank(r.profile);
        var n := Excess(old(limit), |old(queues)[k]|);
        View() == old(View()).(queues := old(queues)[k := old(queues)[k][n..]],
                               evicted := old(evicted) + Fronts(old(queues)[k], n),
                               reported := old(reported) + seq(n, _ => r))
    {
      hide Deadlines;
      var k := Rank(r.profile);
      ghost var q := queues[k];
      ghost var m := 0;
      while limit > 0 && |queues[k]| >= limit
        invariant |queues| == RANKS && m <= Excess(limit, |q|) && queues == old(queues)[k := q[m..]]
        invariant evicted == old(evicted) + Fronts(q, m)
        invariant reported == old(reported) + seq(m, _ => r)
        invariant limit == old(limit) && sent == old(sent) && requests == old(requests) && expired == old(expired)
        decreases |queues[k]|
      {
        FrontsNext(q, m);
        evicted := evicted + [queues[k][0].request];
        queues := queues[k := queues[k][1..]];
        reported := reported + [r];
        m := m + 1;
        assert seq(m, _ => r) == seq(m - 1, _ => r) + [r];
      }
    }

    method EnqueuePacket(r: Request, d: Delays)
      requires Valid()
      modifies this, runtime`queue
      ensures Valid() && View() == Enqueue(old(View()), r, d)
    {
      hide Deadlines, Fronts, FirstBusy, InsertTime;
      var first := IsEmpty();
      EvictFor(r);
      var k := Rank(r.profile);
      queues := queues[k := queues[k] + [Pending(runtime.now + r.lifetime, r)]];
      if first {
        ScheduleTriggerIn(d(r));
      }
    }

    method RequestPacket(r: Request, d: Delays)
      requires Valid()
      modifies this, runtime`queue
      ensures Valid() && View() == Arrive(old(View()), r, d)
    {
      assert DropExpired(View()).requests == requests;
      hide Deadlines, DropExpired, Enqueue, FirstBusy;
      DropExpiredPackets();
      requests := requests + [r];
      var immediately := TransmitImmediately(r, d);
      if immediately {
        sent := sent + [Sent(r, runtime.now, None)];
      } else {
        EnqueuePacket(r, d);
      }
    }

    method DequeuePacket(d: Delays)
      requires Valid()
      modifies this
      ensures Valid() && View() == Dequeue(old(View()), d)
    {
      hide Deadlines, NextQueue;
      var next := FindNext(d);
      if next.Some? {
        var front := queues[next.value][0];
        queues := queues[next.value := queues[next.value][1..]];
        sent := sent + [Sent(front.request, runtime.now, Some(front.expiry))];
      }
    }

    method ScheduleNextTrigger(d: Delays)
      requires Valid()
      modifies runtime`queue
      ensures Valid() && View() == ScheduleNext(old(View()), d)
      ensures NextQueue(queues, d).None? ==> runtime.queue == old(runtime.queue)
      ensures Foreign(runtime.queue, scope) == old(Foreign(runtime.queue, scope))
    {
      hide NextQueue;
      var next := FindNext(d);
      if next.Some? {
        ScheduleTriggerIn(d(queues[next.value][0].request));
      }
    }

    /** Callback of the runtime. */
    method OnTrigger(before: Delays, after: Delays)
      requires Valid()
      modifies this, runtime`queue
      ensures Valid() && View() == Trigger(old(View()), before, after)
      ensures Total(old(queues)) == 0 ==> runtime.queue == old(runtime.queue)
      ensures Foreign(runtime.queue, scope) == old(Foreign(runtime.queue, scope))
    {
      TotalZero(queues);
      if Empty(View()) {
        TriggerOnEmpty(View(), before, after);
      }
      hide Deadlines, DropExpired, Dequeue, ScheduleNext;
      DropExpiredPackets();
      DequeuePacket(before);
      ScheduleNextTrigger(after);
    }

    method RescheduleTrigger(d: Delays)
      requires Valid()
      modifies runtime`queue
      ensures Valid() && View() == Reschedule(old(View()), d)
    {
      hide NextQueue, ScheduleNext;
      var next := FindNext(d);
      if next.Some? {
        EraseScope(runtime.queue, scope);
        runtime.CancelScope(scope);
        ScheduleNextTrigger(d);
      }
    }

    method SetQueueLength(length: nat)
      requires Valid()
      modifies `limit
      ensures Valid() && View() == old(View()).(limit := length)
    {
      limit := length;
    }
  }

  lemma {:induction false} FrontsNext(q: seq<Pending>, m: nat)
    requires m < |q|
    ensures Fronts(q, m + 1) == Fronts(q, m) + [q[m].request]
  {
    if m > 0 {
      FrontsNext(q[1..], m - 1);
    }
  }

  // ---------------------------------------------------------------------
  // The event loop with a gatekeeper on it
  // ---------------------------------------------------------------------

  /** Answers of the rate control before and after the transmission of each firing. */
  type Answers = nat -> (Delays, Delays)

  ghost predicate AllFinite(rates: Answers) {
    forall n: nat :: Finite(rates(n).0) && Finite(rates(n).1)
  }

  /** These firings lead from one state to another one. */
  ghost predicate Fired(s: State, ops: seq<Op>, r: State) {
    Shaped(s) && Draining(s, ops) && (forall i :: 0 <= i < |ops| ==> ops[i].Fire?) && r == Run(s, ops)
  }

  lemma NoneFired(s: State)
    requires Shaped(s)
    ensures Fired(s, [], s)
  {
  }

  lemma FireIs(s: State, before: Delays, after: Delays)
    requires Shaped(s) && s.wakes != []
    ensures Step(s, Op.Fire(before, after)) == Trigger(s.(wakes := s.wakes[1..]), before, after)
  {
    hide Trigger;
  }

  lemma FiredMore(s: State, ops: seq<Op>, r: State, before: Delays, after: Delays)
    requires Fired(s, ops, r) && r.wakes != [] && r.wakes[0] <= r.now && Finite(before) && Finite(after)
    ensures Fired(s, ops + [Op.Fire(before, after)], Trigger(r.(wakes := r.wakes[1..]), before, after))
    ensures var q := Trigger(r.(wakes := r.wakes[1..]), before, after).queues;
      Total(q) <= if Total(r.queues) > 0 then Total(r.queues) - 1 else 0
  {
    hide Trigger, Finite, Total, Step, FirstBusy;
    var op := Op.Fire(before, after);
    var all := ops + [op];
    assert all[..|all| - 1] == ops && all[|all| - 1] == op;
    FireIs(r, before, after);
    TriggerProgress(r.(wakes := r.wakes[1..]), before, after);
  }

  /**
   * ManualRuntime::trigger with a gatekeeper on it: the clock advances and all due callbacks run, those of other
   * objects as well. These may do anything but use the scope of the gatekeeper, and their loop has to end at all.
   * The whole loop ends although triggers may schedule others for the same instant, and leaves nothing due. No more
   * triggers fire than packets were queued and triggers were pending, and the other objects run as if alone.
   */
  method TriggerTo<W(!new)>(gatekeeper: Gatekeeper, tp: int, rates: Answers,
                            others: Behaviour<W>, world: W, ghost rounds: nat)
    returns (world': W, ghost n: nat, ghost fires: seq<Op>)
    requires gatekeeper.Valid() && gatekeeper.runtime.now <= tp && AllFinite(rates)
    requires AllApart(others, gatekeeper.scope, tp)
    requires !Due(Iterate(others, Start(tp, Foreign(gatekeeper.runtime.queue, gatekeeper.scope), world), rounds))
    modifies gatekeeper, gatekeeper.runtime
    ensures gatekeeper.Valid() && gatekeeper.runtime.now == tp
    ensures Fired(old(gatekeeper.View()).(now := tp), fires, gatekeeper.View())
    ensures |fires| <= old(Workload(gatekeeper.View()))
    ensures forall e :: e in gatekeeper.runtime.queue ==> tp < e.deadline
    ensures var alone := Iterate(others, Start(tp, old(Foreign(gatekeeper.runtime.queue, gatekeeper.scope)), world), n);
      Alongside(gatekeeper.runtime.queue, gatekeeper.scope, world', alone) && n <= rounds
  {
    hide Fired, Deadlines, CountDue, Trigger, Total, Finite, Iterate, Runtime.Fire, Foreign, AllApart;
    var rt := gatekeeper.runtime;
    rt.now := tp;
    ghost var first := gatekeeper.View();
    NoneFired(first);
    fires := [];
    var k := 0;
    world', n := world, 0;
    ghost var start := Start(tp, Foreign(rt.queue, gatekeeper.scope), world);
    ghost var alone := start;
    NotYet(others, start);
    while rt.queue != [] && rt.queue[0].deadline <= rt.now
      invariant gatekeeper.Valid() && rt.now == tp && Fired(first, fires, gatekeeper.View()) && n <= rounds
      invariant alone == Iterate(others, start, n) && alone.now == tp
      invariant Alongside(rt.queue, gatekeeper.scope, world', alone)
      decreases rounds - n, Total(gatekeeper.queues), CountDue(rt.queue, tp)
    {
      ghost var s := gatekeeper.View();
      if rt.queue[0].scope == gatekeeper.scope {
        PopDeadlines(rt.queue, gatekeeper.scope);
        PopForeign(rt.queue, gatekeeper.scope);
        PopCount(rt.queue, tp);
        rt.queue := rt.queue[1..];
        var answers := rates(k);
        FiredMore(first, fires, s, answers.0, answers.1);
        gatekeeper.OnTrigger(answers.0, answers.1);
        fires, k := fires + [Op.Fire(answers.0, answers.1)], k + 1;
      } else {
        world' := FireOther(rt, others, world', gatekeeper.scope, alone);
        alone, n := Successor(others, start, alone, n), n + 1;
        assert gatekeeper.View() == s;
      }
    }
    NoneDue(rt.queue, tp);
    FiringBounded(first, fires, gatekeeper.View());
  }

  lemma FiringBounded(s: State, ops: seq<Op>, r: State)
    requires Fired(s, ops, r)
    ensures |ops| <= Workload(s)
  {
    FiringEnds(s, ops);
  }
}
