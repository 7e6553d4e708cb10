/**
 * CbfPacketBuffer: the contention based forwarding buffer as an object, operating on a ManualRuntime.
 * Each method is proved to perform the corresponding operation of the transition system.
 */
module CbfPacketBuffer {
  import opened Sequences
  import opened Lifetimes
  import opened Runtime
  import opened CbfModel
  import opened CbfRuns

  /** Identifies the callback that flushes the buffer. */
  const FLUSH: nat := 2

  /** Packet that the iterator stored beside a timer refers to. */
  function PacketOf(packets: seq<Packet>, id: Id): Option<Packet> {
    if packets == [] then None
    else if packets[0].id == id then Some(packets[0])
    else PacketOf(packets[1..], id)
  }

  lemma {:induction false} PacketOfIsById(packets: seq<Packet>, p: Packet)
    requires p in packets && forall q :: q in packets && q.id == p.id ==> q == p
    ensures PacketOf(packets, p.id) == Some(p)
  {
    if packets[0].id != p.id {
      PacketOfIsById(packets[1..], p);
    }
  }

  lemma LookUp(s: State, id: Id)
    requires Consistent(s) && id in s.right
    ensures Buffered(s, id) && PacketOf(s.packets, id) == Some(s.byId[id])
  {
    KeyOfPacket(s, id);
    PacketOfIsById(s.packets, s.byId[id]);
  }

  function PacketsOf(out: seq<Out>): seq<Packet> {
    seq(|out|, i requires 0 <= i < |out| => out[i].packet)
  }

  class Buffer {
    const runtime: ManualRuntime
    const scope: nat
    const capacity: nat
    const kind: CounterKind
    var packets: seq<Packet>
    var left: seq<Slot>
    var right: map<Id, Slot>
    var nodes: nat
    var stored: int
    var counters: map<Id, nat>
    /** Packets that have been passed to the timer callback. */
    var delivered: seq<Packet>

    ghost var byId: map<Id, Packet>
    ghost var history: map<Id, History>
    ghost var out: seq<Out>

    ghost function View(): State
      reads this, runtime
    {
      State(capacity, kind, packets, byId, left, right, nodes, stored, counters,
            runtime.now, Deadlines(runtime.queue, scope), history, out)
    }

    ghost predicate Valid()
      reads this, runtime
    {
      && runtime.Valid()
      && scope != 0
      && Consistent(View())
      && delivered == PacketsOf(out)
    }

    constructor (runtime: ManualRuntime, scope: nat, kind: CounterKind, capacity: nat)
      requires runtime.Valid() && scope != 0 && Deadlines(runtime.queue, scope) == []
      ensures Valid() && this.runtime == runtime && this.scope == scope
      ensures View() == Init(capacity, kind, runtime.now)
    {
      this.runtime, this.scope, this.kind, this.capacity := runtime, scope, kind, capacity;
      packets, left, right, nodes, stored, counters, delivered := [], [], map[], 0, 0, map[], [];
      byId, history, out := map[], map[], [];
    }

    /** Cancel the pending wake-up and schedule one for the first timer. */
    method ScheduleTimer()
      requires runtime.Valid() && scope != 0 && left != []
      modifies runtime`queue
      ensures runtime.Valid()
      ensures View() == Rearm(old(View()))
      ensures Foreign(runtime.queue, scope) == old(Foreign(runtime.queue, scope))
      ensures runtime.now < left[0].expiry ==>
                CountDue(runtime.queue, runtime.now) <= old(CountDue(runtime.queue, runtime.now))
    {
      CountErase(runtime.queue, scope, runtime.now);
      if runtime.now < left[0].expiry {
        CountInsert(Erase(runtime.queue, scope), Event(left[0].expiry, FLUSH, scope), runtime.now);
      }
      EraseScope(runtime.queue, scope);
      runtime.CancelScope(scope);
      InsertScope(runtime.queue, Event(left[0].expiry, FLUSH, scope));
      runtime.ScheduleAt(left[0].expiry, FLUSH, scope);
    }

    /** Erase a timer and reschedule if it was the first one. */
    method RemoveTimer(id: Id)
      requires runtime.Valid() && scope != 0 && id in right && left != []
      modifies runtime`queue, `left, `right
      ensures runtime.Valid()
      ensures left == Without(old(left), old(right)[id]) && right == old(right) - {id}
      ensures Deadlines(runtime.queue, scope) ==
              if old(left)[0] == old(right)[id] && left != [] then [left[0].expiry]
              else old(Deadlines(runtime.queue, scope))
      ensures Foreign(runtime.queue, scope) == old(Foreign(runtime.queue, scope))
    {
      var timer := right[id];
      var first := left[0] == timer;
      left, right := Without(left, timer), right - {id};
      if first && left != [] {
        ScheduleTimer();
      }
    }

    /** A packet leaves together with its counter and timer. */
    method Drop(id: Id, packet: Packet)
      requires runtime.Valid() && scope != 0 && Buffered(View(), id) && left != [] && packet == byId[id]
      modifies this, runtime`queue
      ensures runtime.Valid() && delivered == old(delivered) && out == old(out)
      ensures View() == DiscardAndRearm(old(View()), id)
      ensures Foreign(runtime.queue, scope) == old(Foreign(runtime.queue, scope))
    {
      hide Without, CounterRemove, Deadlines, Foreign;
      stored := stored - packet.length;
      counters := CounterRemove(kind, counters, id);
      packets := Without(packets, packet);
      byId, history := byId - {id}, history - {id};
      RemoveTimer(id);
    }

    method RemovePacket(id: Id) returns (dropped: bool)
      requires Valid()
      modifies this, runtime`queue
      ensures Valid() && dropped == (id in old(right)) && delivered == old(delivered)
      ensures View() == Remove(old(View()), id)
      ensures Foreign(runtime.queue, scope) == old(Foreign(runtime.queue, scope))
    {
      dropped := id in right;
      hide Consistent, DiscardAndRearm;
      RemoveConsistent(View(), id);
      Known(View(), id);
      if dropped {
        var packet := PacketOf(packets, id).value;
        Drop(id, packet);
      }
    }

    method FetchPacket(id: Id) returns (packet: Option<Packet>)
      requires Valid()
      modifies this, runtime`queue
      ensures Valid() && delivered == old(delivered)
      ensures View() == Fetch(old(View()), id) && packet == FetchResult(old(View()), id)
      ensures Foreign(runtime.queue, scope) == old(Foreign(runtime.queue, scope))
    {
      packet := None;
      hide Consistent, DiscardAndRearm, Reduce;
      RemoveConsistent(View(), id);
      Known(View(), id);
      if id in right {
        var found := PacketOf(packets, id).value;
        var (lifetime, remaining) := Reduce(found.lifetime, runtime.now - right[id].start);
        if remaining > 0 {
          packet := Some(found.(lifetime := lifetime));
        }
        Drop(id, found);
      }
    }

    /** Exchange a packet and its timer in place and count one more arrival. */
    method Exchange(found: Packet, reduced: Packet, restarted: Slot, ghost h: History)
      requires Buffered(View(), reduced.id) && found == byId[reduced.id]
      modifies this
      ensures View() == Replace(old(View()), reduced, restarted, h)
      ensures delivered == old(delivered) && out == old(out)
    {
      hide Relocate, Substitute, Increment, Deadlines;
      packets := Substitute(packets, found, reduced);
      left, right := Relocate(left, right[reduced.id], restarted), right[reduced.id := restarted];
      counters := Increment(counters, reduced.id);
      byId, history := byId[reduced.id := reduced], history[reduced.id := h];
    }

    method UpdatePacket(id: Id, timeout: int)
      requires Valid()
      modifies this
      ensures Valid() && delivered == old(delivered)
      ensures View() == Update(old(View()), id, timeout)
    {
      hide Consistent, Reduce, Replace, UpdatedHistory, PacketsOf, Deadlines;
      UpdateConsistent(View(), id, timeout);
      Known(View(), id);
      if id in right {
        var found := PacketOf(packets, id).value;
        var reduced := found.(lifetime := Reduce(found.lifetime, runtime.now - right[id].start).0);
        var restarted := Slot(id, runtime.now + timeout, runtime.now, right[id].node);
        Exchange(found, reduced, restarted, UpdatedHistory(View(), id));
      }
    }

    /** State while the length of a packet to be added is counted already. */
    ghost function Before(extra: nat): State
      reads this, runtime
    {
      View().(stored := stored - extra)
    }

    /** Drop the first packet of the list. */
    method DropOldest(ghost extra: nat)
      requires Consistent(Before(extra)) && packets != []
      modifies this
      ensures delivered == old(delivered) && out == old(out)
      ensures old(Buffered(Before(extra), packets[0].id))
      ensures Before(extra) == Discard(old(Before(extra)), old(packets[0].id))
    {
      hide Consistent, Without, CounterRemove, Deadlines;
      DropFirst(Before(extra));
      stored := stored - packets[0].length;
      var id := packets[0].id;
      left, right := Without(left, right[id]), right - {id};
      counters := CounterRemove(kind, counters, id);
      packets := packets[1..];
      byId, history := byId - {id}, history - {id};
    }

    /** Do head drop while the stored bytes exceed the capacity. */
    method DropWhileFull(ghost extra: nat)
      requires Consistent(Before(extra))
      modifies this
      ensures delivered == old(delivered) && out == old(out)
      ensures Consistent(Before(extra)) && Before(extra) == HeadDrop(old(Before(extra)), extra)
    {
      hide Consistent, Discard, HeadDrop;
      while stored > capacity && packets != []
        invariant delivered == old(delivered) && out == old(out)
        invariant Consistent(Before(extra)) && HeadDrop(Before(extra), extra) == HeadDrop(old(Before(extra)), extra)
        decreases |packets|
      {
        DropMore(Before(extra), extra);
        DropOldest(extra);
      }
      DropDone(Before(extra), extra);
    }

    /** Append a packet with a new timer, unless its identifier has a timer already. */
    method PlacePacket(packet: Packet, timeout: int)
      requires Consistent(Before(packet.length))
      modifies this
      ensures delivered == old(delivered) && out == old(out)
      ensures View() == Place(old(Before(packet.length)), packet, timeout)
    {
      hide Consistent, InsertSlot, CounterAdd, Decode, Deadlines;
      var timer := Slot(packet.id, runtime.now + timeout, runtime.now, nodes);
      packets := packets + [packet];
      if packet.id in right {
        stored := stored - packet.length;
        packets := packets[..|packets| - 1];
      } else {
        left, right, nodes := InsertSlot(left, timer), right[packet.id := timer], nodes + 1;
        counters := CounterAdd(kind, counters, packet.id);
        byId := byId[packet.id := packet];
        history := history[packet.id := History(runtime.now, Decode(packet.lifetime), 0, true)];
      }
    }

    method AddPacket(packet: Packet, timeout: int)
      requires Valid()
      modifies this, runtime`queue
      ensures Valid() && delivered == old(delivered)
      ensures View() == Add(old(View()), packet, timeout)
      ensures Foreign(runtime.queue, scope) == old(Foreign(runtime.queue, scope))
    {
      hide Consistent, HeadDrop, Place, PacketsOf, Deadlines, Foreign;
      ghost var s := View();
      AddConsistent(s, packet, timeout);
      if timeout > 0 {
        stored := stored + packet.length;
        var first := if left == [] then None else Some(left[0].node);
        assert Before(packet.length) == s;
        DropWhileFull(packet.length);
        PlaceElements(Before(packet.length), packet, timeout);
        PlacePacket(packet, timeout);
        if (if left == [] then None else Some(left[0].node)) != first {
          ScheduleTimer();
        }
      }
    }

    /** The first timer has expired: its packet leaves, to the callback unless its lifetime has ended. */
    method ExpireFirst()
      requires Valid() && FirstExpired(View())
      modifies this
      ensures Valid() && View() == Expire(old(View()))
    {
      hide Consistent, Reduce, Without, CounterRemove, Deadlines;
      ghost var s := View();
      ExpireConsistent(s);
      Known(s, left[0].id);
      var timer := left[0];
      var packet := PacketOf(packets, timer.id).value;
      var (lifetime, remaining) := Reduce(packet.lifetime, runtime.now - timer.start);
      if remaining > 0 {
        var reduced := packet.(lifetime := lifetime);
        delivered := delivered + [reduced];
        out := out + [Out(reduced, runtime.now, timer.expiry, remaining, history[timer.id])];
      }
      EraseFirst(timer, packet);
    }

    method EraseFirst(timer: Slot, packet: Packet)
      requires left != [] && timer == left[0] && Buffered(View(), timer.id)
      requires right[timer.id] == timer && byId[timer.id] == packet
      modifies this
      ensures View() == Discard(old(View()), timer.id) && delivered == old(delivered)
    {
      hide CounterRemove, Deadlines;
      stored := stored - packet.length;
      counters := CounterRemove(kind, counters, timer.id);
      packets := Without(packets, packet);
      left, right := left[1..], right - {timer.id};
      byId, history := byId - {timer.id}, history - {timer.id};
    }

    /** Hand out all packets whose timer has expired. */
    method FlushExpired()
      requires Valid()
      modifies this, runtime`queue
      ensures Valid() && View() == Flush(old(View()))
      ensures Foreign(runtime.queue, scope) == old(Foreign(runtime.queue, scope))
      ensures CountDue(runtime.queue, runtime.now) <= old(CountDue(runtime.queue, runtime.now))
    {
      hide Consistent, Expire, ExpireAll, Deadlines, Foreign, CountDue;
      ghost var s := View();
      while left != [] && left[0].expiry <= runtime.now
        invariant Valid() && ExpireAll(View()) == ExpireAll(s)
        invariant runtime.queue == old(runtime.queue)
        decreases |left|
      {
        MoreExpired(View());
        ExpireFirst();
      }
      NoMoreExpired(View());
      FlushConsistent(s);
      if left != [] {
        ScheduleTimer();
      }
    }

    method GetCounter(id: Id) returns (count: nat)
      ensures count == Counter(counters, id)
    {
      count := if id in counters then counters[id] else 0;
    }
  }

  /** What find() by identifier relies on. */
  lemma Known(s: State, id: Id)
    requires Consistent(s)
    ensures id in s.right <==> Buffered(s, id)
    ensures id in s.right ==> s.left != [] && s.byId[id].id == id && PacketOf(s.packets, id) == Some(s.byId[id])
  {
    if id in s.right {
      LookUp(s, id);
      KeyOfPacket(s, id);
    }
  }

  lemma DropMore(s: State, extra: nat)
    requires Consistent(s) && s.stored + extra > s.capacity && s.packets != []
    ensures Buffered(s, s.packets[0].id)
    ensures var r := Discard(s, s.packets[0].id);
      HeadDrop(s, extra) == HeadDrop(r, extra) && Consistent(r) && |r.packets| < |s.packets|
  {
    DropFirst(s);
    DiscardConsistent(s, s.packets[0].id);
  }

  lemma DropDone(s: State, extra: nat)
    requires s.stored + extra <= s.capacity || s.packets == []
    ensures HeadDrop(s, extra) == s
  {
  }

  lemma MoreExpired(s: State)
    requires Consistent(s) && s.left != [] && s.left[0].expiry <= s.now
    ensures FirstExpired(s) && ExpireAll(s) == ExpireAll(Expire(s)) && |Expire(s).left| < |s.left|
  {
    assert s.left[0] in s.left;
    ExpireConsistent(s);
  }

  lemma NoMoreExpired(s: State)
    requires s.left == [] || s.now < s.left[0].expiry
    ensures ExpireAll(s) == s
  {
  }

  lemma QuietNoneOverdue(s: State, q: seq<Event>, scope: nat)
    requires Consistent(s) && InTime(s) && s.wakes == Deadlines(q, scope)
    requires forall e :: e in q ==> s.now < e.deadline
    ensures forall id :: id in s.right ==> s.now < s.right[id].expiry
  {
    assert forall id :: id in s.right ==> s.right[id] in s.left;
    if s.left != [] {
      DeadlinesElements(q, scope);
      assert s.wakes[0] in Deadlines(q, scope);
      FirstIsEarliest(s.left, s.wakes[0]);
    }
  }

  /**
   * ManualRuntime::trigger with the buffer on it: the clock advances and all due callbacks run, those of other
   * objects as well. These may do anything but use the scope of the buffer, and their loop has to end at all.
   * Afterwards no buffered packet has expired, and the other objects have run as if they were alone.
   */
  method TriggerTo<W(!new)>(buffer: Buffer, tp: int, others: Behaviour<W>, world: W, ghost rounds: nat)
    returns (world': W, ghost n: nat)
    requires buffer.Valid() && Invariant(buffer.View()) && InTime(buffer.View()) && buffer.runtime.now <= tp
    requires AllApart(others, buffer.scope, tp)
    requires !Due(Iterate(others, Start(tp, Foreign(buffer.runtime.queue, buffer.scope), world), rounds))
    modifies buffer, buffer.runtime
    ensures buffer.Valid() && Invariant(buffer.View()) && InTime(buffer.View()) && buffer.runtime.now == tp
    ensures forall e :: e in buffer.runtime.queue ==> tp < e.deadline
    ensures forall id :: id in buffer.right ==> tp < buffer.right[id].expiry
    ensures var alone := Iterate(others, Start(tp, old(Foreign(buffer.runtime.queue, buffer.scope)), world), n);
      Alongside(buffer.runtime.queue, buffer.scope, world', alone) && n <= rounds
  {
    hide Consistent, Invariant, InTime, Step, Deadlines, CountDue, Iterate, Runtime.Fire, Foreign, AllApart;
    var rt := buffer.runtime;
    StepInvariant(buffer.View(), Advance(tp));
    StepInTime(buffer.View(), Advance(tp));
    AdvanceIs(buffer.View(), tp);
    rt.now := tp;
    world', n := world, 0;
    ghost var start := Start(tp, Foreign(rt.queue, buffer.scope), world);
    ghost var alone := start;
    NotYet(others, start);
    while rt.queue != [] && rt.queue[0].deadline <= rt.now
      invariant buffer.Valid() && Invariant(buffer.View()) && InTime(buffer.View()) && rt.now == tp && n <= rounds
      invariant alone == Iterate(others, start, n) && alone.now == tp
      invariant Alongside(rt.queue, buffer.scope, world', alone)
      decreases rounds - n, CountDue(rt.queue, tp)
    {
      ghost var s := buffer.View();
      if rt.queue[0].scope == buffer.scope {
        PopDeadlines(rt.queue, buffer.scope);
        PopForeign(rt.queue, buffer.scope);
        PopCount(rt.queue, tp);
        rt.queue := rt.queue[1..];
        WakeIs(s);
        buffer.FlushExpired();
      } else {
        world' := FireOther(rt, others, world', buffer.scope, alone);
        alone, n := Successor(others, start, alone, n), n + 1;
        assert buffer.View() == s;
      }
    }
    NoneDue(rt.queue, tp);
    QuietNoneOverdue(buffer.View(), rt.queue, buffer.scope);
  }

  lemma AdvanceIs(s: State, tp: int)
    ensures Step(s, Advance(tp)) == s.(now := tp)
    ensures Consistent(s) ==> Consistent(s.(now := tp))
  {
  }

  /** Firing the buffer's wake-up is a step of its transition system. */
  lemma WakeIs(s: State)
    requires Invariant(s) && InTime(s) && WakeDue(s)
    ensures var r := Flush(s.(wakes := s.wakes[1..])); Invariant(r) && InTime(r)
    ensures Consistent(s.(wakes := s.wakes[1..]))
  {
    WakeKeeps(s);
  }
}
