/**
 * Properties of the contention based forwarding buffer over whole runs.
 */
module CbfRuns {
  import opened Sequences
  import opened Lifetimes
  import opened Runtime
  import opened CbfModel

  // ---------------------------------------------------------------------
  // Capacity and head drop
  // ---------------------------------------------------------------------

  lemma DropFirst(s: State)
    requires Consistent(s) && s.packets != []
    ensures var id := s.packets[0].id;
      Buffered(s, id) && s.byId[id] == s.packets[0] && Discard(s, id).packets == s.packets[1..]
  {
    assert s.packets[0] in s.packets;
  }

  /**
   * Head drop evicts the shortest sufficient prefix of the oldest packets: with one packet less
   * evicted the new bytes would not fit, and afterwards they fit or nothing is left.
   */
  lemma {:induction false} HeadDropShortest(s: State, extra: nat) returns (k: nat)
    requires Consistent(s)
    ensures k <= |s.packets| && HeadDrop(s, extra).packets == s.packets[k..]
    ensures forall j :: 0 <= j < k ==> TotalLength(s.packets[j..]) + extra > s.capacity
    ensures k < |s.packets| ==> TotalLength(s.packets[k..]) + extra <= s.capacity
    decreases |s.packets|
  {
    hide Mirrors, TimersAgree, CountersAgree;
    if s.stored + extra <= s.capacity || s.packets == [] {
      k := 0;
      assert s.packets[0..] == s.packets;
    } else {
      DropFirst(s);
      var id := s.packets[0].id;
      DiscardConsistent(s, id);
      var rest := HeadDropShortest(Discard(s, id), extra);
      k := rest + 1;
      assert s.packets[k..] == s.packets[1..][rest..];
      forall j | 0 <= j < k
        ensures TotalLength(s.packets[j..]) + extra > s.capacity
      {
        if j > 0 {
          assert s.packets[j..] == s.packets[1..][j - 1..];
        } else {
          assert s.packets[0..] == s.packets;
        }
      }
    }
  }

  lemma DiscardFits(s: State, id: Id)
    requires Consistent(s) && Fits(s) && Buffered(s, id)
    ensures Fits(Discard(s, id))
  {
    DiscardConsistent(s, id);
  }

  lemma {:induction false} HeadDropFits(s: State, extra: nat)
    requires Consistent(s)
    ensures var r := HeadDrop(s, extra);
      r.capacity == s.capacity && (r.packets == [] || r.stored + extra <= r.capacity)
    decreases |s.packets|
  {
    hide Consistent;
    if s.stored + extra > s.capacity && s.packets != [] {
      DropFirst(s);
      DiscardConsistent(s, s.packets[0].id);
      HeadDropFits(Discard(s, s.packets[0].id), extra);
    }
  }

  lemma PlaceFits(s: State, p: Packet, timeout: int)
    requires Consistent(s) && (s.packets == [] || s.stored + p.length <= s.capacity)
    ensures Fits(Place(s, p, timeout))
  {
    EmptyPackets(s);
    hide InsertSlot, Decode, CounterAdd;
  }

  lemma AddFits(s: State, p: Packet, timeout: int)
    requires Consistent(s) && Fits(s)
    ensures Fits(Add(s, p, timeout))
  {
    hide HeadDrop, Consistent, Place;
    HeadDropConsistent(s, p.length);
    HeadDropFits(s, p.length);
    PlaceFits(HeadDrop(s, p.length), p, timeout);
  }

  lemma EmptyPackets(s: State)
    requires Consistent(s)
    ensures s.packets == [] <==> s.right.Keys == {}
    ensures |s.packets| == |s.left| == |s.right|
  {
    MirrorsSize(s.packets, s.byId, PacketId);
    MirrorsSize(s.left, s.right, SlotId);
    assert |s.byId.Keys| == |s.right.Keys|;
  }

  // ---------------------------------------------------------------------
  // What is left after packets have been discarded
  // ---------------------------------------------------------------------

  /** Some packets are gone, everything about the others is as before. */
  ghost predicate Remains(r: State, s: State) {
    && r.now == s.now && r.wakes == s.wakes && r.nodes == s.nodes && r.capacity == s.capacity && r.kind == s.kind
    && (forall x :: x in r.left ==> x in s.left)
    && (forall id :: id in r.right ==> id in s.right && r.right[id] == s.right[id])
    && (forall id :: id in r.byId ==> id in s.byId && r.byId[id] == s.byId[id])
    && (forall id :: id in r.history ==> id in s.history && r.history[id] == s.history[id])
  }

  lemma DiscardRemains(s: State, id: Id)
    requires Consistent(s) && Buffered(s, id)
    ensures Remains(Discard(s, id), s)
    ensures forall x :: x in s.left && x != s.right[id] ==> x in Discard(s, id).left
  {
    WithoutElements(s.left, s.right[id]);
  }

  lemma DiscardOthers(s: State, id: Id)
    requires Buffered(s, id)
    ensures forall other :: Buffered(Discard(s, id), other) <==> Buffered(s, other) && other != id
  {
    hide Without, CounterRemove;
  }

  lemma RemainsTransitive(r: State, q: State, s: State)
    requires Remains(r, q) && Remains(q, s)
    ensures Remains(r, s)
  {
  }

  lemma {:induction false} HeadDropRemains(s: State, extra: nat)
    requires Consistent(s)
    ensures Remains(HeadDrop(s, extra), s) && HeadDrop(s, extra).out == s.out
    decreases |s.packets|
  {
    hide Consistent, Remains;
    if HeadDrop(s, extra) == s {
      SelfRemains(s);
    } else {
      var q := Discard(s, s.packets[0].id);
      DiscardConsistent(s, s.packets[0].id);
      DiscardRemains(s, s.packets[0].id);
      HeadDropRemains(q, extra);
      RemainsTransitive(HeadDrop(q, extra), q, s);
    }
  }

  lemma SelfRemains(s: State)
    ensures Remains(s, s)
  {
  }

  // ---------------------------------------------------------------------
  // Wake-ups
  // ---------------------------------------------------------------------

  /** At most one wake-up is pending, and exactly one while any packet is buffered. */
  ghost predicate Armed(s: State) {
    |s.wakes| <= 1 && (s.left != [] ==> |s.wakes| == 1)
  }

  /** The pending wake-up is not later than any expiry. */
  ghost predicate InTime(s: State) {
    Armed(s) && (s.left != [] ==> s.wakes[0] <= s.left[0].expiry)
  }

  /** The pending wake-up is for the first timer. */
  ghost predicate Tight(s: State) {
    Armed(s) && (s.left != [] ==> s.wakes[0] == s.left[0].expiry)
  }

  lemma FirstIsEarliest(left: seq<Slot>, t: int)
    requires Ordered(left) && left != []
    ensures t <= left[0].expiry <==> forall x :: x in left ==> t <= x.expiry
  {
    assert left[0] in left;
  }

  lemma RemoveInTime(s: State, id: Id)
    requires Consistent(s)
    ensures Armed(s) ==> Armed(Remove(s, id))
    ensures InTime(s) ==> InTime(Remove(s, id))
    ensures Tight(s) ==> Tight(Remove(s, id))
  {
    if Buffered(s, id) {
      KeyOfPacket(s, id);
      hide Mirrors;
    }
  }

  /** Timers in front stay in front, and new timers have new nodes. */
  lemma SameFirstNode(s: State, r: State, nodes: nat)
    requires TimersAgree(s.left, s.right, nodes)
    requires forall x :: x in r.left ==> x in s.left || x.node == nodes
    requires s.left != [] && r.left != [] && r.left[0].node == s.left[0].node
    ensures r.left[0] == s.left[0]
  {
    hide Mirrors;
    assert s.left[0] in s.left && r.left[0] in r.left;
  }

  lemma PlaceElements(s: State, p: Packet, timeout: int)
    requires Consistent(s)
    ensures var r := Place(s, p, timeout);
      r.wakes == s.wakes && r.left != [] && forall x :: x in r.left ==> x in s.left || x.node == s.nodes
  {
    if p.id in s.right {
      assert s.right[p.id] in s.left;
    } else {
      var x := Slot(p.id, s.now + timeout, s.now, s.nodes);
      assert x !in s.left;
      InsertSlotElements(s.left, x);
      assert x in InsertSlot(s.left, x);
    }
  }

  lemma AddInTime(s: State, p: Packet, timeout: int)
    requires Consistent(s)
    ensures Armed(s) ==> Armed(Add(s, p, timeout))
    ensures InTime(s) ==> InTime(Add(s, p, timeout))
    ensures Tight(s) ==> Tight(Add(s, p, timeout))
  {
    hide HeadDrop, Place, Consistent;
    if timeout > 0 {
      HeadDropConsistent(s, p.length);
      HeadDropRemains(s, p.length);
      PlaceElements(HeadDrop(s, p.length), p, timeout);
      var r := Place(HeadDrop(s, p.length), p, timeout);
      if FirstNode(r) == FirstNode(s) {
        assert TimersAgree(s.left, s.right, s.nodes) by { TimersOf(s); }
        SameFirstNode(s, r, s.nodes);
      }
    }
  }

  /** Adding reschedules if and only if the first timer is another one afterwards. */
  lemma AddWakes(s: State, p: Packet, timeout: int)
    requires Consistent(s)
    ensures var r := Add(s, p, timeout);
      r.wakes == if r.left == [] || (s.left != [] && r.left[0] == s.left[0]) then s.wakes else [r.left[0].expiry]
  {
    hide HeadDrop, Place, Consistent;
    if timeout > 0 {
      HeadDropConsistent(s, p.length);
      HeadDropRemains(s, p.length);
      PlaceElements(HeadDrop(s, p.length), p, timeout);
      var r := Place(HeadDrop(s, p.length), p, timeout);
      if FirstNode(r) == FirstNode(s) {
        assert TimersAgree(s.left, s.right, s.nodes) by { TimersOf(s); }
        SameFirstNode(s, r, s.nodes);
      }
    } else {
      assert Add(s, p, timeout) == s;
    }
  }

  /** Removing reschedules if and only if the first timer is removed and others remain. */
  lemma RemoveWakes(s: State, id: Id)
    requires Consistent(s)
    ensures var r := Remove(s, id);
      r.wakes == if Buffered(s, id) && s.left[0].id == id && r.left != [] then [r.left[0].expiry] else s.wakes
  {
    if Buffered(s, id) {
      KeyOfPacket(s, id);
      assert s.left[0] in s.left;
    }
  }

  lemma TimersOf(s: State)
    requires Consistent(s)
    ensures TimersAgree(s.left, s.right, s.nodes)
  {
  }

  lemma UpdateArmed(s: State, id: Id, timeout: int)
    requires Consistent(s) && Armed(s)
    ensures Armed(Update(s, id, timeout))
  {
    if Buffered(s, id) {
      KeyOfPacket(s, id);
    }
  }

  /**
   * An update does not reschedule. It keeps the wake-up in time if and only if the new expiry
   * is not before the pending wake-up.
   */
  lemma UpdateInTimeIff(s: State, id: Id, timeout: int)
    requires Consistent(s) && InTime(s) && Buffered(s, id)
    ensures s.wakes != []
    ensures InTime(Update(s, id, timeout)) <==> s.wakes[0] <= s.now + timeout
  {
    hide Consistent, Ordered, Update, Relocate;
    TimersOrdered(s, id);
    TimerRelocated(s, id, timeout);
    var x := Slot(id, s.now + timeout, s.now, s.right[id].node);
    var r := Update(s, id, timeout);
    UpdateElements(s, id, x);
    FirstIsEarliest(s.left, s.wakes[0]);
    FirstIsEarliest(r.left, s.wakes[0]);
  }

  lemma TimerRelocated(s: State, id: Id, timeout: int)
    requires Buffered(s, id)
    ensures var r := Update(s, id, timeout);
      && r.left == Relocate(s.left, s.right[id], Slot(id, s.now + timeout, s.now, s.right[id].node))
      && r.wakes == s.wakes
  {
    hide Relocate, Substitute, Leaving, UpdatedHistory, Increment;
  }

  lemma TimersOrdered(s: State, id: Id)
    requires Consistent(s) && Buffered(s, id)
    ensures s.left != [] && Ordered(s.left)
  {
    KeyOfPacket(s, id);
  }

  lemma UpdateElements(s: State, id: Id, x: Slot)
    requires Consistent(s) && Buffered(s, id) && x.id == id && x.node == s.right[id].node
    ensures var left := Relocate(s.left, s.right[id], x);
      Ordered(left) && x in left && forall z :: z in left ==> z == x || z in s.left
  {
    KeyOfPacket(s, id);
    assert x in s.left ==> x == s.right[id];
    RelocateElements(s.left, s.right[id], x);
  }

  // ---------------------------------------------------------------------
  // Lifetimes
  // ---------------------------------------------------------------------

  /** Lifetime that should be left at a given time. */
  function Ideal(h: History, at: int): int {
    h.original - (at - h.born)
  }

  /** Half a step of the lifetime field for each update. */
  function Slack(h: History): int
    requires 0 <= h.original
  {
    h.updates * HalfStep(h.original)
  }

  /** The lifetime field of a buffered packet accounts for the time up to the start of its timer. */
  ghost predicate Accounted(p: Packet, x: Slot, h: History, now: int) {
    && h.born <= x.start <= now
    && 0 <= h.original
    && Near(p.lifetime, Ideal(h, x.start), Slack(h), h.original)
    && (h.exact ==> Decode(p.lifetime) == NonNegative(Ideal(h, x.start)))
  }

  ghost predicate AllAccounted(s: State) {
    forall id :: id in s.history && Buffered(s, id) ==> Accounted(s.byId[id], s.right[id], s.history[id], s.now)
  }

  /** The remaining lifetime that decides about handing out a packet. */
  lemma LeavingAccounted(s: State, id: Id)
    requires AllAccounted(s) && Buffered(s, id)
    ensures var h, r := s.history[id], Leaving(s, id).1;
      && 0 <= h.original
      && -Slack(h) <= r - NonNegative(Ideal(h, s.now)) <= Slack(h)
      && (h.exact ==> r == NonNegative(Ideal(h, s.now)))
  {
    var h, x, l := s.history[id], s.right[id], s.byId[id].lifetime;
    hide Reduce, Decode;
    ReduceNear(l, Ideal(h, x.start), Slack(h), h.original, s.now - x.start);
    if h.exact {
      ReduceExact(l, Ideal(h, x.start), s.now - x.start);
    }
  }

  lemma SlackGrows(h: History, g: History)
    requires 0 <= h.original && g.original == h.original && g.updates == h.updates + 1
    ensures Slack(g) == Slack(h) + HalfStep(h.original)
  {
  }

  lemma UpdateAccounted(s: State, id: Id, timeout: int)
    requires Consistent(s) && AllAccounted(s)
    ensures AllAccounted(Update(s, id, timeout))
  {
    if Buffered(s, id) {
      UpdatedAccounted(s, id, Slot(id, s.now + timeout, s.now, s.right[id].node));
      hide Consistent, Accounted, Relocate, Substitute, UpdatedPacket, UpdatedHistory;
    }
  }

  /** A new timer starts with the reduced lifetime. */
  lemma UpdatedAccounted(s: State, id: Id, x: Slot)
    requires AllAccounted(s) && Buffered(s, id) && x.start == s.now
    ensures Accounted(UpdatedPacket(s, id), x, UpdatedHistory(s, id), s.now)
  {
    var h, y, l := s.history[id], s.right[id], s.byId[id].lifetime;
    hide Reduce, Decode, Exact, Slack;
    assert Accounted(s.byId[id], y, h, s.now);
    ReduceNear(l, Ideal(h, y.start), Slack(h), h.original, s.now - y.start);
    SlackGrows(h, UpdatedHistory(s, id));
    if h.exact {
      ReduceExact(l, Ideal(h, y.start), s.now - y.start);
    }
  }

  lemma RemainsAccounted(r: State, s: State)
    requires Remains(r, s) && Consistent(s) && AllAccounted(s)
    ensures AllAccounted(r)
  {
    hide Accounted, PacketsAgree, TimersAgree, CountersAgree;
  }

  lemma NewlyAccounted(p: Packet, x: Slot, now: int)
    requires x.start == now
    ensures Accounted(p, x, History(now, Decode(p.lifetime), 0, true), now)
  {
  }

  lemma PlaceAccounted(s: State, p: Packet, timeout: int)
    requires Consistent(s) && AllAccounted(s)
    ensures AllAccounted(Place(s, p, timeout))
  {
    NewlyAccounted(p, Slot(p.id, s.now + timeout, s.now, s.nodes), s.now);
    hide Accounted, PacketsAgree, TimersAgree, CountersAgree, InsertSlot, Decode;
  }

  lemma AddAccounted(s: State, p: Packet, timeout: int)
    requires Consistent(s) && AllAccounted(s)
    ensures AllAccounted(Add(s, p, timeout))
  {
    hide HeadDrop, Place, Consistent, Accounted, Remains;
    HeadDropConsistent(s, p.length);
    HeadDropRemains(s, p.length);
    RemainsAccounted(HeadDrop(s, p.length), s);
    PlaceAccounted(HeadDrop(s, p.length), p, timeout);
  }

  lemma RemoveAccounted(s: State, id: Id)
    requires Consistent(s) && AllAccounted(s)
    ensures AllAccounted(Remove(s, id))
  {
    hide Consistent, Accounted, Remains;
    if Buffered(s, id) {
      DiscardRemains(s, id);
      RemainsAccounted(Discard(s, id), s);
    }
  }

  // ---------------------------------------------------------------------
  // Packets handed to the callback
  // ---------------------------------------------------------------------

  /** Handed out not before its expiry, with a positive and accounted lifetime. */
  ghost predicate Proper(o: Out) {
    && o.expiry <= o.at
    && 0 < o.remaining
    && 0 <= o.history.original
    && -Slack(o.history) <= o.remaining - NonNegative(Ideal(o.history, o.at)) <= Slack(o.history)
    && (o.history.exact ==> o.remaining == Ideal(o.history, o.at))
  }

  ghost predicate AllProper(out: seq<Out>) {
    forall i :: 0 <= i < |out| ==> Proper(out[i])
  }

  lemma ExpireProper(s: State)
    requires Consistent(s) && AllAccounted(s) && AllProper(s.out) && FirstExpired(s)
    ensures AllProper(Expire(s).out) && AllAccounted(Expire(s))
  {
    var id := s.left[0].id;
    LeavingAccounted(s, id);
    RemoveStep(s, id);
    hide Reduce, Accounted, Consistent, Slack, Discard;
  }

  lemma RemoveStep(s: State, id: Id)
    requires Consistent(s) && AllAccounted(s) && Buffered(s, id)
    ensures AllAccounted(Discard(s, id))
  {
    DiscardRemains(s, id);
    RemainsAccounted(Discard(s, id), s);
  }

  /** A packet with this identifier is among the entries of the log from a given position on. */
  ghost predicate HandedOut(out: seq<Out>, from: nat, id: Id) {
    exists i :: from <= i < |out| && out[i].packet.id == id
  }

  lemma ExpireRemains(s: State)
    requires Consistent(s) && FirstExpired(s)
    ensures Remains(Expire(s), s)
    ensures forall x :: x in s.left && x != s.left[0] ==> x in Expire(s).left
  {
    hide Consistent, Discard, Leaving;
    DiscardRemains(s, s.left[0].id);
    LogIrrelevant(Discard(s, s.left[0].id), s, Expire(s).out);
  }

  lemma LogIrrelevant(r: State, s: State, out: seq<Out>)
    requires Remains(r, s)
    ensures Remains(r.(out := out), s)
  {
  }

  /** Flushing removes exactly the expired timers. */
  lemma {:induction false} ExpireAllTimers(s: State)
    requires Consistent(s)
    ensures var r := ExpireAll(s);
      && Remains(r, s)
      && (forall x :: x in r.left ==> s.now < x.expiry)
      && (forall x :: x in s.left && s.now < x.expiry ==> x in r.left)
    decreases |s.left|
  {
    if FirstExpired(s) {
      ExpireConsistent(s);
      ExpireRemains(s);
      hide Consistent, Expire;
      ExpireAllTimers(Expire(s));
      RemainsTransitive(ExpireAll(Expire(s)), Expire(s), s);
    } else {
      SelfRemains(s);
      NoneExpired(s);
    }
  }

  lemma NoneExpired(s: State)
    requires Consistent(s) && !FirstExpired(s)
    ensures forall x :: x in s.left ==> s.now < x.expiry
  {
    if s.left != [] {
      assert s.left[0] in s.left;
      FirstIsEarliest(s.left, s.now + 1);
    }
  }

  lemma {:induction false} ExpireAllProper(s: State)
    requires Consistent(s) && AllAccounted(s) && AllProper(s.out)
    ensures AllProper(ExpireAll(s).out) && AllAccounted(ExpireAll(s))
    decreases |s.left|
  {
    hide Consistent, Expire, AllAccounted, AllProper;
    if FirstExpired(s) {
      ExpireConsistent(s);
      ExpireProper(s);
      ExpireAllProper(Expire(s));
    }
  }

  lemma {:induction false} ExpireAllFits(s: State)
    requires Consistent(s) && Fits(s)
    ensures Fits(ExpireAll(s))
    decreases |s.left|
  {
    hide Consistent;
    if FirstExpired(s) {
      ExpireConsistent(s);
      DiscardFits(s, s.left[0].id);
      ExpireAllFits(Expire(s));
    }
  }

  /** What one expiry adds to the log. */
  lemma ExpireLogs(s: State)
    requires Consistent(s) && FirstExpired(s)
    ensures var id := s.left[0].id;
      var out := Expire(s).out;
      && s.out <= out
      && (forall other :: Buffered(Expire(s), other) <==> Buffered(s, other) && other != id)
      && (if Leaving(s, id).1 > 0 then |out| == |s.out| + 1 && out[|s.out|].packet.id == id else out == s.out)
  {
    KeyOfPacket(s, s.left[0].id);
    DiscardOthers(s, s.left[0].id);
    hide Reduce, Consistent;
  }

  lemma LeavingRemains(r: State, s: State, id: Id)
    requires Remains(r, s) && Buffered(r, id) && Buffered(s, id)
    ensures Leaving(r, id) == Leaving(s, id)
  {
  }

  /** Exactly those packets are handed out whose timer has expired and whose lifetime has not. */
  lemma {:induction false} ExpireAllLogs(s: State)
    requires Consistent(s)
    ensures s.out <= ExpireAll(s).out
    ensures forall id :: HandedOut(ExpireAll(s).out, |s.out|, id) <==>
                         Buffered(s, id) && s.right[id].expiry <= s.now && Leaving(s, id).1 > 0
    decreases |s.left|
  {
    if FirstExpired(s) {
      var q, r := Expire(s), ExpireAll(s);
      ExpireConsistent(s);
      ExpireRemains(s);
      ExpireLogs(s);
      hide Consistent, Expire;
      ExpireAllLogs(q);
      forall id
        ensures HandedOut(r.out, |s.out|, id) <==>
                Buffered(s, id) && s.right[id].expiry <= s.now && Leaving(s, id).1 > 0
      {
        HandedOutStep(s, q, r, id);
      }
    } else {
      NoneExpired(s);
      forall id | Buffered(s, id)
        ensures s.now < s.right[id].expiry
      {
        KeyOfPacket(s, id);
      }
    }
  }

  lemma HandedOutStep(s: State, q: State, r: State, id: Id)
    requires FirstExpired(s) && Remains(q, s) && s.out <= q.out <= r.out
    requires var first := s.left[0].id;
      && (forall other :: Buffered(q, other) <==> Buffered(s, other) && other != first)
      && (if Leaving(s, first).1 > 0 then |q.out| == |s.out| + 1 && q.out[|s.out|].packet.id == first
          else q.out == s.out)
    requires HandedOut(r.out, |q.out|, id) <==>
             Buffered(q, id) && q.right[id].expiry <= q.now && Leaving(q, id).1 > 0
    ensures HandedOut(r.out, |s.out|, id) <==>
            Buffered(s, id) && s.right[id].expiry <= s.now && Leaving(s, id).1 > 0
  {
    var first := s.left[0].id;
    if id == first {
      hide Leaving, Remains;
      if Leaving(s, first).1 > 0 {
        assert r.out[|s.out|].packet.id == id;
      }
    } else {
      if Buffered(s, id) {
        LeavingRemains(q, s, id);
      }
      hide Leaving;
      assert HandedOut(r.out, |s.out|, id) <==> HandedOut(r.out, |q.out|, id);
    }
  }

  // ---------------------------------------------------------------------
  // Whole runs
  // ---------------------------------------------------------------------

  /**
   * Anything that can happen: calls of the buffer's operations, the passage of time,
   * and the runtime firing the buffer's first pending wake-up.
   */
  datatype Op =
    | AddPacket(packet: Packet, timeout: int)
    | RemovePacket(id: Id)
    | FetchPacket(id: Id)
    | UpdateTimer(id: Id, timeout: int)
    | Advance(to: int)
    | Wake

  predicate WakeDue(s: State) {
    s.wakes != [] && s.wakes[0] <= s.now
  }

  predicate Enabled(s: State, op: Op) {
    match op
    case Advance(to) => s.now <= to
    case Wake => WakeDue(s)
    case _ => true
  }

  function Step(s: State, op: Op): State {
    match op
    case AddPacket(p, timeout) => Add(s, p, timeout)
    case RemovePacket(id) => Remove(s, id)
    case FetchPacket(id) => Fetch(s, id)
    case UpdateTimer(id, timeout) => Update(s, id, timeout)
    case Advance(to) => s.(now := to)
    case Wake => if s.wakes == [] then s else Flush(s.(wakes := s.wakes[1..]))
  }

  function Init(capacity: nat, kind: CounterKind, now: int): State {
    State(capacity, kind, [], map[], [], map[], 0, 0, map[], now, [], map[], [])
  }

  function Run(s: State, ops: seq<Op>): State {
    if ops == [] then s else Step(Run(s, ops[..|ops| - 1]), ops[|ops| - 1])
  }

  /** Every operation of the run is possible when it occurs. */
  predicate Legal(s: State, ops: seq<Op>) {
    ops == [] || (Legal(s, ops[..|ops| - 1]) && Enabled(Run(s, ops[..|ops| - 1]), ops[|ops| - 1]))
  }

  /** An update sets an expiry that is not before the pending wake-up. */
  predicate Prompt(s: State, op: Op) {
    op.UpdateTimer? && Buffered(s, op.id) && s.wakes != [] ==> s.wakes[0] <= s.now + op.timeout
  }

  predicate AllPrompt(s: State, ops: seq<Op>) {
    ops == [] || (AllPrompt(s, ops[..|ops| - 1]) && Prompt(Run(s, ops[..|ops| - 1]), ops[|ops| - 1]))
  }

  /** Everything that agrees in every reachable state. */
  ghost predicate Invariant(s: State) {
    Consistent(s) && Fits(s) && Armed(s) && AllAccounted(s) && AllProper(s.out)
  }

  lemma FlushKeeps(s: State)
    requires Consistent(s) && Fits(s) && AllAccounted(s) && AllProper(s.out) && s.wakes == []
    ensures Invariant(Flush(s)) && InTime(Flush(s)) && Tight(Flush(s))
  {
    hide Consistent, ExpireAll, Accounted, AllProper;
    ExpireAllTimers(s);
    FlushConsistent(s);
    ExpireAllProper(s);
    ExpireAllFits(s);
  }

  lemma StepInvariant(s: State, op: Op)
    requires Invariant(s) && Enabled(s, op)
    ensures Invariant(Step(s, op))
  {
    hide Consistent, Fits, Armed, AllAccounted, AllProper, Add, Remove, Update, Flush;
    match op {
      case AddPacket(p, timeout) =>
        AddConsistent(s, p, timeout);
        AddFits(s, p, timeout);
        AddInTime(s, p, timeout);
        AddAccounted(s, p, timeout);
        AddOut(s, p, timeout);
      case RemovePacket(id) =>
        RemoveKeeps(s, id);
      case FetchPacket(id) =>
        RemoveKeeps(s, id);
      case UpdateTimer(id, timeout) =>
        UpdateConsistent(s, id, timeout);
        UpdateFits(s, id, timeout);
        UpdateArmed(s, id, timeout);
        UpdateAccounted(s, id, timeout);
      case Advance(to) =>
        AdvanceKeeps(s, to);
      case Wake =>
        WakeKeeps(s);
    }
  }

  lemma AddOut(s: State, p: Packet, timeout: int)
    requires Consistent(s)
    ensures var r := Add(s, p, timeout); r.out == s.out && r.kind == s.kind && r.capacity == s.capacity
  {
    hide HeadDrop, Consistent, InsertSlot, Decode, CounterAdd;
    HeadDropRemains(s, p.length);
  }

  lemma RemoveKeeps(s: State, id: Id)
    requires Invariant(s)
    ensures Invariant(Remove(s, id))
  {
    RemoveConsistent(s, id);
    RemoveInTime(s, id);
    RemoveAccounted(s, id);
    if Buffered(s, id) {
      DiscardFits(s, id);
    }
    hide Consistent, Armed, AllAccounted, AllProper;
  }

  lemma UpdateFits(s: State, id: Id, timeout: int)
    requires Consistent(s) && Fits(s)
    ensures Fits(Update(s, id, timeout)) && Update(s, id, timeout).out == s.out
  {
    if Buffered(s, id) {
      KeyOfPacket(s, id);
      SubstituteElements(s.packets, s.byId[id], UpdatedPacket(s, id));
      hide Consistent, UpdatedPacket, UpdatedHistory;
    }
  }

  lemma AdvanceKeeps(s: State, to: int)
    requires Invariant(s) && s.now <= to
    ensures Invariant(s.(now := to))
  {
    hide PacketsAgree, TimersAgree, CountersAgree, Near;
  }

  lemma WakeKeeps(s: State)
    requires Invariant(s) && WakeDue(s)
    ensures var r := Flush(s.(wakes := s.wakes[1..])); Invariant(r) && InTime(r) && Tight(r)
  {
    var q := s.(wakes := s.wakes[1..]);
    hide PacketsAgree, TimersAgree, CountersAgree, Accounted, Flush;
    FlushKeeps(q);
  }

  /** No operation reconfigures the buffer. */
  lemma StepFrame(s: State, op: Op)
    requires Invariant(s) && Enabled(s, op)
    ensures Step(s, op).kind == s.kind && Step(s, op).capacity == s.capacity
  {
    assert Consistent(s);
    match op {
      case AddPacket(p, timeout) =>
        hide Consistent, Invariant, Add;
        AddOut(s, p, timeout);
      case Wake =>
        hide Invariant, Flush;
        WakeFrame(s);
      case UpdateTimer(id, timeout) =>
        hide Consistent, Invariant, Relocate, Substitute, UpdatedPacket, UpdatedHistory, Increment;
      case _ =>
        hide Consistent, Invariant, Without, CounterRemove;
    }
  }

  lemma WakeFrame(s: State)
    requires Consistent(s) && s.wakes != []
    ensures var r := Flush(s.(wakes := s.wakes[1..])); r.kind == s.kind && r.capacity == s.capacity
  {
    var q := s.(wakes := s.wakes[1..]);
    assert Consistent(q);
    hide Consistent, ExpireAll;
    ExpireAllTimers(q);
  }

  /** Consistency, capacity, wake-ups, counters and lifetimes agree after every operation of every run. */
  lemma {:induction false} RunInvariant(capacity: nat, kind: CounterKind, now: int, ops: seq<Op>)
    requires Legal(Init(capacity, kind, now), ops)
    ensures var r := Run(Init(capacity, kind, now), ops);
      Invariant(r) && r.kind == kind && r.capacity == capacity
  {
    var s := Init(capacity, kind, now);
    if ops != [] {
      RunInvariant(capacity, kind, now, ops[..|ops| - 1]);
      hide Invariant, Step;
      StepFrame(Run(s, ops[..|ops| - 1]), ops[|ops| - 1]);
      StepInvariant(Run(s, ops[..|ops| - 1]), ops[|ops| - 1]);
    }
  }

  lemma StepInTime(s: State, op: Op)
    requires Invariant(s) && InTime(s) && Enabled(s, op) && Prompt(s, op)
    ensures InTime(Step(s, op))
  {
    hide Consistent, Add, Remove, Update, Flush;
    match op {
      case AddPacket(p, timeout) => AddInTime(s, p, timeout);
      case RemovePacket(id) => RemoveInTime(s, id);
      case FetchPacket(id) => RemoveInTime(s, id);
      case UpdateTimer(id, timeout) =>
        if Buffered(s, id) {
          UpdateInTimeIff(s, id, timeout);
        } else {
          UnknownIsIgnored(s, id, timeout);
        }
      case Advance(to) =>
      case Wake => WakeKeeps(s);
    }
  }

  lemma UnknownIsIgnored(s: State, id: Id, timeout: int)
    requires !Buffered(s, id)
    ensures Update(s, id, timeout) == s
  {
  }

  /** With prompt updates the pending wake-up is in time in every reachable state. */
  lemma {:induction false} RunInTime(capacity: nat, kind: CounterKind, now: int, ops: seq<Op>)
    requires var s := Init(capacity, kind, now); Legal(s, ops) && AllPrompt(s, ops)
    ensures InTime(Run(Init(capacity, kind, now), ops))
  {
    var s := Init(capacity, kind, now);
    if ops != [] {
      RunInTime(capacity, kind, now, ops[..|ops| - 1]);
      RunInvariant(capacity, kind, now, ops[..|ops| - 1]);
      hide Invariant, InTime, Step;
      StepInTime(Run(s, ops[..|ops| - 1]), ops[|ops| - 1]);
    }
  }

  lemma StepTight(s: State, op: Op)
    requires Invariant(s) && Tight(s) && Enabled(s, op) && !op.UpdateTimer?
    ensures Tight(Step(s, op))
  {
    assert Consistent(s);
    hide Consistent, Invariant, Add, Remove, Flush;
    match op {
      case AddPacket(p, timeout) => AddInTime(s, p, timeout);
      case RemovePacket(id) => RemoveInTime(s, id);
      case FetchPacket(id) => RemoveInTime(s, id);
      case Advance(to) =>
      case Wake => WakeKeeps(s);
    }
  }

  /** Without updates there are no idle wake-ups: while packets are buffered, the wake-up is for the earliest expiry. */
  lemma {:induction false} RunTight(capacity: nat, kind: CounterKind, now: int, ops: seq<Op>)
    requires Legal(Init(capacity, kind, now), ops) && forall i :: 0 <= i < |ops| ==> !ops[i].UpdateTimer?
    ensures Tight(Run(Init(capacity, kind, now), ops))
  {
    var s := Init(capacity, kind, now);
    if ops != [] {
      RunTight(capacity, kind, now, ops[..|ops| - 1]);
      RunInvariant(capacity, kind, now, ops[..|ops| - 1]);
      hide Invariant, Tight, Step;
      StepTight(Run(s, ops[..|ops| - 1]), ops[|ops| - 1]);
    }
  }

  /**
   * Buffer and runtime composed: whenever the runtime has nothing left to fire, no buffered packet
   * has expired, in every run with prompt updates.
   */
  lemma NoneOverdue(capacity: nat, kind: CounterKind, now: int, ops: seq<Op>)
    requires var s := Init(capacity, kind, now); Legal(s, ops) && AllPrompt(s, ops)
    ensures var r := Run(Init(capacity, kind, now), ops);
      !WakeDue(r) ==> forall id :: id in r.right ==> r.now < r.right[id].expiry
  {
    RunInvariant(capacity, kind, now, ops);
    RunInTime(capacity, kind, now, ops);
    var r := Run(Init(capacity, kind, now), ops);
    hide Run;
    assert forall id :: id in r.right ==> r.right[id] in r.left;
    if r.left != [] {
      FirstIsEarliest(r.left, r.wakes[0]);
    }
  }

  /**
   * Without that premise the claim fails for a whole family of runs: a timer that an update moves in front of
   * the pending wake-up stays overdue until that wake-up.
   */
  lemma OverdueAfterEarlyUpdate(s: State, id: Id, timeout: int, t: int)
    requires Invariant(s) && Buffered(s, id)
    requires s.wakes != [] && s.now <= t && s.now + timeout <= t < s.wakes[0]
    ensures var r := Step(Step(s, UpdateTimer(id, timeout)), Advance(t));
      !WakeDue(r) && id in r.right && r.right[id].expiry <= r.now
  {
    hide Consistent, Relocate, Substitute, Leaving, UpdatedHistory;
  }

  /** Some time passes, then the timer of a packet is updated. */
  datatype Renewal = Renewal(gap: int, timeout: int)

  function Refresh(s: State, id: Id, renewals: seq<Renewal>): State {
    if renewals == [] then s
    else
      var q, last := Refresh(s, id, renewals[..|renewals| - 1]), renewals[|renewals| - 1];
      Update(q.(now := q.now + last.gap), id, last.timeout)
  }

  function Elapsed(renewals: seq<Renewal>): int {
    if renewals == [] then 0 else Elapsed(renewals[..|renewals| - 1]) + renewals[|renewals| - 1].gap
  }

  /** The timer of a packet has just been started, and its lifetime has not changed although time has passed. */
  ghost predicate Ageless(s: State, r: State, id: Id, elapsed: int) {
    && Buffered(s, id) && Buffered(r, id)
    && r.right[id].start == r.now == s.now + elapsed
    && Decode(r.byId[id].lifetime) == Decode(s.byId[id].lifetime)
    && r.history[id].born == s.history[id].born && r.history[id].original == s.history[id].original
  }

  lemma RefreshOnce(s: State, id: Id, timeout: int, gap: int)
    requires Buffered(s, id) && s.right[id].start == s.now
    requires 0 <= gap < Decode(s.byId[id].lifetime) && Short(Decode(s.byId[id].lifetime), gap)
    ensures Ageless(s, Update(s.(now := s.now + gap), id, timeout), id, gap)
  {
    var q := s.(now := s.now + gap);
    hide Decode, Encode, Short;
    if gap > 0 {
      ShortQueuingIsForgotten(s.byId[id].lifetime, gap);
    }
    assert Decode(Leaving(q, id).0) == Decode(s.byId[id].lifetime);
    hide Leaving, Relocate, Substitute, Exact, Increment;
  }

  /** Every gap is shorter than the lifetime and at most half of the granularity at which the remainder is stored. */
  ghost predicate QuickSuccession(lifetime: nat, renewals: seq<Renewal>) {
    forall i :: 0 <= i < |renewals| ==> 0 <= renewals[i].gap < lifetime && Short(lifetime, renewals[i].gap)
  }

  lemma {:induction false} RefreshAgeless(s: State, id: Id, renewals: seq<Renewal>)
    requires Buffered(s, id) && s.right[id].start == s.now
    requires QuickSuccession(Decode(s.byId[id].lifetime), renewals)
    ensures Ageless(s, Refresh(s, id, renewals), id, Elapsed(renewals))
  {
    if renewals != [] {
      var n := |renewals| - 1;
      hide Update, Decode, Short;
      RefreshAgeless(s, id, renewals[..n]);
      RefreshOnce(Refresh(s, id, renewals[..n]), id, renewals[n].timeout, renewals[n].gap);
    }
  }

  /**
   * The deviation is not bounded by anything else: updates in quick succession, at most 25 ms apart or more with a
   * coarser granularity, keep the lifetime of a packet for ever, so it is still handed out long after its lifetime
   * should have ended.
   */
  lemma FrequentUpdatesStopAging(s: State, id: Id, renewals: seq<Renewal>)
    requires Buffered(s, id) && s.right[id].start == s.now && 0 < Decode(s.byId[id].lifetime)
    requires QuickSuccession(Decode(s.byId[id].lifetime), renewals)
    ensures var r := Refresh(s, id, renewals);
      && Ageless(s, r, id, Elapsed(renewals))
      && FetchResult(r, id).Some?
      && Ideal(r.history[id], r.now) == Ideal(s.history[id], s.now) - Elapsed(renewals)
  {
    RefreshAgeless(s, id, renewals);
    hide Refresh, Elapsed, QuickSuccession;
  }

  // ---------------------------------------------------------------------
  // Packets are listed in order of arrival
  // ---------------------------------------------------------------------

  ghost predicate Arrived(packets: seq<Packet>, history: map<Id, History>, now: int) {
    && (forall i :: 0 <= i < |packets| ==> packets[i].id in history && history[packets[i].id].born <= now)
    && (forall i, j :: 0 <= i < j < |packets| ==> history[packets[i].id].born <= history[packets[j].id].born)
  }

  ghost predicate ByArrival(s: State) {
    Arrived(s.packets, s.history, s.now)
  }

  lemma ArrivedWithout(packets: seq<Packet>, history: map<Id, History>, now: int, p: Packet)
    requires Arrived(packets, history, now) && NoDuplicates(packets)
    requires forall q :: q in packets && q.id == p.id ==> q == p
    ensures Arrived(Without(packets, p), history - {p.id}, now)
  {
    var cut := WithoutShift(packets, p);
    WithoutElements(packets, p);
    var rest := Without(packets, p);
    hide Without;
    forall i | 0 <= i < |rest|
      ensures rest[i].id != p.id
    {
      assert rest[i] in rest;
    }
  }

  lemma ArrivedSubstitute(packets: seq<Packet>, history: map<Id, History>, now: int, p: Packet, q: Packet, h: History)
    requires Arrived(packets, history, now) && p.id in history && q.id == p.id && h.born == history[p.id].born
    ensures Arrived(Substitute(packets, p, q), history[p.id := h], now)
  {
    SubstitutePositions(packets, p, q);
    var r := Substitute(packets, p, q);
    hide Substitute;
    assert forall i :: 0 <= i < |packets| ==> r[i].id == packets[i].id;
  }

  lemma DiscardByArrival(s: State, id: Id)
    requires Consistent(s) && ByArrival(s) && Buffered(s, id)
    ensures ByArrival(Discard(s, id))
  {
    KeyOfPacket(s, id);
    ArrivedWithout(s.packets, s.history, s.now, s.byId[id]);
    hide Consistent, Arrived, Without, CounterRemove;
  }

  lemma {:induction false} HeadDropByArrival(s: State, extra: nat)
    requires Consistent(s) && ByArrival(s)
    ensures ByArrival(HeadDrop(s, extra))
    decreases |s.packets|
  {
    hide Consistent, ByArrival;
    if HeadDrop(s, extra) != s {
      DiscardConsistent(s, s.packets[0].id);
      DiscardByArrival(s, s.packets[0].id);
      HeadDropByArrival(Discard(s, s.packets[0].id), extra);
    }
  }

  lemma {:induction false} ExpireAllByArrival(s: State)
    requires Consistent(s) && ByArrival(s)
    ensures ByArrival(ExpireAll(s))
    decreases |s.left|
  {
    hide Consistent;
    if FirstExpired(s) {
      ExpireConsistent(s);
      DiscardByArrival(s, s.left[0].id);
      ExpireAllByArrival(Expire(s));
    }
  }

  lemma ArrivedMore(packets: seq<Packet>, history: map<Id, History>, now: int, p: Packet, h: History)
    requires Arrived(packets, history, now) && p.id !in history && h.born == now
    ensures Arrived(packets + [p], history[p.id := h], now)
  {
    var r := packets + [p];
    assert forall i :: 0 <= i < |packets| ==> r[i] == packets[i] && r[i].id != p.id;
  }

  lemma PlaceByArrival(s: State, p: Packet, timeout: int)
    requires Consistent(s) && ByArrival(s)
    ensures ByArrival(Place(s, p, timeout))
  {
    if p.id !in s.right {
      assert p.id !in s.history;
      hide Consistent, InsertSlot, CounterAdd, Decode, Arrived;
      ArrivedMore(s.packets, s.history, s.now, p, History(s.now, Decode(p.lifetime), 0, true));
    }
  }

  lemma UpdateByArrival(s: State, id: Id, timeout: int)
    requires Consistent(s) && ByArrival(s)
    ensures ByArrival(Update(s, id, timeout))
  {
    if Buffered(s, id) {
      KeyOfPacket(s, id);
      hide Consistent, Relocate, Increment, Leaving, Exact, Arrived, Substitute;
      ArrivedSubstitute(s.packets, s.history, s.now, s.byId[id], UpdatedPacket(s, id), UpdatedHistory(s, id));
    }
  }

  lemma AddByArrival(s: State, p: Packet, timeout: int)
    requires Consistent(s) && ByArrival(s)
    ensures ByArrival(Add(s, p, timeout))
  {
    hide HeadDrop, Place, Consistent, Arrived;
    HeadDropConsistent(s, p.length);
    HeadDropByArrival(s, p.length);
    PlaceByArrival(HeadDrop(s, p.length), p, timeout);
  }

  lemma RemoveByArrival(s: State, id: Id)
    requires Consistent(s) && ByArrival(s)
    ensures ByArrival(Remove(s, id))
  {
    hide Consistent, Discard, Arrived;
    if Buffered(s, id) {
      DiscardByArrival(s, id);
    }
  }

  lemma FlushByArrival(s: State)
    requires Consistent(s) && ByArrival(s)
    ensures ByArrival(Flush(s))
  {
    hide Consistent, ExpireAll, Arrived;
    ExpireAllByArrival(s);
  }

  lemma StepByArrival(s: State, op: Op)
    requires Invariant(s) && ByArrival(s) && Enabled(s, op)
    ensures ByArrival(Step(s, op))
  {
    hide Add, Remove, Update, Flush, Fits, Armed, AllAccounted, AllProper;
    match op {
      case AddPacket(p, timeout) => AddByArrival(s, p, timeout);
      case RemovePacket(id) => RemoveByArrival(s, id);
      case FetchPacket(id) => RemoveByArrival(s, id);
      case UpdateTimer(id, timeout) => UpdateByArrival(s, id, timeout);
      case Advance(to) =>
      case Wake => FlushByArrival(s.(wakes := s.wakes[1..]));
    }
  }

  /** In every run the packet list is in order of arrival, so that head drop evicts the oldest packets. */
  lemma {:induction false} RunByArrival(capacity: nat, kind: CounterKind, now: int, ops: seq<Op>)
    requires Legal(Init(capacity, kind, now), ops)
    ensures ByArrival(Run(Init(capacity, kind, now), ops))
  {
    var s := Init(capacity, kind, now);
    if ops != [] {
      RunByArrival(capacity, kind, now, ops[..|ops| - 1]);
      RunInvariant(capacity, kind, now, ops[..|ops| - 1]);
      hide Invariant, ByArrival, Step;
      StepByArrival(Run(s, ops[..|ops| - 1]), ops[|ops| - 1]);
    }
  }

  // ---------------------------------------------------------------------
  // Immortal counters
  // ---------------------------------------------------------------------

  lemma {:induction false} HeadDropImmortal(s: State, extra: nat)
    requires s.kind.Immortal?
    ensures HeadDrop(s, extra).counters == s.counters && HeadDrop(s, extra).kind == s.kind
    decreases |s.packets|
  {
    if HeadDrop(s, extra) != s {
      HeadDropImmortal(Discard(s, s.packets[0].id), extra);
    }
  }

  lemma {:induction false} ExpireAllImmortal(s: State)
    requires s.kind.Immortal?
    ensures ExpireAll(s).counters == s.counters && ExpireAll(s).kind == s.kind
    decreases |s.left|
  {
    if FirstExpired(s) {
      ExpireAllImmortal(Expire(s));
    }
  }

  /** Whether an operation is an arrival of a packet: stored by add, or a duplicate that updates the timer. */
  function Arrival(s: State, op: Op, id: Id): nat {
    match op
    case AddPacket(p, timeout) => if p.id == id && timeout > 0 && id !in HeadDrop(s, p.length).right then 1 else 0
    case UpdateTimer(other, _) => if other == id && Buffered(s, id) then 1 else 0
    case _ => 0
  }

  lemma AddImmortal(s: State, p: Packet, timeout: int, id: Id)
    requires s.kind.Immortal?
    ensures var r := Add(s, p, timeout);
      r.kind == s.kind && Counter(r.counters, id) == Counter(s.counters, id) + Arrival(s, AddPacket(p, timeout), id)
  {
    HeadDropImmortal(s, p.length);
    hide HeadDrop, InsertSlot, Decode;
  }

  lemma UpdateImmortal(s: State, other: Id, timeout: int, id: Id)
    ensures var r, op := Update(s, other, timeout), UpdateTimer(other, timeout);
      r.kind == s.kind && Counter(r.counters, id) == Counter(s.counters, id) + Arrival(s, op, id)
  {
    hide Relocate, Substitute, Leaving, UpdatedHistory;
  }

  lemma RemoveImmortal(s: State, other: Id)
    requires s.kind.Immortal?
    ensures Remove(s, other).kind == s.kind && Remove(s, other).counters == s.counters
  {
    hide Without;
  }

  lemma StepImmortal(s: State, op: Op, id: Id)
    requires s.kind.Immortal?
    ensures Counter(Step(s, op).counters, id) == Counter(s.counters, id) + Arrival(s, op, id)
    ensures Step(s, op).kind == s.kind
  {
    match op {
      case AddPacket(p, timeout) =>
        AddImmortal(s, p, timeout, id);
        hide Add, Arrival;
      case Wake =>
        if s.wakes != [] {
          ExpireAllImmortal(s.(wakes := s.wakes[1..]));
          hide ExpireAll, Counter;
        }
      case UpdateTimer(other, timeout) =>
        UpdateImmortal(s, other, timeout, id);
        hide Update, Arrival;
      case RemovePacket(other) =>
        RemoveImmortal(s, other);
        hide Remove;
      case FetchPacket(other) =>
        RemoveImmortal(s, other);
        hide Remove;
      case Advance(to) =>
    }
  }

  function Arrivals(s: State, ops: seq<Op>, id: Id): nat {
    if ops == [] then 0
    else Arrivals(s, ops[..|ops| - 1], id) + Arrival(Run(s, ops[..|ops| - 1]), ops[|ops| - 1], id)
  }

  /** Immortal counters count all arrivals of a packet and never forget any. */
  lemma {:induction false} ImmortalCounterMeaning(capacity: nat, now: int, ops: seq<Op>, id: Id)
    ensures var r := Run(Init(capacity, Immortal, now), ops);
      r.kind == Immortal && Counter(r.counters, id) == Arrivals(Init(capacity, Immortal, now), ops, id)
  {
    var s := Init(capacity, Immortal, now);
    if ops != [] {
      ImmortalCounterMeaning(capacity, now, ops[..|ops| - 1], id);
      hide Step, Arrival, Counter;
      StepImmortal(Run(s, ops[..|ops| - 1]), ops[|ops| - 1], id);
    }
  }
}
