/**
 * Contention based forwarding buffer as a transition system.
 *
 * The state holds everything that has to agree: the packet list in order of arrival, the timers
 * ordered by expiry and found by identifier, the byte counter, the duplicate counters, and the
 * wake-ups that the buffer has pending at its runtime. The history of each buffered packet and
 * the log of packets handed to the callback are kept beside it.
 */
module CbfModel {
  import opened Sequences
  import opened Lifetimes
  import opened Runtime

  /** Source address and sequence number. */
  datatype Id = Id(source: nat, sequenceNumber: nat)

  datatype Packet = Packet(id: Id, length: nat, lifetime: Lifetime, payload: nat)

  /** Entry of the timer bimap; the node stands for the identity of its iterator. */
  datatype Slot = Slot(id: Id, expiry: int, start: int, node: nat)

  /** Time of arrival, lifetime at arrival, number of updates, and whether none of them had to round. */
  datatype History = History(born: int, original: int, updates: nat, exact: bool)

  /** Packet handed to the timer callback: when, due since when, remaining lifetime, and its history. */
  datatype Out = Out(packet: Packet, at: int, expiry: int, remaining: int, history: History)

  datatype CounterKind = Contending | Immortal

  datatype State = State(
    capacity: nat,
    kind: CounterKind,
    packets: seq<Packet>,
    byId: map<Id, Packet>,
    left: seq<Slot>,
    right: map<Id, Slot>,
    nodes: nat,
    stored: int,
    counters: map<Id, nat>,
    now: int,
    wakes: seq<int>,
    history: map<Id, History>,
    out: seq<Out>)

  function PacketId(p: Packet): Id { p.id }
  function SlotId(x: Slot): Id { x.id }

  // ---------------------------------------------------------------------
  // Timers in order of expiry
  // ---------------------------------------------------------------------

  predicate Ordered(left: seq<Slot>) {
    forall i, j :: 0 <= i < j < |left| ==> left[i].expiry <= left[j].expiry
  }

  /** New timers are placed behind all timers with the same expiry. */
  function InsertSlot(left: seq<Slot>, x: Slot): seq<Slot> {
    if left == [] || x.expiry < left[0].expiry then [x] + left else [left[0]] + InsertSlot(left[1..], x)
  }

  /** A changed timer stays in its place if the order allows it, and is inserted anew otherwise. */
  function Relocate(left: seq<Slot>, x: Slot, y: Slot): seq<Slot> {
    var inPlace := Substitute(left, x, y);
    if Ordered(inPlace) then inPlace else InsertSlot(Without(left, x), y)
  }

  // ---------------------------------------------------------------------
  // Duplicate counters
  // ---------------------------------------------------------------------

  function Increment(counters: map<Id, nat>, id: Id): map<Id, nat> {
    counters[id := (if id in counters then counters[id] else 0) + 1]
  }

  function CounterAdd(kind: CounterKind, counters: map<Id, nat>, id: Id): map<Id, nat> {
    if kind.Contending? then counters[id := 1] else Increment(counters, id)
  }

  function CounterRemove(kind: CounterKind, counters: map<Id, nat>, id: Id): map<Id, nat> {
    if kind.Contending? then counters - {id} else counters
  }

  function Counter(counters: map<Id, nat>, id: Id): nat {
    if id in counters then counters[id] else 0
  }

  // ---------------------------------------------------------------------
  // Operations
  // ---------------------------------------------------------------------

  function TotalLength(packets: seq<Packet>): nat {
    if packets == [] then 0 else packets[0].length + TotalLength(packets[1..])
  }

  predicate Buffered(s: State, id: Id) {
    id in s.right && id in s.byId && id in s.history
  }

  /** A packet leaves the buffer together with its timer and counter. */
  function Discard(s: State, id: Id): State
    requires Buffered(s, id)
  {
    s.(packets := Without(s.packets, s.byId[id]),
       byId := s.byId - {id},
       left := Without(s.left, s.right[id]),
       right := s.right - {id},
       stored := s.stored - s.byId[id].length,
       counters := CounterRemove(s.kind, s.counters, id),
       history := s.history - {id})
  }

  /** Cancel the pending wake-up and schedule one for the first timer. */
  function Rearm(s: State): State
    requires s.left != []
  {
    s.(wakes := [s.left[0].expiry])
  }

  /** Discard a packet and rearm if its timer was the first one. */
  function DiscardAndRearm(s: State, id: Id): State
    requires Buffered(s, id)
  {
    var r := Discard(s, id);
    if s.left != [] && s.left[0] == s.right[id] && r.left != [] then Rearm(r) else r
  }

  function Remove(s: State, id: Id): State {
    if Buffered(s, id) then DiscardAndRearm(s, id) else s
  }

  /** Remaining lifetime of a buffered packet, reduced by its time in the queue. */
  function Leaving(s: State, id: Id): (Lifetime, int)
    requires Buffered(s, id)
  {
    Reduce(s.byId[id].lifetime, s.now - s.right[id].start)
  }

  function FetchResult(s: State, id: Id): Option<Packet> {
    if Buffered(s, id) && Leaving(s, id).1 > 0
    then Some(s.byId[id].(lifetime := Leaving(s, id).0)) else None
  }

  function Fetch(s: State, id: Id): State {
    Remove(s, id)
  }

  /** Exchange packet, timer and history of an identifier and count one more arrival. */
  function Replace(s: State, p: Packet, x: Slot, h: History): State
    requires Buffered(s, p.id)
  {
    s.(packets := Substitute(s.packets, s.byId[p.id], p),
       byId := s.byId[p.id := p],
       left := Relocate(s.left, s.right[p.id], x),
       right := s.right[p.id := x],
       counters := Increment(s.counters, p.id),
       history := s.history[p.id := h])
  }

  function UpdatedPacket(s: State, id: Id): Packet
    requires Buffered(s, id)
  {
    s.byId[id].(id := id, lifetime := Leaving(s, id).0)
  }

  function UpdatedHistory(s: State, id: Id): History
    requires Buffered(s, id)
  {
    var h := s.history[id];
    h.(updates := h.updates + 1, exact := h.exact && Exact(s.byId[id].lifetime, s.now - s.right[id].start))
  }

  /** The timer starts anew; a pending wake-up is left alone. */
  function Update(s: State, id: Id, timeout: int): State {
    if !Buffered(s, id) then s
    else Replace(s, UpdatedPacket(s, id), Slot(id, s.now + timeout, s.now, s.right[id].node), UpdatedHistory(s, id))
  }

  /** Drop the oldest packets while `extra` more bytes do not fit. */
  function HeadDrop(s: State, extra: nat): State
    decreases |s.packets|
  {
    if s.stored + extra <= s.capacity || s.packets == [] || !Buffered(s, s.packets[0].id)
       || s.byId[s.packets[0].id] != s.packets[0] then s
    else HeadDrop(Discard(s, s.packets[0].id), extra)
  }

  /** Append a packet and its timer. */
  function Append(s: State, p: Packet, timeout: int): State {
    var x := Slot(p.id, s.now + timeout, s.now, s.nodes);
    s.(packets := s.packets + [p],
       byId := s.byId[p.id := p],
       left := InsertSlot(s.left, x),
       right := s.right[p.id := x],
       nodes := s.nodes + 1,
       stored := s.stored + p.length,
       counters := CounterAdd(s.kind, s.counters, p.id),
       history := s.history[p.id := History(s.now, Decode(p.lifetime), 0, true)])
  }

  /** A packet whose identifier is buffered already is dropped. */
  function Place(s: State, p: Packet, timeout: int): State {
    if p.id in s.right then s else Append(s, p, timeout)
  }

  /** Identity of the first timer. */
  function FirstNode(s: State): Option<nat> {
    if s.left == [] then None else Some(s.left[0].node)
  }

  function Add(s: State, p: Packet, timeout: int): State {
    if timeout <= 0 then s
    else
      var r := Place(HeadDrop(s, p.length), p, timeout);
      if FirstNode(r) != FirstNode(s) && r.left != [] then Rearm(r) else r
  }

  /** The first timer has expired: hand out the packet unless its lifetime has ended. */
  function Expire(s: State): State
    requires s.left != [] && Buffered(s, s.left[0].id)
  {
    var x := s.left[0];
    var (lifetime, remaining) := Leaving(s, x.id);
    var o := Out(s.byId[x.id].(lifetime := lifetime), s.now, x.expiry, remaining, s.history[x.id]);
    Discard(s, x.id).(out := if remaining > 0 then s.out + [o] else s.out)
  }

  /** Whether the first timer has expired (and is found by its identifier). */
  predicate FirstExpired(s: State) {
    && s.left != [] && s.left[0].expiry <= s.now
    && Buffered(s, s.left[0].id) && s.right[s.left[0].id] == s.left[0]
  }

  function ExpireAll(s: State): State
    decreases |s.left|
  {
    if !FirstExpired(s) then s else ExpireAll(Expire(s))
  }

  function Flush(s: State): State {
    var r := ExpireAll(s);
    if r.left != [] then Rearm(r) else r
  }

  // ---------------------------------------------------------------------
  // Consistency
  // ---------------------------------------------------------------------

  /** The list and its iterators lead to the same packets, and the byte counter sums up their lengths. */
  ghost predicate PacketsAgree(packets: seq<Packet>, byId: map<Id, Packet>, stored: int) {
    Mirrors(packets, byId, PacketId) && stored == TotalLength(packets)
  }

  /** Both views of the bimap hold the same timers, in order of expiry and with distinct nodes. */
  ghost predicate TimersAgree(left: seq<Slot>, right: map<Id, Slot>, nodes: nat) {
    && Mirrors(left, right, SlotId)
    && Ordered(left)
    && (forall x :: x in left ==> x.node < nodes)
    && (forall x, y :: x in left && y in left && x.node == y.node ==> x == y)
  }

  /** Contending counters exist for buffered packets only and count their arrivals. */
  ghost predicate CountersAgree(kind: CounterKind, counters: map<Id, nat>, history: map<Id, History>) {
    kind.Contending? ==>
      && counters.Keys == history.Keys
      && forall id :: id in history ==> counters[id] == 1 + history[id].updates
  }

  /** Packets, timers and histories are in bijection by identifier, and all counters agree. */
  ghost predicate Consistent(s: State) {
    && PacketsAgree(s.packets, s.byId, s.stored)
    && TimersAgree(s.left, s.right, s.nodes)
    && CountersAgree(s.kind, s.counters, s.history)
    && s.byId.Keys == s.right.Keys == s.history.Keys
  }

  /** Stored bytes fit into the buffer unless a single packet does not. */
  ghost predicate Fits(s: State) {
    s.stored <= s.capacity || |s.packets| == 1
  }

  // --- lists ---

  lemma {:induction false} TotalWithout(packets: seq<Packet>, p: Packet)
    requires p in packets
    ensures TotalLength(packets) == TotalLength(Without(packets, p)) + p.length
  {
    if packets[0] != p {
      TotalWithout(packets[1..], p);
    }
  }

  lemma {:induction false} TotalSubstitute(packets: seq<Packet>, p: Packet, q: Packet)
    requires p.length == q.length
    ensures TotalLength(Substitute(packets, p, q)) == TotalLength(packets)
  {
    if packets != [] && packets[0] != p {
      TotalSubstitute(packets[1..], p, q);
    }
  }

  lemma {:induction false} TotalAppend(packets: seq<Packet>, p: Packet)
    ensures TotalLength(packets + [p]) == TotalLength(packets) + p.length
  {
    if packets == [] {
      assert packets + [p] == [p];
    } else {
      TotalAppend(packets[1..], p);
      assert (packets + [p])[1..] == packets[1..] + [p];
    }
  }

  // --- timers ---

  lemma ConsOrdered(x: Slot, left: seq<Slot>)
    requires Ordered(left) && forall y :: y in left ==> x.expiry <= y.expiry
    ensures Ordered([x] + left)
  {
  }

  /** A new timer is behind all timers that do not expire later, in particular behind those with the same expiry. */
  lemma {:induction false} InsertSlotPosition(left: seq<Slot>, x: Slot) returns (n: nat)
    requires Ordered(left)
    ensures n <= |left| && InsertSlot(left, x) == left[..n] + [x] + left[n..]
    ensures forall i :: 0 <= i < |left| ==> (i < n <==> left[i].expiry <= x.expiry)
  {
    if left == [] || x.expiry < left[0].expiry {
      n := 0;
    } else {
      n := InsertSlotPosition(left[1..], x);
      assert left == [left[0]] + left[1..];
      n := n + 1;
    }
  }

  /** A changed timer keeps its place between its neighbours if its new expiry still fits there. */
  lemma RelocateInPlace(left: seq<Slot>, i: nat, y: Slot)
    requires Ordered(left) && NoDuplicates(left) && i < |left|
    requires (i > 0 ==> left[i - 1].expiry <= y.expiry) && (i + 1 < |left| ==> y.expiry <= left[i + 1].expiry)
    ensures Relocate(left, left[i], y) == left[i := y]
  {
    SubstituteAt(left, i, y);
    var r := left[i := y];
    forall j, k | 0 <= j < k < |r|
      ensures r[j].expiry <= r[k].expiry
    {
      if j == i {
        assert left[i + 1].expiry <= left[k].expiry;
      } else if k == i {
        assert left[j].expiry <= left[i - 1].expiry;
      }
    }
  }

  lemma {:induction false} SubstituteAt(left: seq<Slot>, i: nat, y: Slot)
    requires NoDuplicates(left) && i < |left|
    ensures Substitute(left, left[i], y) == left[i := y]
  {
    if i > 0 {
      assert left[0] != left[i];
      SubstituteAt(left[1..], i - 1, y);
    }
  }

  lemma {:induction false} InsertSlotElements(left: seq<Slot>, x: Slot)
    requires NoDuplicates(left) && x !in left
    ensures NoDuplicates(InsertSlot(left, x))
    ensures forall y :: y in InsertSlot(left, x) <==> y in left || y == x
  {
    if left == [] || x.expiry < left[0].expiry {
      ConsNoDuplicates(x, left);
    } else {
      assert left == [left[0]] + left[1..] && left[0] !in left[1..];
      InsertSlotElements(left[1..], x);
      ConsNoDuplicates(left[0], InsertSlot(left[1..], x));
    }
  }

  lemma {:induction false} InsertSlotOrdered(left: seq<Slot>, x: Slot)
    requires NoDuplicates(left) && x !in left && Ordered(left)
    ensures Ordered(InsertSlot(left, x))
  {
    if left == [] || x.expiry < left[0].expiry {
      ConsOrdered(x, left);
    } else {
      assert left == [left[0]] + left[1..];
      InsertSlotOrdered(left[1..], x);
      InsertSlotElements(left[1..], x);
      ConsOrdered(left[0], InsertSlot(left[1..], x));
    }
  }

  lemma WithoutOrdered(left: seq<Slot>, x: Slot)
    requires Ordered(left)
    ensures Ordered(Without(left, x))
  {
    var cut := WithoutShift(left, x);
  }

  lemma RelocateElements(left: seq<Slot>, x: Slot, y: Slot)
    requires NoDuplicates(left) && Ordered(left) && x in left && (y == x || y !in left)
    ensures NoDuplicates(Relocate(left, x, y)) && Ordered(Relocate(left, x, y))
    ensures forall z :: z in Relocate(left, x, y) <==> (z in left && z != x) || z == y
  {
    SubstituteElements(left, x, y);
    WithoutElements(left, x);
    WithoutOrdered(left, x);
    InsertSlotElements(Without(left, x), y);
    InsertSlotOrdered(Without(left, x), y);
  }

  lemma {:induction false} WithoutInsertSlot(left: seq<Slot>, x: Slot)
    requires x !in left
    ensures Without(InsertSlot(left, x), x) == left
  {
    if left != [] && x.expiry >= left[0].expiry {
      WithoutInsertSlot(left[1..], x);
    }
  }

  /** Changing one timer does not change the order of the others. */
  lemma RelocateKeepsOthers(left: seq<Slot>, x: Slot, y: Slot)
    requires NoDuplicates(left) && x in left && (y == x || y !in left)
    ensures Without(Relocate(left, x, y), y) == Without(left, x)
  {
    WithoutSubstitute(left, x, y);
    WithoutElements(left, x);
    WithoutInsertSlot(Without(left, x), y);
  }

  // --- operations ---

  lemma DiscardTimers(left: seq<Slot>, right: map<Id, Slot>, nodes: nat, id: Id)
    requires TimersAgree(left, right, nodes) && id in right
    ensures TimersAgree(Without(left, right[id]), right - {id}, nodes)
    ensures |Without(left, right[id])| == |left| - 1
  {
    MirrorsRemove(left, right, SlotId, id);
    WithoutOrdered(left, right[id]);
    WithoutElements(left, right[id]);
  }

  lemma DiscardPackets(packets: seq<Packet>, byId: map<Id, Packet>, stored: int, id: Id)
    requires PacketsAgree(packets, byId, stored) && id in byId
    ensures PacketsAgree(Without(packets, byId[id]), byId - {id}, stored - byId[id].length)
    ensures |Without(packets, byId[id])| == |packets| - 1
  {
    MirrorsRemove(packets, byId, PacketId, id);
    WithoutElements(packets, byId[id]);
    TotalWithout(packets, byId[id]);
  }

  lemma DiscardConsistent(s: State, id: Id)
    requires Consistent(s) && Buffered(s, id)
    ensures Consistent(Discard(s, id))
    ensures |Discard(s, id).packets| == |s.packets| - 1 && |Discard(s, id).left| == |s.left| - 1
  {
    hide PacketsAgree, TimersAgree;
    DiscardTimers(s.left, s.right, s.nodes, id);
    DiscardPackets(s.packets, s.byId, s.stored, id);
  }

  lemma UpdateTimers(left: seq<Slot>, right: map<Id, Slot>, nodes: nat, id: Id, x: Slot)
    requires TimersAgree(left, right, nodes)
    requires id in right && x.id == id && x.node == right[id].node
    ensures TimersAgree(Relocate(left, right[id], x), right[id := x], nodes)
  {
    hide Relocate, Ordered;
    assert x in left ==> x == right[id];
    RelocateElements(left, right[id], x);
    MirrorsExchange(left, right, SlotId, id, x, Relocate(left, right[id], x));
  }

  lemma UpdatePackets(packets: seq<Packet>, byId: map<Id, Packet>, stored: int, id: Id, p: Packet)
    requires PacketsAgree(packets, byId, stored) && id in byId && p.id == id && p.length == byId[id].length
    ensures PacketsAgree(Substitute(packets, byId[id], p), byId[id := p], stored)
  {
    MirrorsSubstitute(packets, byId, PacketId, id, p);
    TotalSubstitute(packets, byId[id], p);
  }

  lemma UpdateCounters(kind: CounterKind, counters: map<Id, nat>, history: map<Id, History>, id: Id, h: History)
    requires CountersAgree(kind, counters, history) && id in history && h.updates == history[id].updates + 1
    ensures CountersAgree(kind, Increment(counters, id), history[id := h])
  {
  }

  lemma SameKeys<K, V>(m: map<K, V>, k: K, v: V)
    requires k in m
    ensures m[k := v].Keys == m.Keys
  {
  }

  lemma ReplaceConsistent(s: State, p: Packet, x: Slot, h: History)
    requires Consistent(s) && Buffered(s, p.id)
    requires p.length == s.byId[p.id].length && h.updates == s.history[p.id].updates + 1
    requires x.id == p.id && x.node == s.right[p.id].node
    ensures Consistent(Replace(s, p, x, h))
  {
    hide PacketsAgree, TimersAgree, CountersAgree, Relocate, Substitute, Increment;
    SameKeys(s.byId, p.id, p);
    SameKeys(s.right, p.id, x);
    SameKeys(s.history, p.id, h);
    UpdateCounters(s.kind, s.counters, s.history, p.id, h);
    UpdatePackets(s.packets, s.byId, s.stored, p.id, p);
    UpdateTimers(s.left, s.right, s.nodes, p.id, x);
  }

  lemma UpdateConsistent(s: State, id: Id, timeout: int)
    requires Consistent(s)
    ensures Consistent(Update(s, id, timeout))
  {
    hide Reduce, Exact, Consistent, Replace;
    if Buffered(s, id) {
      ReplaceConsistent(s, UpdatedPacket(s, id), Slot(id, s.now + timeout, s.now, s.right[id].node),
                        UpdatedHistory(s, id));
    }
  }

  lemma KeyOfPacket(s: State, id: Id)
    requires Consistent(s) && Buffered(s, id)
    ensures s.byId[id].id == id && s.right[id].id == id
    ensures s.byId[id] in s.packets && s.right[id] in s.left
  {
  }

  lemma AppendTimers(left: seq<Slot>, right: map<Id, Slot>, nodes: nat, x: Slot)
    requires TimersAgree(left, right, nodes) && x.id !in right && x.node == nodes
    ensures TimersAgree(InsertSlot(left, x), right[x.id := x], nodes + 1)
  {
    hide Ordered;
    assert x !in left;
    InsertSlotElements(left, x);
    InsertSlotOrdered(left, x);
    MirrorsAdd(left, right, SlotId, x, InsertSlot(left, x));
  }

  lemma AppendPackets(packets: seq<Packet>, byId: map<Id, Packet>, stored: int, p: Packet)
    requires PacketsAgree(packets, byId, stored) && p.id !in byId
    ensures PacketsAgree(packets + [p], byId[p.id := p], stored + p.length)
  {
    assert p !in packets;
    MirrorsAdd(packets, byId, PacketId, p, packets + [p]);
    TotalAppend(packets, p);
  }

  lemma AppendConsistent(s: State, p: Packet, timeout: int)
    requires Consistent(s) && p.id !in s.right
    ensures Consistent(Append(s, p, timeout))
  {
    hide PacketsAgree, TimersAgree, InsertSlot, Decode;
    AppendTimers(s.left, s.right, s.nodes, Slot(p.id, s.now + timeout, s.now, s.nodes));
    AppendPackets(s.packets, s.byId, s.stored, p);
  }

  /** Rearming, time and logs do not matter for consistency. */
  lemma RearmConsistent(s: State)
    requires Consistent(s) && s.left != []
    ensures Consistent(Rearm(s))
  {
  }

  lemma RemoveConsistent(s: State, id: Id)
    requires Consistent(s)
    ensures Consistent(Remove(s, id))
  {
    hide Consistent;
    if Buffered(s, id) {
      DiscardConsistent(s, id);
      if Discard(s, id).left != [] {
        RearmConsistent(Discard(s, id));
      }
    }
  }

  lemma {:induction false} HeadDropConsistent(s: State, extra: nat)
    requires Consistent(s)
    ensures Consistent(HeadDrop(s, extra))
    decreases |s.packets|
  {
    hide Consistent;
    var r := HeadDrop(s, extra);
    if r != s {
      DiscardConsistent(s, s.packets[0].id);
      HeadDropConsistent(Discard(s, s.packets[0].id), extra);
    }
  }

  lemma AddConsistent(s: State, p: Packet, timeout: int)
    requires Consistent(s)
    ensures Consistent(Add(s, p, timeout))
  {
    hide Consistent, HeadDrop, Append;
    if timeout > 0 {
      HeadDropConsistent(s, p.length);
      var dropped := HeadDrop(s, p.length);
      if p.id !in dropped.right {
        AppendConsistent(dropped, p, timeout);
      }
      var r := Place(dropped, p, timeout);
      if r.left != [] {
        RearmConsistent(r);
      }
    }
  }

  lemma ExpireConsistent(s: State)
    requires Consistent(s) && FirstExpired(s)
    ensures Consistent(Expire(s)) && |Expire(s).left| == |s.left| - 1
  {
    DiscardConsistent(s, s.left[0].id);
  }

  lemma {:induction false} ExpireAllConsistent(s: State)
    requires Consistent(s)
    ensures Consistent(ExpireAll(s))
    decreases |s.left|
  {
    hide Consistent, Expire;
    if FirstExpired(s) {
      ExpireConsistent(s);
      ExpireAllConsistent(Expire(s));
    }
  }

  lemma FlushConsistent(s: State)
    requires Consistent(s)
    ensures Consistent(Flush(s))
  {
    hide Consistent, ExpireAll;
    ExpireAllConsistent(s);
    if ExpireAll(s).left != [] {
      RearmConsistent(ExpireAll(s));
    }
  }
}
