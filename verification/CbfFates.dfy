/**
 * How packets leave the contention based forwarding buffer: every entry ends in exactly one way, and whatever is passed
 * on is the packet that has entered, with its lifetime reduced.
 */
module CbfFates {
  import opened Sequences
  import opened Lifetimes
  import opened Runtime
  import opened CbfModel
  import opened CbfRuns
  import opened CbfHistories

  // ---------------------------------------------------------------------
  // One operation
  // ---------------------------------------------------------------------

  /** Everything about a packet is as before. */
  ghost predicate Same(s: State, r: State, id: Id) {
    && (Buffered(r, id) <==> Buffered(s, id))
    && (Buffered(s, id) ==>
          r.byId[id] == s.byId[id] && r.right[id] == s.right[id] && r.history[id] == s.history[id] &&
          Counter(r.counters, id) == Counter(s.counters, id))
  }

  /** A removed packet is gone, and nothing else has changed. The same holds for a fetched one. */
  lemma RemoveMeaning(s: State, id: Id, other: Id)
    requires Consistent(s) && other != id
    ensures !Buffered(Remove(s, id), id) && Same(s, Remove(s, id), other) && Remove(s, id).out == s.out
    ensures Fetch(s, id) == Remove(s, id)
  {
    hide Consistent, Without;
  }

  /** Exactly the packets whose timer has expired leave by a flush. */
  lemma FlushMeaning(s: State, id: Id)
    requires Consistent(s)
    ensures Buffered(Flush(s), id) <==> Buffered(s, id) && s.now < s.right[id].expiry
  {
    ExpireAllTimers(s);
    ExpireAllConsistent(s);
    var r := ExpireAll(s);
    if Buffered(r, id) {
      KeyOfPacket(r, id);
    }
    if Buffered(s, id) {
      KeyOfPacket(s, id);
      if s.now < s.right[id].expiry {
        InTimers(r, s.right[id]);
      }
    }
    hide ExpireAll, Consistent;
  }

  lemma InTimers(r: State, x: Slot)
    requires Consistent(r) && x in r.left
    ensures Buffered(r, x.id)
  {
  }

  // ---------------------------------------------------------------------
  // The log of packets handed to the callback
  // ---------------------------------------------------------------------

  /** Number of times that packets with this identifier have been handed out. */
  function Deliveries(out: seq<Out>, id: Id): nat {
    if out == [] then 0
    else Deliveries(out[..|out| - 1], id) + if out[|out| - 1].packet.id == id then 1 else 0
  }

  lemma DeliveriesMore(out: seq<Out>, o: Out, id: Id)
    ensures Deliveries(out + [o], id) == Deliveries(out, id) + if o.packet.id == id then 1 else 0
  {
    assert (out + [o])[..|out|] == out;
  }

  /** The timer of a buffered packet has expired. */
  predicate TimedOut(s: State, id: Id) {
    Buffered(s, id) && s.right[id].expiry <= s.now
  }

  /** An entry of the log tells what has been handed out of this state. */
  ghost predicate HandedOutOf(s: State, o: Out) {
    && TimedOut(s, o.packet.id)
    && o.packet == s.byId[o.packet.id].(lifetime := Leaving(s, o.packet.id).0)
    && o.at == s.now && o.expiry == s.right[o.packet.id].expiry && o.remaining == Leaving(s, o.packet.id).1 > 0
  }

  /** What the expiry of the first timer adds to the log. */
  lemma ExpireDelivers(s: State, id: Id)
    requires Consistent(s) && FirstExpired(s)
    ensures var x, out := s.left[0], Expire(s).out;
      && Deliveries(out, id) == Deliveries(s.out, id) + (if x.id == id && Leaving(s, id).1 > 0 then 1 else 0)
      && s.out <= out
      && forall i :: |s.out| <= i < |out| ==> HandedOutOf(s, out[i])
  {
    var x := s.left[0];
    KeyOfPacket(s, x.id);
    var (lifetime, remaining) := Leaving(s, x.id);
    var o := Out(s.byId[x.id].(lifetime := lifetime), s.now, x.expiry, remaining, s.history[x.id]);
    DeliveriesMore(s.out, o, id);
    hide Consistent, Discard, Leaving, Deliveries;
  }

  lemma StillHandedOut(q: State, s: State, o: Out)
    requires Remains(q, s) && HandedOutOf(q, o)
    ensures HandedOutOf(s, o)
  {
  }

  lemma AllHandedOut(s: State, q: State, out: seq<Out>)
    requires Remains(q, s) && s.out <= q.out <= out
    requires forall i :: |s.out| <= i < |q.out| ==> HandedOutOf(s, q.out[i])
    requires forall i :: |q.out| <= i < |out| ==> HandedOutOf(q, out[i])
    ensures forall i :: |s.out| <= i < |out| ==> HandedOutOf(s, out[i])
  {
    forall i | |s.out| <= i < |out|
      ensures HandedOutOf(s, out[i])
    {
      hide HandedOutOf, Remains;
      if i < |q.out| {
        assert out[i] == q.out[i];
      } else {
        StillHandedOut(q, s, out[i]);
      }
    }
  }

  /** A flush hands out each packet with expired timer once if lifetime is left, and no other packet. */
  lemma {:induction false} ExpireAllDelivers(s: State, id: Id)
    requires Consistent(s)
    ensures var out := ExpireAll(s).out;
      && Deliveries(out, id) == Deliveries(s.out, id) + (if TimedOut(s, id) && Leaving(s, id).1 > 0 then 1 else 0)
      && s.out <= out
      && forall i :: |s.out| <= i < |out| ==> HandedOutOf(s, out[i])
    decreases |s.left|
  {
    if FirstExpired(s) {
      var q := Expire(s);
      ExpireConsistent(s);
      ExpireRemains(s);
      ExpireDelivers(s, id);
      ExpireTimedOut(s, id);
      hide Consistent, Expire, Deliveries, Leaving, HandedOutOf, Remains, TimedOut;
      ExpireAllDelivers(q, id);
      AllHandedOut(s, q, ExpireAll(q).out);
    } else {
      NoneExpired(s);
      if Buffered(s, id) {
        KeyOfPacket(s, id);
      }
    }
  }

  /** The expiry of the first timer does not concern other packets. */
  lemma ExpireTimedOut(s: State, id: Id)
    requires Consistent(s) && FirstExpired(s)
    ensures var q, first := Expire(s), s.left[0].id;
      && TimedOut(s, first) && !TimedOut(q, first)
      && (id != first ==> (TimedOut(q, id) <==> TimedOut(s, id)))
      && (id != first && TimedOut(s, id) ==> Leaving(q, id) == Leaving(s, id))
  {
    hide Consistent, Without, Reduce;
  }

  /** A flush hands out packets in the order of their expiry. */
  lemma {:induction false} ExpireAllOrdered(s: State, i: nat, j: nat)
    requires Consistent(s) && |s.out| <= i <= j < |ExpireAll(s).out|
    ensures ExpireAll(s).out[i].expiry <= ExpireAll(s).out[j].expiry
    decreases |s.left|
  {
    if FirstExpired(s) {
      var q := Expire(s);
      ExpireConsistent(s);
      ExpireDelivers(s, s.left[0].id);
      ExpireLogs(s);
      ExpireAllDelivers(q, s.left[0].id);
      ExpireAllDelivers(s, s.left[0].id);
      if |q.out| <= i {
        hide Consistent, Expire, Deliveries, Leaving;
        ExpireAllOrdered(q, i, j);
      } else {
        var id := ExpireAll(s).out[j].packet.id;
        KeyOfPacket(s, id);
        FirstIsEarliest(s.left, s.left[0].expiry);
        FirstDelivered(s);
        hide Consistent, Expire, ExpireAll, Deliveries, Leaving;
      }
    }
  }

  lemma FirstDelivered(s: State)
    requires Consistent(s) && FirstExpired(s)
    ensures forall i :: |s.out| <= i < |Expire(s).out| ==> Expire(s).out[i].expiry == s.left[0].expiry
  {
    hide Consistent, Discard, Reduce;
  }

  // ---------------------------------------------------------------------
  // Each entry has exactly one fate
  // ---------------------------------------------------------------------

  datatype Fate = Removed | Fetched | Evicted | Delivered | Ended

  /** The operation makes a buffered packet leave, and how. */
  predicate Leaves(s: State, op: Op, id: Id, fate: Fate) {
    Buffered(s, id) &&
      match fate
      case Removed => op == RemovePacket(id)
      case Fetched => op == FetchPacket(id)
      case Evicted => op.AddPacket? && op.timeout > 0 && id !in HeadDrop(s, op.packet.length).right
      case Delivered => op.Wake? && TimedOut(s, id) && Leaving(s, id).1 > 0
      case Ended => op.Wake? && TimedOut(s, id) && Leaving(s, id).1 <= 0
  }

  function One(b: bool): nat {
    if b then 1 else 0
  }

  /** Number of fates that the operation brings upon a packet. */
  function Exits(s: State, op: Op, id: Id): nat {
    One(Leaves(s, op, id, Removed)) + One(Leaves(s, op, id, Fetched)) + One(Leaves(s, op, id, Evicted)) +
    One(Leaves(s, op, id, Delivered)) + One(Leaves(s, op, id, Ended))
  }

  lemma KeysAgree(s: State, id: Id)
    requires Consistent(s)
    ensures id in s.right <==> Buffered(s, id)
  {
  }

  lemma PlaceBuffered(s: State, p: Packet, timeout: int, id: Id)
    requires p.id in s.right <==> Buffered(s, p.id)
    ensures Buffered(Place(s, p, timeout), id) <==> Buffered(s, id) || id == p.id
  {
    hide InsertSlot, Decode, CounterAdd;
  }

  lemma AddBuffered(s: State, p: Packet, timeout: int, id: Id)
    requires timeout > 0
    ensures Buffered(Add(s, p, timeout), id) <==> Buffered(Place(HeadDrop(s, p.length), p, timeout), id)
  {
    hide HeadDrop, Place;
  }

  lemma HeadDropBuffered(s: State, extra: nat, id: Id)
    requires Consistent(s)
    ensures var h := HeadDrop(s, extra);
      Consistent(h) && (Buffered(h, id) ==> Buffered(s, id)) && (id in h.right <==> Buffered(h, id))
  {
    hide Consistent, HeadDrop;
    HeadDropConsistent(s, extra);
    HeadDropRemains(s, extra);
    KeysAgree(HeadDrop(s, extra), id);
  }

  /** A packet has entered or left with the operation, and the log tells about its delivery. */
  ghost predicate Balanced(s: State, op: Op, r: State, id: Id) {
    && One(Buffered(r, id)) + Exits(s, op, id) == One(Buffered(s, id)) + One(Enters(s, op, id))
    && Deliveries(r.out, id) == Deliveries(s.out, id) + One(Leaves(s, op, id, Delivered))
  }

  lemma AddBalance(s: State, p: Packet, timeout: int, id: Id)
    requires Consistent(s)
    ensures Balanced(s, AddPacket(p, timeout), Add(s, p, timeout), id)
  {
    hide HeadDrop, Consistent, Place, Deliveries;
    AddOut(s, p, timeout);
    if timeout > 0 {
      hide Add;
      HeadDropBuffered(s, p.length, id);
      HeadDropBuffered(s, p.length, p.id);
      PlaceBuffered(HeadDrop(s, p.length), p, timeout, id);
      AddBuffered(s, p, timeout, id);
    }
  }

  /** The runtime has fired the first wake-up. */
  function Woken(s: State): State
    requires s.wakes != []
  {
    s.(wakes := s.wakes[1..])
  }

  lemma WokenSame(s: State, id: Id)
    requires Consistent(s) && s.wakes != []
    ensures var q := Woken(s);
      && Consistent(q) && (Buffered(q, id) <==> Buffered(s, id)) && (TimedOut(q, id) <==> TimedOut(s, id))
      && (Buffered(s, id) ==> Leaving(q, id) == Leaving(s, id) && q.right[id] == s.right[id])
      && q.now == s.now && q.out == s.out && Step(s, Wake) == Flush(q) && Flush(q).out == ExpireAll(q).out
  {
    hide Mirrors, ExpireAll, Reduce;
  }

  lemma WakeBalance(s: State, id: Id)
    requires Consistent(s) && s.wakes != []
    ensures Balanced(s, Wake, Step(s, Wake), id)
  {
    hide Consistent, ExpireAll, Leaving, Deliveries, HeadDrop, Flush, Woken, Step;
    WokenSame(s, id);
    FlushMeaning(Woken(s), id);
    ExpireAllDelivers(Woken(s), id);
  }

  lemma RemoveBalance(s: State, op: Op, other: Id, id: Id)
    requires Consistent(s) && (op == RemovePacket(other) || op == FetchPacket(other))
    ensures Balanced(s, op, Remove(s, other), id) && Remove(s, other).out == s.out
  {
    hide Consistent, Remove, Deliveries, Same;
    if other == id {
      RemoveMeaning(s, id, Id(id.source + 1, 0));
    } else {
      RemoveMeaning(s, other, id);
      StillBuffered(s, Remove(s, other), id);
    }
  }

  lemma StillBuffered(s: State, r: State, id: Id)
    requires Same(s, r, id)
    ensures Buffered(r, id) <==> Buffered(s, id)
  {
  }

  lemma UpdateBalance(s: State, other: Id, timeout: int, id: Id)
    ensures Balanced(s, UpdateTimer(other, timeout), Update(s, other, timeout), id)
    ensures Update(s, other, timeout).out == s.out
  {
    hide Relocate, Substitute, Leaving, UpdatedHistory, Increment, Deliveries;
  }

  lemma AdvanceBalance(s: State, to: int, id: Id)
    ensures Balanced(s, Advance(to), s.(now := to), id)
  {
    hide Deliveries, Leaving;
  }

  lemma StepBalance(s: State, op: Op, id: Id)
    requires Invariant(s) && Enabled(s, op)
    ensures Balanced(s, op, Step(s, op), id)
  {
    assert Consistent(s);
    hide Invariant, Consistent, Add, Remove, Update, Flush, Balanced;
    match op {
      case AddPacket(p, timeout) => AddBalance(s, p, timeout, id);
      case RemovePacket(other) => RemoveBalance(s, op, other, id);
      case FetchPacket(other) => RemoveBalance(s, op, other, id);
      case UpdateTimer(other, timeout) => UpdateBalance(s, other, timeout, id);
      case Advance(to) => AdvanceBalance(s, to, id);
      case Wake => WakeBalance(s, id);
    }
  }

  /** Number of entries of a packet during a run. */
  function EntriesOf(s: State, ops: seq<Op>, id: Id): nat {
    if ops == [] then 0
    else EntriesOf(s, ops[..|ops| - 1], id) + One(Enters(Run(s, ops[..|ops| - 1]), ops[|ops| - 1], id))
  }

  /** Number of times that a packet has met a fate during a run. */
  function Times(s: State, ops: seq<Op>, id: Id, fate: Fate): nat {
    if ops == [] then 0
    else Times(s, ops[..|ops| - 1], id, fate) + One(Leaves(Run(s, ops[..|ops| - 1]), ops[|ops| - 1], id, fate))
  }

  /**
   * Conservation: in every run, each entry of a packet has ended in exactly one way unless the packet is still
   * buffered, and the callback has seen it exactly as often as it was delivered.
   */
  lemma {:induction false} ExactlyOneFate(capacity: nat, kind: CounterKind, now: int, ops: seq<Op>, id: Id)
    requires Legal(Init(capacity, kind, now), ops)
    ensures var s := Init(capacity, kind, now);
      && EntriesOf(s, ops, id) == Times(s, ops, id, Removed) + Times(s, ops, id, Fetched) + Times(s, ops, id, Evicted) +
           Times(s, ops, id, Delivered) + Times(s, ops, id, Ended) + One(Buffered(Run(s, ops), id))
      && Deliveries(Run(s, ops).out, id) == Times(s, ops, id, Delivered)
  {
    var s := Init(capacity, kind, now);
    if ops != [] {
      var n := |ops| - 1;
      hide Invariant, Enabled, Step, Leaves, Enters, Deliveries;
      ExactlyOneFate(capacity, kind, now, ops[..n], id);
      RunInvariant(capacity, kind, now, ops[..n]);
      StepBalance(Run(s, ops[..n]), ops[n], id);
    }
  }

  /** A packet does not enter during the operations that follow a run. */
  ghost predicate NoEntry(s: State, ops: seq<Op>, more: seq<Op>, id: Id) {
    forall n :: 0 <= n < |more| ==> !Enters(Run(s, ops + more[..n]), more[n], id)
  }

  lemma StaysGone(s: State, op: Op, r: State, id: Id)
    requires Balanced(s, op, r, id) && !Buffered(s, id) && !Enters(s, op, id)
    ensures !Buffered(r, id) && Deliveries(r.out, id) == Deliveries(s.out, id)
  {
    hide Enters, Deliveries;
  }

  lemma NoEntryBefore(s: State, ops: seq<Op>, more: seq<Op>, n: nat, id: Id)
    requires NoEntry(s, ops, more, id) && n <= |more|
    ensures NoEntry(s, ops, more[..n], id)
  {
    hide Run, Enters;
    assert forall k :: 0 <= k < n ==> more[..n][..k] == more[..k];
  }

  /** A packet that has left is neither buffered nor handed out again unless it enters anew. */
  lemma {:induction false} GoneForGood(capacity: nat, kind: CounterKind, now: int,
                                       ops: seq<Op>, more: seq<Op>, id: Id)
    requires var s := Init(capacity, kind, now);
      Legal(s, ops + more) && !Buffered(Run(s, ops), id) && NoEntry(s, ops, more, id)
    ensures var s := Init(capacity, kind, now);
      && !Buffered(Run(s, ops + more), id)
      && Deliveries(Run(s, ops + more).out, id) == Deliveries(Run(s, ops).out, id)
  {
    var s := Init(capacity, kind, now);
    hide Invariant, Enabled, Step, Enters, Deliveries, Run, Balanced, Init;
    if more == [] {
      assert ops + more == ops;
    } else {
      var n := |more| - 1;
      var before := ops + more[..n];
      assert before + [more[n]] == ops + more;
      assert !Enters(Run(s, before), more[n], id);
      NoEntryBefore(s, ops, more, n, id);
      hide NoEntry;
      RunMore(s, before, more[n]);
      hide Legal;
      GoneForGood(capacity, kind, now, ops, more[..n], id);
      RunInvariant(capacity, kind, now, before);
      StepBalance(Run(s, before), more[n], id);
      StaysGone(Run(s, before), more[n], Run(s, ops + more), id);
    }
  }

  // ---------------------------------------------------------------------
  // What is handed out
  // ---------------------------------------------------------------------

  /**
   * After a run a packet p is passed on for a buffered one: it is the packet that has entered, except that its lifetime
   * is what should be left, up to half a step for each update and for leaving. If no update has rounded, it is
   * exact if and only if the leaving does not round either.
   */
  ghost predicate PassedOn(s: State, ops: seq<Op>, id: Id, p: Packet) {
    var r, e := Run(s, ops), LastEntry(s, ops, id);
    && Buffered(r, id) && e.Some?
    && p.id == id && p == e.value.packet.(lifetime := p.lifetime)
    && var left := LeftOver(e.value, r.now);
    && var slack := (UpdatesSince(s, ops, id) + 1) * HalfStep(Decode(e.value.packet.lifetime));
    && -slack <= Decode(p.lifetime) - left <= slack
    && (NeverRounded(s, ops, id) ==> (Decode(p.lifetime) == left <==> ExactUpdate(r, id)))
  }

  lemma LeavingNear(s: State, id: Id)
    requires AllAccounted(s) && Buffered(s, id)
    ensures var h, l := s.history[id], Decode(Leaving(s, id).0);
      && 0 <= h.original
      && -(Slack(h) + HalfStep(h.original)) <= l - NonNegative(Ideal(h, s.now)) <= Slack(h) + HalfStep(h.original)
      && (h.exact ==> (l == NonNegative(Ideal(h, s.now)) <==> ExactUpdate(s, id)))
  {
    var h, x, l := s.history[id], s.right[id], s.byId[id].lifetime;
    assert Accounted(s.byId[id], x, h, s.now);
    hide Reduce, Decode, Slack, Exact;
    ReduceNear(l, Ideal(h, x.start), Slack(h), h.original, s.now - x.start);
    if h.exact {
      ReduceExact(l, Ideal(h, x.start), s.now - x.start);
    }
  }

  lemma SlackIs(h: History)
    requires 0 <= h.original
    ensures Slack(h) + HalfStep(h.original) == (h.updates + 1) * HalfStep(h.original)
  {
  }

  lemma LeavingPassedOn(capacity: nat, kind: CounterKind, now: int, ops: seq<Op>, id: Id)
    requires var s := Init(capacity, kind, now); Legal(s, ops) && Buffered(Run(s, ops), id)
    ensures var s := Init(capacity, kind, now);
      PassedOn(s, ops, id, Run(s, ops).byId[id].(lifetime := Leaving(Run(s, ops), id).0))
  {
    var s := Init(capacity, kind, now);
    var r := Run(s, ops);
    hide Run, UpdatesSince, LastEntry, LastExpiry, NeverRounded, AlwaysExact, Consistent, AllAccounted, Leaving;
    hide Decode, HalfStep, ExactUpdate, Init, Slack, Legal;
    RunInvariant(capacity, kind, now, ops);
    RunRecorded(capacity, kind, now, ops, id);
    KeyOfPacket(r, id);
    LeavingNear(r, id);
    SlackIs(r.history[id]);
  }

  /** A fetched packet is passed on like that. */
  lemma FetchPassesOn(capacity: nat, kind: CounterKind, now: int, ops: seq<Op>, id: Id)
    requires Legal(Init(capacity, kind, now), ops)
    ensures var s := Init(capacity, kind, now);
      var p := FetchResult(Run(s, ops), id);
      p.Some? ==> PassedOn(s, ops, id, p.value)
  {
    var s := Init(capacity, kind, now);
    hide PassedOn, Run, Legal;
    if Buffered(Run(s, ops), id) {
      LeavingPassedOn(capacity, kind, now, ops, id);
    }
  }

  /** The n-th operation has handed out this entry of the log, not before the latest expiry asked for. */
  ghost predicate DeliveredBy(s: State, ops: seq<Op>, n: nat, o: Out) {
    && n < |ops| && ops[n].Wake?
    && PassedOn(s, ops[..n], o.packet.id, o.packet)
    && o.at == Run(s, ops[..n]).now
    && o.expiry == LastExpiry(s, ops[..n], o.packet.id) <= o.at
  }

  lemma FlushDelivers(s: State)
    requires Consistent(s) && s.wakes != []
    ensures var out := Step(s, Wake).out;
      s.out <= out && forall i :: |s.out| <= i < |out| ==> HandedOutOf(s, out[i])
  {
    hide Consistent, ExpireAll, Deliveries, Reduce, Flush, Step, HandedOutOf;
    var out := Step(s, Wake).out;
    WokenSame(s, Id(0, 0));
    ExpireAllDelivers(Woken(s), Id(0, 0));
    forall i | |s.out| <= i < |out|
      ensures HandedOutOf(s, out[i])
    {
      WokenHandsOut(s, out[i]);
    }
  }

  lemma WokenHandsOut(s: State, o: Out)
    requires s.wakes != [] && HandedOutOf(Woken(s), o)
    ensures HandedOutOf(s, o)
  {
    hide Reduce;
  }

  lemma OnlyWakeDelivers(s: State, op: Op)
    requires Consistent(s) && (op.Wake? ==> s.wakes != [])
    ensures s.out <= Step(s, op).out
    ensures forall i :: |s.out| <= i < |Step(s, op).out| ==> op.Wake? && HandedOutOf(s, Step(s, op).out[i])
  {
    hide Consistent, Add, Remove, Update, Flush, HandedOutOf;
    match op {
      case AddPacket(p, timeout) => AddOut(s, p, timeout);
      case RemovePacket(id) => RemoveBalance(s, op, id, id);
      case FetchPacket(id) => RemoveBalance(s, op, id, id);
      case UpdateTimer(id, timeout) => UpdateBalance(s, id, timeout, id);
      case Advance(to) =>
      case Wake => FlushDelivers(s);
    }
  }

  lemma HandedOutPassedOn(capacity: nat, kind: CounterKind, now: int, ops: seq<Op>, o: Out)
    requires var s := Init(capacity, kind, now); Legal(s, ops) && HandedOutOf(Run(s, ops), o)
    ensures var s := Init(capacity, kind, now);
      && PassedOn(s, ops, o.packet.id, o.packet)
      && o.at == Run(s, ops).now && o.expiry == LastExpiry(s, ops, o.packet.id) <= o.at
  {
    hide PassedOn, Legal;
    LeavingPassedOn(capacity, kind, now, ops, o.packet.id);
    RunRecorded(capacity, kind, now, ops, o.packet.id);
    hide Run, LastExpiry, LastEntry, UpdatesSince, NeverRounded, AlwaysExact, Leaving, Decode;
  }

  lemma DeliveredEarlier(s: State, ops: seq<Op>, m: nat, n: nat, o: Out)
    requires m <= |ops| && DeliveredBy(s, ops[..m], n, o)
    ensures DeliveredBy(s, ops, n, o)
  {
    assert ops[..m][..n] == ops[..n];
    hide PassedOn, LastExpiry, Run;
  }

  /** In every run, each entry of the log has been delivered by some wake-up. */
  lemma {:induction false} RunDelivers(capacity: nat, kind: CounterKind, now: int, ops: seq<Op>, i: nat)
    returns (n: nat)
    requires var s := Init(capacity, kind, now); Legal(s, ops) && i < |Run(s, ops).out|
    ensures var s := Init(capacity, kind, now); DeliveredBy(s, ops, n, Run(s, ops).out[i])
  {
    var s := Init(capacity, kind, now);
    if ops != [] {
      var m := |ops| - 1;
      var before, after := Run(s, ops[..m]), Run(s, ops);
      assert after == Step(before, ops[m]) && Legal(s, ops[..m]) && Enabled(before, ops[m]);
      RunInvariant(capacity, kind, now, ops[..m]);
      assert Consistent(before);
      hide Step, PassedOn, HandedOutOf, LastExpiry, Invariant, Consistent, Run, Legal, Init;
      OnlyWakeDelivers(before, ops[m]);
      if i < |before.out| {
        n := RunDelivers(capacity, kind, now, ops[..m], i);
        DeliveredEarlier(s, ops, m, n, after.out[i]);
      } else {
        n := m;
        HandedOutPassedOn(capacity, kind, now, ops[..m], after.out[i]);
      }
    }
  }
}
