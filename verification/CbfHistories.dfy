/**
 * What becomes of a single packet during a run of the contention based forwarding buffer, told by the operations of
 * the run: when it has entered, how often it has been updated since, and what is left of its lifetime.
 */
module CbfHistories {
  import opened Sequences
  import opened Lifetimes
  import opened Runtime
  import opened CbfModel
  import opened CbfRuns

  /** The packet is inserted: it is not buffered, or head drop has just evicted it. */
  predicate Enters(s: State, op: Op, id: Id) {
    op.AddPacket? && op.packet.id == id && op.timeout > 0 && id !in HeadDrop(s, op.packet.length).right
  }

  /** The timer of the buffered packet is updated. */
  predicate Updates(s: State, op: Op, id: Id) {
    op.UpdateTimer? && op.id == id && Buffered(s, id)
  }

  // ---------------------------------------------------------------------
  // One operation
  // ---------------------------------------------------------------------

  /** Nothing has changed for a packet that is still buffered. */
  ghost predicate Untouched(s: State, r: State, id: Id) {
    Buffered(r, id) ==>
      Buffered(s, id) && r.byId[id] == s.byId[id] && r.right[id] == s.right[id] && r.history[id] == s.history[id]
  }

  ghost predicate JustEntered(r: State, p: Packet, timeout: int, now: int) {
    && Buffered(r, p.id) && r.byId[p.id] == p && r.right[p.id].start == now && r.right[p.id].expiry == now + timeout
    && r.history[p.id] == History(now, Decode(p.lifetime), 0, true)
  }

  lemma RemainsUntouched(r: State, s: State, id: Id)
    requires Remains(r, s)
    ensures Untouched(s, r, id)
  {
  }

  lemma AddOne(s: State, p: Packet, timeout: int, id: Id)
    requires Consistent(s)
    ensures if Enters(s, AddPacket(p, timeout), id) then JustEntered(Add(s, p, timeout), p, timeout, s.now)
            else Untouched(s, Add(s, p, timeout), id)
  {
    hide HeadDrop, Consistent, InsertSlot, Decode, CounterAdd;
    HeadDropRemains(s, p.length);
  }

  lemma RemoveOne(s: State, other: Id, id: Id)
    requires Consistent(s)
    ensures Untouched(s, Remove(s, other), id)
  {
    if Buffered(s, other) {
      DiscardRemains(s, other);
      hide Consistent, Discard;
      RemainsUntouched(Discard(s, other), s, id);
    }
  }

  lemma UpdateOther(s: State, other: Id, timeout: int, id: Id)
    requires Consistent(s) && other != id
    ensures Untouched(s, Update(s, other, timeout), id)
  {
    if Buffered(s, other) {
      KeyOfPacket(s, other);
      hide Consistent, Relocate, Substitute, Leaving, UpdatedHistory, Increment;
    }
  }

  lemma WakeOne(s: State, id: Id)
    requires Consistent(s) && s.wakes != []
    ensures Untouched(s, Flush(s.(wakes := s.wakes[1..])), id)
  {
    var q := s.(wakes := s.wakes[1..]);
    assert Consistent(q);
    hide Consistent, ExpireAll;
    ExpireAllTimers(q);
    RemainsUntouched(ExpireAll(q), q, id);
  }

  /** Unless a packet enters or is updated, an operation does not touch it. */
  lemma StepOne(s: State, op: Op, id: Id)
    requires Invariant(s) && Enabled(s, op)
    ensures Enters(s, op, id) ==> JustEntered(Step(s, op), op.packet, op.timeout, s.now)
    ensures !Enters(s, op, id) && !Updates(s, op, id) ==> Untouched(s, Step(s, op), id)
  {
    hide Consistent, Add, Remove, Update, Flush, HeadDrop;
    match op {
      case AddPacket(p, timeout) => AddOne(s, p, timeout, id);
      case RemovePacket(other) => RemoveOne(s, other, id);
      case FetchPacket(other) => RemoveOne(s, other, id);
      case UpdateTimer(other, timeout) =>
        if other != id {
          UpdateOther(s, other, timeout, id);
        } else if !Buffered(s, id) {
          UnknownIsIgnored(s, id, timeout);
        }
      case Advance(to) =>
      case Wake => WakeOne(s, id);
    }
  }

  lemma UpdateOne(s: State, id: Id, timeout: int)
    requires Consistent(s) && Buffered(s, id)
    ensures var r := Update(s, id, timeout);
      && Buffered(r, id) && r.right[id].start == s.now && r.right[id].expiry == s.now + timeout && r.now == s.now
      && r.byId[id] == s.byId[id].(lifetime := Leaving(s, id).0) && r.history[id] == UpdatedHistory(s, id)
  {
    KeyOfPacket(s, id);
    hide Consistent, Relocate, Substitute, Leaving, UpdatedHistory, Increment;
  }

  // ---------------------------------------------------------------------
  // The operations since the latest entry
  // ---------------------------------------------------------------------

  /** Latest entry of a packet: when, and as what. */
  datatype Entry = Entry(at: int, packet: Packet)

  function LastEntry(s: State, ops: seq<Op>, id: Id): Option<Entry> {
    if ops == [] then None
    else
      var n := |ops| - 1;
      var before := Run(s, ops[..n]);
      if Enters(before, ops[n], id) then Some(Entry(before.now, ops[n].packet))
      else LastEntry(s, ops[..n], id)
  }

  /** Expiry that the latest entry or update has asked for. */
  function LastExpiry(s: State, ops: seq<Op>, id: Id): int {
    if ops == [] then 0
    else
      var n := |ops| - 1;
      var before := Run(s, ops[..n]);
      if Enters(before, ops[n], id) || Updates(before, ops[n], id) then before.now + ops[n].timeout
      else LastExpiry(s, ops[..n], id)
  }

  /** Number of updates since the latest entry. */
  function UpdatesSince(s: State, ops: seq<Op>, id: Id): nat {
    if ops == [] then 0
    else
      var n := |ops| - 1;
      var before := Run(s, ops[..n]);
      if Enters(before, ops[n], id) then 0
      else UpdatesSince(s, ops[..n], id) + if Updates(before, ops[n], id) then 1 else 0
  }

  /** No update since the latest entry had to round the remaining lifetime. */
  predicate NeverRounded(s: State, ops: seq<Op>, id: Id) {
    if ops == [] then true
    else
      var n := |ops| - 1;
      var before := Run(s, ops[..n]);
      if Enters(before, ops[n], id) then true
      else if Updates(before, ops[n], id) then NeverRounded(s, ops[..n], id) && ExactUpdate(before, id)
      else NeverRounded(s, ops[..n], id)
  }

  /** An update now would not have to round. */
  predicate ExactUpdate(s: State, id: Id)
    requires Buffered(s, id)
  {
    Exact(s.byId[id].lifetime, s.now - s.right[id].start)
  }

  /** Lifetime that should be left. */
  function LeftOver(e: Entry, now: int): int {
    NonNegative(Decode(e.packet.lifetime) - (now - e.at))
  }

  /** The field of a buffered packet holds the lifetime that should be left now. */
  predicate FieldExact(r: State, e: Option<Entry>, id: Id) {
    Buffered(r, id) && e.Some? && Decode(r.byId[id].lifetime) == LeftOver(e.value, r.now)
  }

  /** This has been the case after each update since the latest entry. */
  predicate AlwaysExact(s: State, ops: seq<Op>, id: Id) {
    if ops == [] then true
    else
      var n := |ops| - 1;
      var before := Run(s, ops[..n]);
      if Enters(before, ops[n], id) then true
      else if Updates(before, ops[n], id)
      then AlwaysExact(s, ops[..n], id) && FieldExact(Run(s, ops), LastEntry(s, ops, id), id)
      else AlwaysExact(s, ops[..n], id)
  }

  /** The history kept beside a buffered packet is the one told by the operations. */
  ghost predicate Recorded(s: State, ops: seq<Op>, id: Id) {
    var r, e := Run(s, ops), LastEntry(s, ops, id);
    Buffered(r, id) ==>
      && e.Some? && r.byId[id] == e.value.packet.(lifetime := r.byId[id].lifetime)
      && r.history[id].born == e.value.at && r.history[id].original == Decode(e.value.packet.lifetime)
      && r.right[id].expiry == LastExpiry(s, ops, id)
      && r.history[id].updates == UpdatesSince(s, ops, id)
      && r.history[id].exact == NeverRounded(s, ops, id)
      && (NeverRounded(s, ops, id) <==> AlwaysExact(s, ops, id))
  }

  /** As long as no update has rounded, an update leaves an exact field if and only if it does not round either. */
  lemma UpdateExactIff(s: State, id: Id, timeout: int)
    requires Consistent(s) && AllAccounted(s) && Buffered(s, id) && s.history[id].exact
    ensures var r := Update(s, id, timeout);
      && Buffered(r, id)
      && (Decode(r.byId[id].lifetime) == NonNegative(Ideal(r.history[id], r.now)) <==> ExactUpdate(s, id))
  {
    hide Consistent, AllAccounted, Update, Reduce, Decode, Exact, NonNegative;
    var h, x, l := s.history[id], s.right[id], s.byId[id].lifetime;
    UpdateOne(s, id, timeout);
    AccountedExact(s, id);
    ReduceExact(l, Ideal(h, x.start), s.now - x.start);
  }

  lemma AccountedExact(s: State, id: Id)
    requires AllAccounted(s) && Buffered(s, id) && s.history[id].exact
    ensures Decode(s.byId[id].lifetime) == NonNegative(Ideal(s.history[id], s.right[id].start))
    ensures s.right[id].start <= s.now
  {
    assert Accounted(s.byId[id], s.right[id], s.history[id], s.now);
  }

  /** What an update does to a recorded packet. */
  lemma UpdateRecord(s: State, op: Op, id: Id)
    requires Invariant(s) && Updates(s, op, id)
    ensures var r, h := Step(s, op), s.history[id];
      && Buffered(r, id) && r.now == s.now && r.right[id].expiry == s.now + op.timeout
      && r.byId[id] == s.byId[id].(lifetime := r.byId[id].lifetime)
      && r.history[id] == h.(updates := h.updates + 1, exact := h.exact && ExactUpdate(s, id))
      && (h.exact ==> (Decode(r.byId[id].lifetime) == NonNegative(Ideal(h, s.now)) <==> ExactUpdate(s, id)))
  {
    assert Consistent(s) && AllAccounted(s);
    hide Invariant, Consistent, AllAccounted, Update, Decode, Leaving;
    UpdateOne(s, id, op.timeout);
    if s.history[id].exact {
      UpdateExactIff(s, id, op.timeout);
    }
  }

  lemma RecordedAfterUpdate(s: State, ops: seq<Op>, op: Op, id: Id)
    requires Invariant(Run(s, ops)) && Recorded(s, ops, id) && Updates(Run(s, ops), op, id)
    ensures Recorded(s, ops + [op], id)
  {
    hide Invariant, Step, HeadDrop, Decode, ExactUpdate;
    var all, before := ops + [op], Run(s, ops);
    assert all[..|all| - 1] == ops && all[|all| - 1] == op;
    assert Run(s, all) == Step(before, op);
    UpdateRecord(before, op, id);
  }

  lemma RecordedAfterEntry(s: State, ops: seq<Op>, op: Op, id: Id)
    requires Enters(Run(s, ops), op, id) && JustEntered(Step(Run(s, ops), op), op.packet, op.timeout, Run(s, ops).now)
    ensures Recorded(s, ops + [op], id)
  {
    var all, before := ops + [op], Run(s, ops);
    assert all[..|all| - 1] == ops && all[|all| - 1] == op;
    assert Run(s, all) == Step(before, op);
    hide Step, HeadDrop, Decode;
  }

  lemma RecordedUntouched(s: State, ops: seq<Op>, op: Op, id: Id)
    requires Recorded(s, ops, id) && !Enters(Run(s, ops), op, id) && !Updates(Run(s, ops), op, id)
    requires Untouched(Run(s, ops), Step(Run(s, ops), op), id)
    ensures Recorded(s, ops + [op], id)
  {
    var all, before := ops + [op], Run(s, ops);
    assert all[..|all| - 1] == ops && all[|all| - 1] == op;
    assert Run(s, all) == Step(before, op);
    hide Step, Enters, Updates, Decode;
  }

  lemma RecordedMore(s: State, ops: seq<Op>, op: Op, id: Id)
    requires Invariant(Run(s, ops)) && Enabled(Run(s, ops), op) && Recorded(s, ops, id)
    ensures Recorded(s, ops + [op], id)
  {
    hide Invariant, Enabled, Recorded, Updates, Enters, Run, JustEntered, Untouched;
    StepOne(Run(s, ops), op, id);
    if Updates(Run(s, ops), op, id) {
      RecordedAfterUpdate(s, ops, op, id);
    } else if Enters(Run(s, ops), op, id) {
      RecordedAfterEntry(s, ops, op, id);
    } else {
      RecordedUntouched(s, ops, op, id);
    }
  }

  lemma NothingRecorded(capacity: nat, kind: CounterKind, now: int, id: Id)
    ensures Recorded(Init(capacity, kind, now), [], id)
  {
  }

  lemma {:induction false} RunRecorded(capacity: nat, kind: CounterKind, now: int, ops: seq<Op>, id: Id)
    requires Legal(Init(capacity, kind, now), ops)
    ensures Recorded(Init(capacity, kind, now), ops, id)
  {
    hide Recorded, Invariant, Enabled, Run, Init;
    if ops == [] {
      NothingRecorded(capacity, kind, now, id);
    } else {
      var n := |ops| - 1;
      RunRecorded(capacity, kind, now, ops[..n], id);
      RunInvariant(capacity, kind, now, ops[..n]);
      RecordedMore(Init(capacity, kind, now), ops[..n], ops[n], id);
      assert ops[..n] + [ops[n]] == ops;
    }
  }

  // ---------------------------------------------------------------------
  // Counters and lifetimes in every run
  // ---------------------------------------------------------------------

  /** A contending counter is one plus the number of updates since entry, and zero for all other packets. */
  lemma CounterMeaning(capacity: nat, now: int, ops: seq<Op>, id: Id)
    requires Legal(Init(capacity, Contending, now), ops)
    ensures var s := Init(capacity, Contending, now);
      Counter(Run(s, ops).counters, id) == if Buffered(Run(s, ops), id) then 1 + UpdatesSince(s, ops, id) else 0
  {
    RunInvariant(capacity, Contending, now, ops);
    RunRecorded(capacity, Contending, now, ops, id);
    hide Run, UpdatesSince, LastEntry, LastExpiry, NeverRounded, AlwaysExact;
  }

  /** The field of a buffered packet is exact after every update since its entry iff no update has rounded. */
  lemma ExactIffNeverRounded(capacity: nat, kind: CounterKind, now: int, ops: seq<Op>, id: Id)
    requires var s := Init(capacity, kind, now); Legal(s, ops) && Buffered(Run(s, ops), id)
    ensures var s := Init(capacity, kind, now); AlwaysExact(s, ops, id) <==> NeverRounded(s, ops, id)
  {
    RunRecorded(capacity, kind, now, ops, id);
    hide Run, UpdatesSince, LastEntry, LastExpiry, NeverRounded, AlwaysExact;
  }

  /**
   * What is left of a packet that leaves now is exact if and only if its field was exact when the timer was
   * started, or both the field and the ideal lifetime have ended by now.
   */
  lemma LeavingExactIff(s: State, id: Id)
    requires AllAccounted(s) && Buffered(s, id)
    ensures var h, x, l := s.history[id], s.right[id], Decode(s.byId[id].lifetime);
      Leaving(s, id).1 == NonNegative(Ideal(h, s.now)) <==>
      l == NonNegative(Ideal(h, x.start)) || (l <= s.now - x.start && Ideal(h, s.now) <= 0)
  {
    assert Accounted(s.byId[id], s.right[id], s.history[id], s.now);
    hide Decode, Encode, Near;
  }

  /**
   * Lifetime accounting in every reachable state: what is left when a packet leaves deviates from the lifetime at
   * its entry minus the time since then by at most half a step of the field per update. If no update had to round,
   * there is no deviation and the packet is handed out exactly if lifetime is left.
   */
  lemma LifetimeAccounting(capacity: nat, kind: CounterKind, now: int, ops: seq<Op>, id: Id)
    requires var s := Init(capacity, kind, now); Legal(s, ops) && Buffered(Run(s, ops), id)
    ensures var s := Init(capacity, kind, now);
      var r, e := Run(s, ops), LastEntry(s, ops, id);
      && e.Some?
      && var left, ideal := Leaving(r, id).1, LeftOver(e.value, r.now);
      && var slack := UpdatesSince(s, ops, id) * HalfStep(Decode(e.value.packet.lifetime));
      && -slack <= left - ideal <= slack
      && (NeverRounded(s, ops, id) ==> left == ideal && (FetchResult(r, id).Some? <==> ideal > 0))
  {
    var r := Run(Init(capacity, kind, now), ops);
    RunInvariant(capacity, kind, now, ops);
    RunRecorded(capacity, kind, now, ops, id);
    hide Run, UpdatesSince, LastEntry, LastExpiry, NeverRounded, AlwaysExact, Consistent, Accounted, Reduce;
    LeavingAccounted(r, id);
  }

  // ---------------------------------------------------------------------
  // Overdue and ageless packets in runs of a new buffer
  // ---------------------------------------------------------------------

  lemma RunMore(s: State, ops: seq<Op>, op: Op)
    ensures Run(s, ops + [op]) == Step(Run(s, ops), op)
    ensures Legal(s, ops + [op]) <==> Legal(s, ops) && Enabled(Run(s, ops), op)
  {
    assert (ops + [op])[..|ops|] == ops;
  }

  lemma AddToEmpty(s: State, p: Packet, timeout: int)
    requires timeout > 0 && s.packets == [] && s.left == [] && s.right == map[]
    ensures var r := Add(s, p, timeout);
      && r.now == s.now && r.wakes == [s.now + timeout]
      && Buffered(r, p.id) && r.byId[p.id] == p && r.right[p.id].start == s.now
      && r.history[p.id].born == s.now && r.history[p.id].original == Decode(p.lifetime)
  {
    hide Decode, CounterAdd;
    assert HeadDrop(s, p.length) == s;
    hide HeadDrop;
  }

  /** A new buffer holds the first packet and wakes up when its timer expires. */
  lemma FirstPacket(s: State, p: Packet, timeout: int)
    requires timeout > 0 && s == Init(s.capacity, s.kind, s.now)
    ensures var r := Run(s, [AddPacket(p, timeout)]);
      && Legal(s, [AddPacket(p, timeout)]) && Invariant(r)
      && r.now == s.now && r.wakes == [s.now + timeout]
      && Buffered(r, p.id) && r.byId[p.id] == p && r.right[p.id].start == s.now
      && r.history[p.id].born == s.now && r.history[p.id].original == Decode(p.lifetime)
  {
    AddToEmpty(s, p, timeout);
    var op := AddPacket(p, timeout);
    assert Run(s, []) == s && Legal(s, []) && Step(s, op) == Add(s, p, timeout);
    hide Run, Legal, Invariant, Decode, Step, Add;
    RunMore(s, [], op);
    assert [] + [op] == [op];
    RunInvariant(s.capacity, s.kind, s.now, [op]);
  }

  /** In this run of a new buffer the packet is overdue although the runtime has nothing to fire. */
  lemma OverdueFromStart(s: State, p: Packet, long: int, short: int)
    requires 0 < short < long && s == Init(s.capacity, s.kind, s.now)
    ensures var ops := [AddPacket(p, long), UpdateTimer(p.id, short), Advance(s.now + short)];
      var r := Run(s, ops);
      Legal(s, ops) && !WakeDue(r) && p.id in r.right && r.right[p.id].expiry <= r.now
  {
    var add, update, advance := AddPacket(p, long), UpdateTimer(p.id, short), Advance(s.now + short);
    FirstPacket(s, p, long);
    var q := Run(s, [add]);
    NowKept(q, p.id, short);
    hide Run, Legal, Invariant, Step;
    OverdueAfterEarlyUpdate(q, p.id, short, s.now + short);
    RunMore(s, [add], update);
    assert [add] + [update] == [add, update];
    RunMore(s, [add, update], advance);
    assert [add, update] + [advance] == [add, update, advance];
  }

  lemma NowKept(s: State, id: Id, timeout: int)
    ensures Update(s, id, timeout).now == s.now && Update(s, id, timeout).wakes == s.wakes
    ensures Step(s, UpdateTimer(id, timeout)) == Update(s, id, timeout)
    ensures Enabled(s, UpdateTimer(id, timeout))
  {
    hide Relocate, Substitute, UpdatedPacket, UpdatedHistory, Increment;
  }

  /** The operations of repeated updates, starting at a given time. */
  function Renewing(id: Id, now: int, renewals: seq<Renewal>): seq<Op> {
    if renewals == [] then []
    else
      var n := |renewals| - 1;
      Renewing(id, now, renewals[..n]) + [Advance(now + Elapsed(renewals))] + [UpdateTimer(id, renewals[n].timeout)]
  }

  lemma RenewOnce(s: State, ops: seq<Op>, id: Id, to: int, timeout: int)
    requires Legal(s, ops) && Run(s, ops).now <= to
    ensures var q, all := Run(s, ops), ops + [Advance(to)] + [UpdateTimer(id, timeout)];
      && Legal(s, all) && Run(s, all) == Update(q.(now := to), id, timeout)
      && Run(s, all).now == to && Run(s, all).wakes == q.wakes
  {
    hide Run, Legal, Update;
    RunMore(s, ops, Advance(to));
    RunMore(s, ops + [Advance(to)], UpdateTimer(id, timeout));
    NowKept(Run(s, ops).(now := to), id, timeout);
  }

  lemma {:induction false} RunRenewing(s: State, ops: seq<Op>, id: Id, renewals: seq<Renewal>)
    requires Legal(s, ops) && forall i :: 0 <= i < |renewals| ==> 0 <= renewals[i].gap
    ensures var q, all := Run(s, ops), ops + Renewing(id, Run(s, ops).now, renewals);
      && Legal(s, all) && Run(s, all) == Refresh(q, id, renewals)
      && Run(s, all).now == q.now + Elapsed(renewals) && Run(s, all).wakes == q.wakes
  {
    hide Run, Legal, Update;
    var now := Run(s, ops).now;
    if renewals == [] {
      assert ops + Renewing(id, now, renewals) == ops;
    } else {
      var n := |renewals| - 1;
      RunRenewing(s, ops, id, renewals[..n]);
      var before := ops + Renewing(id, now, renewals[..n]);
      RenewOnce(s, before, id, now + Elapsed(renewals), renewals[n].timeout);
      assert ops + Renewing(id, now, renewals) ==
             before + [Advance(now + Elapsed(renewals))] + [UpdateTimer(id, renewals[n].timeout)];
    }
  }

  /**
   * In these runs of a new buffer a packet does not age, however long they take. If the packet's first timeout is
   * longer than that, the runtime has nothing to fire meanwhile.
   */
  lemma AgelessFromStart(s: State, p: Packet, timeout: int, renewals: seq<Renewal>)
    requires s == Init(s.capacity, s.kind, s.now) && 0 < Decode(p.lifetime) && 0 < timeout
    requires QuickSuccession(Decode(p.lifetime), renewals)
    ensures var ops := [AddPacket(p, timeout)] + Renewing(p.id, s.now, renewals);
      var r := Run(s, ops);
      && Legal(s, ops) && r.now == s.now + Elapsed(renewals) && (Elapsed(renewals) < timeout ==> !WakeDue(r))
      && FetchResult(r, p.id).Some? && Decode(r.byId[p.id].lifetime) == Decode(p.lifetime)
      && Ideal(r.history[p.id], r.now) == Decode(p.lifetime) - Elapsed(renewals)
  {
    FirstPacket(s, p, timeout);
    var q := Run(s, [AddPacket(p, timeout)]);
    RunRenewing(s, [AddPacket(p, timeout)], p.id, renewals);
    hide Run, Legal, Invariant, Decode, QuickSuccession, Renewing, Elapsed, Refresh;
    FrequentUpdatesStopAging(q, p.id, renewals);
  }
}
