/**
 * ManualRuntime: clock and queue of scheduled callbacks, triggered by hand.
 *
 * A scope identifies the object that has scheduled a callback; scope zero is the null pointer.
 * Callbacks are identified by numbers. What a callback does is a list of actions on the queue.
 */
module Runtime {

  datatype Event = Event(deadline: int, callback: nat, scope: nat)

  datatype Action = Schedule(event: Event) | Cancel(scope: nat)

  // ---------------------------------------------------------------------
  // The queue, in firing order
  // ---------------------------------------------------------------------

  ghost predicate Sorted(q: seq<Event>) {
    forall i, j :: 0 <= i < j < |q| ==> q[i].deadline <= q[j].deadline
  }

  /** New events are placed behind all events with the same deadline. */
  function Insert(q: seq<Event>, e: Event): seq<Event> {
    if q == [] || e.deadline < q[0].deadline then [e] + q else [q[0]] + Insert(q[1..], e)
  }

  /** Erase all events of a scope; the null pointer has no effect. */
  function Erase(q: seq<Event>, scope: nat): seq<Event> {
    if q == [] || scope == 0 then q
    else if q[0].scope == scope then Erase(q[1..], scope)
    else [q[0]] + Erase(q[1..], scope)
  }

  /** Events that Erase takes away. */
  function Erased(q: seq<Event>, scope: nat): seq<Event> {
    if q == [] || scope == 0 then []
    else if q[0].scope == scope then [q[0]] + Erased(q[1..], scope)
    else Erased(q[1..], scope)
  }

  /** Deadlines of all events of one scope. */
  function Deadlines(q: seq<Event>, scope: nat): seq<int> {
    if q == [] then []
    else (if q[0].scope == scope then [q[0].deadline] else []) + Deadlines(q[1..], scope)
  }

  /** Events of all other scopes. */
  function Foreign(q: seq<Event>, scope: nat): seq<Event> {
    if q == [] then []
    else (if q[0].scope == scope then [] else [q[0]]) + Foreign(q[1..], scope)
  }

  lemma ConsSorted(e: Event, q: seq<Event>)
    requires Sorted(q) && forall x :: x in q ==> e.deadline <= x.deadline
    ensures Sorted([e] + q)
  {
  }

  /** An event fires after all events that are not later, in particular after those with the same deadline. */
  lemma {:induction false} InsertPosition(q: seq<Event>, e: Event) returns (n: nat)
    requires Sorted(q)
    ensures n <= |q| && Insert(q, e) == q[..n] + [e] + q[n..]
    ensures forall i :: 0 <= i < |q| ==> (i < n <==> q[i].deadline <= e.deadline)
  {
    if q == [] || e.deadline < q[0].deadline {
      n := 0;
    } else {
      n := InsertPosition(q[1..], e);
      assert q == [q[0]] + q[1..];
      n := n + 1;
    }
  }

  lemma {:induction false} InsertBag(q: seq<Event>, e: Event)
    ensures multiset(Insert(q, e)) == multiset(q) + multiset{e}
  {
    if q != [] && e.deadline >= q[0].deadline {
      InsertBag(q[1..], e);
      assert q == [q[0]] + q[1..];
    }
  }

  lemma {:induction false} InsertElements(q: seq<Event>, e: Event)
    ensures forall x :: x in Insert(q, e) <==> x in q || x == e
  {
    if q != [] && e.deadline >= q[0].deadline {
      InsertElements(q[1..], e);
      assert q == [q[0]] + q[1..];
    }
  }

  lemma {:induction false} InsertSorted(q: seq<Event>, e: Event)
    requires Sorted(q)
    ensures Sorted(Insert(q, e))
  {
    if q == [] || e.deadline < q[0].deadline {
      ConsSorted(e, q);
    } else {
      InsertSorted(q[1..], e);
      InsertElements(q[1..], e);
      ConsSorted(q[0], Insert(q[1..], e));
    }
  }

  lemma {:induction false} EraseElements(q: seq<Event>, scope: nat)
    requires scope != 0
    ensures forall x :: x in Erase(q, scope) <==> x in q && x.scope != scope
    ensures forall x :: x in Erased(q, scope) <==> x in q && x.scope == scope
  {
    if q != [] {
      EraseElements(q[1..], scope);
      assert q == [q[0]] + q[1..];
    }
  }

  lemma {:induction false} EraseBag(q: seq<Event>, scope: nat)
    ensures multiset(q) == multiset(Erase(q, scope)) + multiset(Erased(q, scope))
  {
    if q != [] && scope != 0 {
      EraseBag(q[1..], scope);
      assert q == [q[0]] + q[1..];
    }
  }

  lemma {:induction false} EraseSorted(q: seq<Event>, scope: nat)
    requires Sorted(q)
    ensures Sorted(Erase(q, scope))
  {
    if q != [] && scope != 0 {
      EraseSorted(q[1..], scope);
      EraseElements(q[1..], scope);
      if q[0].scope != scope {
        ConsSorted(q[0], Erase(q[1..], scope));
      }
    }
  }

  lemma {:induction false} EraseScope(q: seq<Event>, scope: nat)
    requires scope != 0
    ensures Deadlines(Erase(q, scope), scope) == [] && Foreign(Erase(q, scope), scope) == Foreign(q, scope)
  {
    if q != [] {
      EraseScope(q[1..], scope);
    }
  }

  /** The only event of its scope is found by it, and other scopes are not affected. */
  lemma {:induction false} InsertScope(q: seq<Event>, e: Event)
    requires Deadlines(q, e.scope) == []
    ensures Deadlines(Insert(q, e), e.scope) == [e.deadline] && Foreign(Insert(q, e), e.scope) == Foreign(q, e.scope)
  {
    if q == [] || e.deadline < q[0].deadline {
    } else {
      InsertScope(q[1..], e);
    }
  }

  /** Events of other scopes do not matter. */
  lemma {:induction false} InsertOther(q: seq<Event>, e: Event, scope: nat)
    requires e.scope != scope
    ensures Deadlines(Insert(q, e), scope) == Deadlines(q, scope)
  {
    if q != [] && e.deadline >= q[0].deadline {
      InsertOther(q[1..], e, scope);
    }
  }

  lemma {:induction false} EraseOther(q: seq<Event>, other: nat, scope: nat)
    requires other != scope
    ensures Deadlines(Erase(q, other), scope) == Deadlines(q, scope)
  {
    if q != [] && other != 0 {
      EraseOther(q[1..], other, scope);
    }
  }

  lemma {:induction false} DeadlinesElements(q: seq<Event>, scope: nat)
    ensures forall e :: e in q && e.scope == scope ==> e.deadline in Deadlines(q, scope)
    ensures forall d :: d in Deadlines(q, scope) ==> exists e :: e in q && e.scope == scope && e.deadline == d
  {
    if q != [] {
      DeadlinesElements(q[1..], scope);
      assert q == [q[0]] + q[1..];
    }
  }

  // ---------------------------------------------------------------------
  // The event loop
  // ---------------------------------------------------------------------

  /**
   * What the callbacks do: depending on the state W of all objects, on the event being fired
   * and on the current time, the objects change and actions are performed on the queue.
   */
  type Behaviour<!W> = (W, Event, int) -> (W, seq<Action>)

  /** A run of trigger() at time `now`, with logs of everything that happened to events. */
  datatype Loop<W> = Loop(now: int, queue: seq<Event>, world: W,
                          fired: seq<Event>, added: multiset<Event>, erased: multiset<Event>)

  function Perform<W>(s: Loop<W>, a: Action): Loop<W> {
    match a
    case Schedule(e) => s.(queue := Insert(s.queue, e), added := s.added + multiset{e})
    case Cancel(scope) => s.(queue := Erase(s.queue, scope), erased := s.erased + multiset(Erased(s.queue, scope)))
  }

  function PerformAll<W>(s: Loop<W>, actions: seq<Action>): Loop<W> {
    if actions == [] then s
    else Perform(PerformAll(s, actions[..|actions| - 1]), actions[|actions| - 1])
  }

  predicate Due<W>(s: Loop<W>) {
    s.queue != [] && s.queue[0].deadline <= s.now
  }

  /** The first event leaves the queue before its callback runs. */
  function Pop<W>(s: Loop<W>): Loop<W>
    requires s.queue != []
  {
    s.(queue := s.queue[1..], fired := s.fired + [s.queue[0]])
  }

  /** Fire the first event of the queue. */
  function Fire<W>(beh: Behaviour<W>, s: Loop<W>): Loop<W>
    requires Due(s)
  {
    var (w, actions) := beh(s.world, s.queue[0], s.now);
    PerformAll(Pop(s).(world := w), actions)
  }

  /** State of the loop after at most n firings. */
  function Iterate<W>(beh: Behaviour<W>, s: Loop<W>, n: nat): Loop<W> {
    if n == 0 then s
    else
      var before := Iterate(beh, s, n - 1);
      if Due(before) then Fire(beh, before) else before
  }

  function Start<W>(now: int, queue: seq<Event>, world: W): Loop<W> {
    Loop(now, queue, world, [], multiset{}, multiset{})
  }

  // ---------------------------------------------------------------------
  // No event is lost
  // ---------------------------------------------------------------------

  /** Every event is exactly one of fired, erased by a cancellation or still queued. */
  ghost predicate Balanced<W>(initial: multiset<Event>, s: Loop<W>) {
    initial + s.added == multiset(s.fired) + s.erased + multiset(s.queue)
  }

  lemma PopBalanced<W>(initial: multiset<Event>, s: Loop<W>)
    requires Balanced(initial, s) && s.queue != []
    ensures Balanced(initial, Pop(s))
  {
    assert s.queue == [s.queue[0]] + s.queue[1..];
  }

  lemma PerformBalanced<W>(initial: multiset<Event>, s: Loop<W>, a: Action)
    requires Balanced(initial, s)
    ensures Balanced(initial, Perform(s, a))
  {
    match a
    case Schedule(e) =>
      InsertBag(s.queue, e);
      assert initial + (s.added + multiset{e}) == (initial + s.added) + multiset{e};
    case Cancel(scope) =>
      EraseBag(s.queue, scope);
  }

  lemma {:induction false} PerformAllBalanced<W>(initial: multiset<Event>, s: Loop<W>, actions: seq<Action>)
    requires Balanced(initial, s)
    ensures Balanced(initial, PerformAll(s, actions))
  {
    if actions != [] {
      PerformAllBalanced(initial, s, actions[..|actions| - 1]);
      PerformBalanced(initial, PerformAll(s, actions[..|actions| - 1]), actions[|actions| - 1]);
    }
  }

  lemma FireBalanced<W>(beh: Behaviour<W>, initial: multiset<Event>, s: Loop<W>)
    requires Balanced(initial, s) && Due(s)
    ensures Balanced(initial, Fire(beh, s))
  {
    PopBalanced(initial, s);
    var (w, actions) := beh(s.world, s.queue[0], s.now);
    assert Balanced(initial, Pop(s).(world := w));
    hide Balanced, Pop;
    PerformAllBalanced(initial, Pop(s).(world := w), actions);
  }

  /** Whatever the callbacks do, no event is lost and none is fired twice. */
  lemma {:induction false} NoEventLost<W>(beh: Behaviour<W>, now: int, queue: seq<Event>, world: W, n: nat)
    ensures Balanced(multiset(queue), Iterate(beh, Start(now, queue, world), n))
  {
    if n > 0 {
      hide Balanced, Fire;
      NoEventLost(beh, now, queue, world, n - 1);
      var s := Iterate(beh, Start(now, queue, world), n - 1);
      if Due(s) {
        FireBalanced(beh, multiset(queue), s);
      }
    }
  }

  // ---------------------------------------------------------------------
  // Events fire in the order of their deadlines
  // ---------------------------------------------------------------------

  /** No callback schedules anything for a time that has passed already. */
  ghost predicate NeverPast<W(!new)>(beh: Behaviour<W>, now: int) {
    forall w: W, e: Event, a :: a in beh(w, e, now).1 && a.Schedule? ==> now <= a.event.deadline
  }

  ghost predicate InOrder<W>(s: Loop<W>) {
    && Sorted(s.queue)
    && Sorted(s.fired)
    && (forall x, y :: x in s.fired && y in s.queue ==> x.deadline <= y.deadline)
    && (forall x :: x in s.fired ==> x.deadline <= s.now)
  }

  lemma PopInOrder<W>(s: Loop<W>)
    requires InOrder(s) && Due(s)
    ensures InOrder(Pop(s))
  {
  }

  lemma PerformInOrder<W>(s: Loop<W>, a: Action)
    requires InOrder(s) && (a.Schedule? ==> s.now <= a.event.deadline)
    ensures InOrder(Perform(s, a))
  {
    match a
    case Schedule(e) =>
      InsertSorted(s.queue, e);
      InsertElements(s.queue, e);
    case Cancel(scope) =>
      if scope != 0 {
        EraseSorted(s.queue, scope);
        EraseElements(s.queue, scope);
      }
  }

  lemma {:induction false} PerformAllInOrder<W>(s: Loop<W>, actions: seq<Action>)
    requires InOrder(s) && forall a :: a in actions && a.Schedule? ==> s.now <= a.event.deadline
    ensures InOrder(PerformAll(s, actions)) && PerformAll(s, actions).now == s.now
  {
    if actions != [] {
      PerformAllInOrder(s, actions[..|actions| - 1]);
      PerformInOrder(PerformAll(s, actions[..|actions| - 1]), actions[|actions| - 1]);
    }
  }

  /** Deadlines are fired in non-decreasing order, at any point of the loop. */
  lemma {:induction false} FiresInOrder<W(!new)>(beh: Behaviour<W>, now: int, queue: seq<Event>, world: W, n: nat)
    requires Sorted(queue) && NeverPast(beh, now)
    ensures var s := Iterate(beh, Start(now, queue, world), n); s.now == now && InOrder(s)
  {
    if n > 0 {
      FiresInOrder(beh, now, queue, world, n - 1);
      var s := Iterate(beh, Start(now, queue, world), n - 1);
      if Due(s) {
        PopInOrder(s);
        PerformAllInOrder(Pop(s).(world := beh(s.world, s.queue[0], now).0), beh(s.world, s.queue[0], now).1);
      }
    }
  }

  // ---------------------------------------------------------------------
  // Cancelled events never fire
  // ---------------------------------------------------------------------

  /** Events of the scope that are queued now, or have fired since state s, have been added since then. */
  ghost predicate OnlyAdded<W>(s: Loop<W>, r: Loop<W>, scope: nat) {
    && s.fired <= r.fired
    && (forall e :: s.added[e] <= r.added[e])
    && (forall e :: e in r.queue && e.scope == scope ==> s.added[e] < r.added[e])
    && (forall i :: |s.fired| <= i < |r.fired| && r.fired[i].scope == scope ==>
          s.added[r.fired[i]] < r.added[r.fired[i]])
  }

  lemma PerformOnlyAdded<W>(s: Loop<W>, r: Loop<W>, a: Action, scope: nat)
    requires OnlyAdded(s, r, scope)
    ensures OnlyAdded(s, Perform(r, a), scope)
  {
    match a
    case Schedule(e) =>
      InsertElements(r.queue, e);
    case Cancel(other) =>
      if other != 0 {
        EraseElements(r.queue, other);
      }
  }

  lemma {:induction false} PerformAllOnlyAdded<W>(s: Loop<W>, r: Loop<W>, actions: seq<Action>, scope: nat)
    requires OnlyAdded(s, r, scope)
    ensures OnlyAdded(s, PerformAll(r, actions), scope)
  {
    if actions != [] {
      PerformAllOnlyAdded(s, r, actions[..|actions| - 1], scope);
      hide OnlyAdded;
      PerformOnlyAdded(s, PerformAll(r, actions[..|actions| - 1]), actions[|actions| - 1], scope);
    }
  }

  lemma PopOnlyAdded<W>(s: Loop<W>, r: Loop<W>, world: W, scope: nat)
    requires OnlyAdded(s, r, scope) && r.queue != []
    ensures OnlyAdded(s, Pop(r).(world := world), scope)
  {
  }

  lemma {:induction false} IterateOnlyAdded<W>(beh: Behaviour<W>, s: Loop<W>, r: Loop<W>, scope: nat, n: nat)
    requires OnlyAdded(s, r, scope)
    ensures OnlyAdded(s, Iterate(beh, r, n), scope)
  {
    if n > 0 {
      IterateOnlyAdded(beh, s, r, scope, n - 1);
      hide OnlyAdded;
      var q := Iterate(beh, r, n - 1);
      if Due(q) {
        var (w, actions) := beh(q.world, q.queue[0], q.now);
        PopOnlyAdded(s, q, w, scope);
        PerformAllOnlyAdded(s, Pop(q).(world := w), actions, scope);
      }
    }
  }

  lemma CancelOnlyAdded<W>(s: Loop<W>, scope: nat)
    requires scope != 0
    ensures var q := Perform(s, Cancel(scope)); OnlyAdded(q, q, scope)
  {
    EraseElements(s.queue, scope);
  }

  /**
   * After a cancellation only events that are scheduled anew can fire for this scope. The cancellation takes place
   * at any point: before the loop, or by a callback in the middle of it that performs further actions afterwards.
   */
  lemma CancelledNeverFires<W>(beh: Behaviour<W>, s: Loop<W>, scope: nat, rest: seq<Action>, n: nat)
    requires scope != 0
    ensures var q := Perform(s, Cancel(scope)); OnlyAdded(q, Iterate(beh, PerformAll(q, rest), n), scope)
  {
    hide OnlyAdded, Perform, PerformAll;
    CancelOnlyAdded(s, scope);
    var q := Perform(s, Cancel(scope));
    PerformAllOnlyAdded(q, q, rest, scope);
    IterateOnlyAdded(beh, q, PerformAll(q, rest), scope, n);
  }

  // ---------------------------------------------------------------------
  // Termination
  // ---------------------------------------------------------------------

  /** Callbacks schedule for later only. */
  ghost predicate StrictlyLater<W(!new)>(beh: Behaviour<W>, now: int) {
    forall w: W, e: Event, a :: a in beh(w, e, now).1 && a.Schedule? ==> now < a.event.deadline
  }

  function CountDue(q: seq<Event>, now: int): nat {
    if q == [] then 0 else (if q[0].deadline <= now then 1 else 0) + CountDue(q[1..], now)
  }

  lemma {:induction false} CountInsert(q: seq<Event>, e: Event, now: int)
    requires now < e.deadline
    ensures CountDue(Insert(q, e), now) == CountDue(q, now)
  {
    if q != [] && e.deadline >= q[0].deadline {
      CountInsert(q[1..], e, now);
    }
  }

  lemma {:induction false} CountErase(q: seq<Event>, scope: nat, now: int)
    ensures CountDue(Erase(q, scope), now) <= CountDue(q, now)
  {
    if q != [] && scope != 0 {
      CountErase(q[1..], scope, now);
    }
  }

  lemma {:induction false} CountPerformAll<W>(s: Loop<W>, actions: seq<Action>)
    requires forall a :: a in actions && a.Schedule? ==> s.now < a.event.deadline
    ensures PerformAll(s, actions).now == s.now
    ensures CountDue(PerformAll(s, actions).queue, s.now) <= CountDue(s.queue, s.now)
  {
    if actions != [] {
      var before, a := PerformAll(s, actions[..|actions| - 1]), actions[|actions| - 1];
      CountPerformAll(s, actions[..|actions| - 1]);
      match a
      case Schedule(e) => CountInsert(before.queue, e, s.now);
      case Cancel(scope) => CountErase(before.queue, scope, s.now);
    }
  }

  /** Every firing uses up one due event. */
  lemma CountFire<W(!new)>(beh: Behaviour<W>, s: Loop<W>)
    requires Due(s) && StrictlyLater(beh, s.now)
    ensures Fire(beh, s).now == s.now && CountDue(Fire(beh, s).queue, s.now) < CountDue(s.queue, s.now)
  {
    var (w, actions) := beh(s.world, s.queue[0], s.now);
    CountPerformAll(Pop(s).(world := w), actions);
  }

  /** The loop ends after at most as many firings as there are due events. */
  lemma {:induction false} Terminates<W(!new)>(beh: Behaviour<W>, s: Loop<W>, n: nat)
    requires StrictlyLater(beh, s.now)
    ensures var r := Iterate(beh, s, n);
      r.now == s.now && (!Due(r) || CountDue(r.queue, s.now) + n <= CountDue(s.queue, s.now))
    ensures n > CountDue(s.queue, s.now) ==> !Due(Iterate(beh, s, n))
  {
    if n > 0 {
      Terminates(beh, s, n - 1);
      var before := Iterate(beh, s, n - 1);
      if Due(before) {
        CountFire(beh, before);
      }
    }
  }

  /** A callback that schedules itself for the very same instant keeps the loop going forever. */
  function Again(w: (), e: Event, now: int): ((), seq<Action>) {
    ((), [Schedule(e)])
  }

  lemma FireAgain(s: Loop<()>, e: Event)
    requires s.queue == [e] && s.now == e.deadline
    ensures Fire(Again, s).queue == [e] && Fire(Again, s).now == e.deadline
  {
    var popped := Pop(s).(world := ());
    assert popped.queue == [];
    assert PerformAll(popped, [Schedule(e)][..0]) == popped;
  }

  lemma {:induction false} SameInstantNeverEnds(e: Event, n: nat)
    ensures var s := Iterate(Again, Start(e.deadline, [e], ()), n); s.queue == [e] && s.now == e.deadline && Due(s)
  {
    hide Fire;
    if n > 0 {
      SameInstantNeverEnds(e, n - 1);
      FireAgain(Iterate(Again, Start(e.deadline, [e], ()), n - 1), e);
    }
  }

  // ---------------------------------------------------------------------
  // ManualRuntime
  // ---------------------------------------------------------------------

  datatype Option<T> = None | Some(value: T)

  class ManualRuntime {
    var now: int
    var queue: seq<Event>

    ghost predicate Valid()
      reads this
    {
      Sorted(queue)
    }

    constructor (init: int)
      ensures Valid() && now == init && queue == []
    {
      now, queue := init, [];
    }

    method ScheduleAt(deadline: int, callback: nat, scope: nat)
      requires Valid()
      modifies this`queue
      ensures Valid() && queue == Insert(old(queue), Event(deadline, callback, scope))
    {
      InsertSorted(queue, Event(deadline, callback, scope));
      queue := Insert(queue, Event(deadline, callback, scope));
    }

    method CancelScope(scope: nat)
      requires Valid()
      modifies this`queue
      ensures Valid() && queue == Erase(old(queue), scope)
    {
      EraseSorted(queue, scope);
      queue := Erase(queue, scope);
    }

    /** None stands for the greatest time point. */
    method Next() returns (deadline: Option<int>)
      requires Valid()
      ensures deadline.None? <==> queue == []
      ensures deadline.Some? ==> forall e :: e in queue ==> deadline.value <= e.deadline
      ensures deadline.Some? ==> exists e :: e in queue && deadline.value == e.deadline
    {
      deadline := if queue == [] then None else Some(queue[0].deadline);
      assert queue != [] ==> queue[0] in queue;
    }

    /** Actions that a callback performs. */
    method Execute<W>(actions: seq<Action>, ghost s: Loop<W>)
      requires Valid() && queue == s.queue
      modifies this`queue
      ensures Valid() && queue == PerformAll(s, actions).queue
    {
      for i := 0 to |actions|
        invariant Valid() && queue == PerformAll(s, actions[..i]).queue
      {
        assert actions[..i + 1][..i] == actions[..i];
        match actions[i]
        case Schedule(e) => ScheduleAt(e.deadline, e.callback, e.scope);
        case Cancel(scope) => CancelScope(scope);
      }
      assert actions[..|actions|] == actions;
    }

    /** One round of the loop: erase the first event, then invoke its callback. */
    method FireFirst<W>(beh: Behaviour<W>, world: W, ghost s: Loop<W>) returns (world': W)
      requires Valid() && Due(s)
      requires now == s.now && queue == s.queue && world == s.world
      modifies this`queue
      ensures Valid() && queue == Fire(beh, s).queue && world' == Fire(beh, s).world
    {
      var e := queue[0];
      queue := queue[1..];
      var result := beh(world, e, now);
      Execute(result.1, Pop(s).(world := result.0));
      WorldKept(Pop(s).(world := result.0), result.1);
      world' := result.0;
    }

    /**
     * Advance the clock and run all callbacks that are due, including those becoming due meanwhile. The loop has
     * to end at all, within any number of rounds; `Terminates` gives a bound for callbacks that schedule later.
     */
    method Trigger<W>(tp: int, beh: Behaviour<W>, world: W, ghost rounds: nat)
      returns (world': W, ghost n: nat)
      requires Valid() && now <= tp && !Due(Iterate(beh, Start(tp, queue, world), rounds))
      modifies this
      ensures Valid() && now == tp && n <= rounds
      ensures var r := Iterate(beh, Start(tp, old(queue), world), n); queue == r.queue && world' == r.world
      ensures forall e :: e in queue ==> tp < e.deadline
    {
      hide Iterate, Fire, Sorted;
      now := tp;
      world', n := world, 0;
      ghost var start := Start(tp, queue, world);
      NotYet(beh, start);
      ghost var s := start;
      while queue != [] && queue[0].deadline <= now
        invariant Valid() && now == tp && n <= rounds
        invariant s == Iterate(beh, start, n) && queue == s.queue && world' == s.world && s.now == tp
        decreases rounds - n
      {
        world' := FireFirst(beh, world', s);
        s, n := Successor(beh, start, s, n), n + 1;
      }
      NoneDue(queue, tp);
    }
  }

  lemma NotYet<W>(beh: Behaviour<W>, start: Loop<W>)
    ensures Iterate(beh, start, 0) == start
  {
  }

  /** Successor of the loop state s that n firings lead to. */
  ghost function Successor<W>(beh: Behaviour<W>, start: Loop<W>, s: Loop<W>, n: nat): (r: Loop<W>)
    requires Due(s) && s == Iterate(beh, start, n)
    ensures r == Iterate(beh, start, n + 1) && r.now == s.now
    ensures r.queue == Fire(beh, s).queue && r.world == Fire(beh, s).world
  {
    var (w, actions) := beh(s.world, s.queue[0], s.now);
    WorldKept(Pop(s).(world := w), actions);
    Fire(beh, s)
  }

  lemma NoneDue(q: seq<Event>, now: int)
    requires Sorted(q) && (q == [] || now < q[0].deadline)
    ensures forall e :: e in q ==> now < e.deadline
  {
  }

  lemma {:induction false} WorldKept<W>(s: Loop<W>, actions: seq<Action>)
    ensures PerformAll(s, actions).world == s.world && PerformAll(s, actions).now == s.now
  {
    if actions != [] {
      WorldKept(s, actions[..|actions| - 1]);
    }
  }

  // ---------------------------------------------------------------------
  // Several objects on one runtime
  // ---------------------------------------------------------------------

  /** The first event of the queue belongs to an object if it has the object's scope. */
  lemma PopDeadlines(q: seq<Event>, scope: nat)
    requires q != []
    ensures Deadlines(q[1..], scope) ==
            if q[0].scope == scope then Deadlines(q, scope)[1..] else Deadlines(q, scope)
    ensures q[0].scope == scope ==> Deadlines(q, scope) != [] && Deadlines(q, scope)[0] == q[0].deadline
  {
  }

  lemma PopCount(q: seq<Event>, now: int)
    requires q != [] && q[0].deadline <= now && Sorted(q)
    ensures CountDue(q[1..], now) < CountDue(q, now) && Sorted(q[1..])
  {
  }

  lemma {:induction false} ForeignElements(q: seq<Event>, scope: nat)
    ensures forall e :: e in Foreign(q, scope) <==> e in q && e.scope != scope
  {
    if q != [] {
      ForeignElements(q[1..], scope);
      assert q == [q[0]] + q[1..];
    }
  }

  lemma {:induction false} InsertForeign(q: seq<Event>, e: Event, scope: nat)
    requires Sorted(q)
    ensures Foreign(Insert(q, e), scope) == if e.scope == scope then Foreign(q, scope) else Insert(Foreign(q, scope), e)
  {
    if q == [] || e.deadline < q[0].deadline {
      assert ([e] + q)[1..] == q;
      ForeignElements(q, scope);
      var f := Foreign(q, scope);
      assert f != [] ==> f[0] in f;
    } else {
      InsertForeign(q[1..], e, scope);
      assert Insert(q, e)[1..] == Insert(q[1..], e) && Insert(q, e)[0] == q[0];
      if q[0].scope != scope {
        assert Foreign(q, scope)[1..] == Foreign(q[1..], scope);
      } else {
        assert Foreign(q, scope) == Foreign(q[1..], scope);
        assert Foreign(Insert(q, e), scope) == Foreign(Insert(q[1..], e), scope);
      }
    }
  }

  lemma {:induction false} EraseForeign(q: seq<Event>, other: nat, scope: nat)
    requires other != scope
    ensures Foreign(Erase(q, other), scope) == Erase(Foreign(q, scope), other)
  {
    if q != [] && other != 0 {
      EraseForeign(q[1..], other, scope);
      var rest := Erase(q[1..], other);
      if q[0].scope == scope {
        assert Foreign(q, scope) == Foreign(q[1..], scope);
        assert ([q[0]] + rest)[1..] == rest;
        assert Foreign([q[0]] + rest, scope) == Foreign(rest, scope);
      } else {
        assert Foreign(q, scope)[1..] == Foreign(q[1..], scope);
        assert ([q[0]] + rest)[1..] == rest;
      }
    }
  }

  lemma PopForeign(q: seq<Event>, scope: nat)
    requires q != []
    ensures q[0].scope == scope ==> Foreign(q[1..], scope) == Foreign(q, scope)
    ensures q[0].scope != scope ==>
      Foreign(q, scope) != [] && Foreign(q, scope)[0] == q[0] && Foreign(q[1..], scope) == Foreign(q, scope)[1..]
  {
  }

  /** An action on the queue that does not concern a scope. */
  predicate Apart(a: Action, scope: nat) {
    match a
    case Schedule(e) => e.scope != scope
    case Cancel(other) => other != scope
  }

  /** All other objects leave a scope alone. */
  ghost predicate AllApart<W(!new)>(others: Behaviour<W>, scope: nat, now: int) {
    forall w: W, e: Event, a :: a in others(w, e, now).1 ==> Apart(a, scope)
  }

  /** Actions of other objects have the same effect as on a queue that holds their events only. */
  lemma {:induction false} ApartPerform<W>(s: Loop<W>, t: Loop<W>, actions: seq<Action>, scope: nat)
    requires Sorted(s.queue) && t.queue == Foreign(s.queue, scope) && forall a :: a in actions ==> Apart(a, scope)
    ensures var r := PerformAll(s, actions).queue;
      && Sorted(r) && Deadlines(r, scope) == Deadlines(s.queue, scope)
      && Foreign(r, scope) == PerformAll(t, actions).queue
  {
    if actions != [] {
      var init, a := actions[..|actions| - 1], actions[|actions| - 1];
      ApartPerform(s, t, init, scope);
      assert a in actions;
      var q := PerformAll(s, init).queue;
      match a
      case Schedule(e) =>
        InsertSorted(q, e);
        InsertOther(q, e, scope);
        InsertForeign(q, e, scope);
      case Cancel(other) =>
        EraseSorted(q, other);
        EraseOther(q, other, scope);
        EraseForeign(q, other, scope);
    }
  }

  /** The events of all other objects, and their state, are those of a loop without the given scope. */
  ghost predicate Alongside<W>(queue: seq<Event>, scope: nat, world: W, s: Loop<W>) {
    Foreign(queue, scope) == s.queue && world == s.world
  }

  /** Fire an event of another object. */
  method FireOther<W(!new)>(runtime: ManualRuntime, others: Behaviour<W>, world: W, ghost scope: nat, ghost s: Loop<W>)
    returns (world': W)
    requires runtime.Valid() && runtime.queue != [] && runtime.queue[0].deadline <= runtime.now
    requires runtime.queue[0].scope != scope && AllApart(others, scope, runtime.now)
    requires s.now == runtime.now && Alongside(runtime.queue, scope, world, s)
    modifies runtime`queue
    ensures runtime.Valid() && Deadlines(runtime.queue, scope) == old(Deadlines(runtime.queue, scope))
    ensures Due(s) && Alongside(runtime.queue, scope, world', Fire(others, s))
  {
    PopForeign(runtime.queue, scope);
    PopDeadlines(runtime.queue, scope);
    ghost var t := Start(runtime.now, runtime.queue, world);
    var e := runtime.queue[0];
    var result := others(world, e, runtime.now);
    ApartPerform(Pop(t), Pop(s).(world := result.0), result.1, scope);
    WorldKept(Pop(s).(world := result.0), result.1);
    world' := runtime.FireFirst(others, world, t);
    PopQueue(t, result.0, result.1);
  }

  /** The state of other objects does not matter for the queue. */
  lemma {:induction false} PopQueue<W>(t: Loop<W>, world: W, actions: seq<Action>)
    requires t.queue != []
    ensures PerformAll(Pop(t).(world := world), actions).queue == PerformAll(Pop(t), actions).queue
    ensures PerformAll(Pop(t).(world := world), actions).world == world
  {
    if actions != [] {
      PopQueue(t, world, actions[..|actions| - 1]);
    }
  }
}
