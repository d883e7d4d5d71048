/** The variables of croutine.c and the functions of the co-routine scheduler that update them in
    place, each proved to compute its function of module CoRoutines. */
module CoRoutineScheduler {
  import opened Options
  import opened Rings
  import opened TaskLists
  import R = CoRoutines

  class CoRoutineScheduler {
    var generic: Store
    var events: Store
    var itemValue: map<Task, nat>
    var eventValue: map<Task, nat>
    var priority: map<Task, nat>
    var topReady: nat
    var tickCount: nat
    var lastTickCount: nat
    ghost var overflows: nat           // wraps of the tick count
    var delayed: ListId
    var overflow: ListId
    var current: Task

    ghost function Value(): R.C
      reads this
    {
      R.C(generic, events, itemValue, eventValue, priority, topReady, tickCount, overflows, delayed, overflow, current)
    }

    /** prvInitialiseCoRoutineLists */
    constructor ()
      ensures Value() == R.Initial() && lastTickCount == tickCount && R.Inv(Value()) && R.Settled(Value())
    {
      R.InitialInv();
      generic, events := Store(map[], map[]), Store(map[], map[]);
      itemValue, eventValue, priority := map[], map[], map[];
      topReady, tickCount, lastTickCount, overflows, current := 0, 0, 0, 0, 0;
      delayed, overflow := DelayedA, DelayedB;
    }

    /** xCoRoutineCreate, with memory for the control block. */
    method Create(t: Task, uxPriority: nat)
      requires R.Inv(Value()) && R.Settled(Value()) && t !in priority
      modifies this
      ensures Value() == R.Create(old(Value()), t, uxPriority) && lastTickCount == old(lastTickCount)
      ensures R.Inv(Value()) && R.Settled(Value())
    {
      hide Ok, PutEnd, R.Inv, R.Settled;
      R.CreateKeeps(Value(), t, uxPriority);
      NotYetListed(Value(), t);
      ghost var c := Value();
      hide R.Create;
      var p := uxPriority;
      if p >= R.MAX_CO_ROUTINE_PRIORITIES {
        p := R.MAX_CO_ROUTINE_PRIORITIES - 1;
      }
      CreateParts(c, t, uxPriority, p);
      if priority == map[] {
        current := t;
      }
      priority := priority[t := p];
      eventValue := eventValue[t := R.MAX_CO_ROUTINE_PRIORITIES - p];
      if p > topReady {
        topReady := p;
      }
      generic := PutEnd(generic, Ready(p), t);
    }

    /** vCoRoutineAddToDelayedList */
    method AddToDelayedList(ticks: nat, event: Option<nat>)
      requires R.Inv(Value()) && R.Settled(Value()) && R.Allowed(Value(), R.DoDelay(ticks, event))
      modifies this`generic, this`events, this`itemValue
      ensures Value() == R.AddToDelayed(old(Value()), ticks, event)
      ensures R.Inv(Value()) && R.Settled(Value())
    {
      hide Ok, SortedBy, PutSorted, RelocateSorted, Take, At, R.Inv, R.Settled, R.IsDelayed;
      ghost var c := Value();
      DelayDefined(c, ticks, event);
      R.AddToDelayedKeeps(c, ticks, event);
      var timeToWake := Plus(tickCount, ticks);
      R.OthersSorted(c, current, timeToWake);
      EventDefined(c, current, if event.Some? then event.value else 0);
      itemValue := itemValue[current := timeToWake];
      if timeToWake < tickCount {
        generic := RelocateSorted(generic, current, overflow, itemValue);
      } else {
        generic := RelocateSorted(generic, current, delayed, itemValue);
      }
      if event.Some? {
        events := PutSorted(events, Event(event.value), current, eventValue);
      }
    }

    /** xCoRoutineRemoveFromEventList, called from an interrupt. */
    method RemoveFromEventList(q: nat) returns (above: bool)
      requires R.Inv(Value()) && R.Settled(Value()) && At(events, Event(q)).items != []
      modifies this`events
      ensures (Value(), above) == R.EventOccurs(old(Value()), q)
      ensures R.Inv(Value()) && R.Settled(Value())
    {
      hide Ok, At, Take, PutEnd, R.Inv, R.Settled;
      R.EventOccursKeeps(Value(), q);
      WaiterDefined(Value(), q);
      var t := At(events, Event(q)).items[0];
      events := PutEnd(Take(events, t), PendingReady, t);
      above := priority[t] >= priority[current];
    }

    /** prvAddCoRoutineToReadyQueue after taking the items out of their lists. */
    method MakeReady(t: Task)
      requires R.Inv(Value()) && t in priority && !generic.where[t].Ready?
      modifies this`generic, this`events, this`topReady
      ensures Value() == R.Wake(old(Value()), t)
    {
      hide Ok, At, PutEnd, Take, R.Times;
      if t in events.where {
        events := Take(events, t);
      }
      generic := Take(generic, t);
      if priority[t] > topReady {
        topReady := priority[t];
      }
      generic := PutEnd(generic, Ready(priority[t]), t);
    }

    /** prvCheckPendingReadyList */
    method CheckPendingReadyList()
      requires R.Inv(Value())
      modifies this`generic, this`events, this`topReady
      ensures Value() == R.DrainPending(old(Value()))
    {
      hide R.Inv, R.Wake, R.WokeOne, Ok;
      while At(events, PendingReady).items != []
        invariant R.Inv(Value())
        invariant R.DrainPending(Value()) == R.DrainPending(old(Value()))
        decreases |At(events, PendingReady).items|
      {
        R.PendingHead(Value());
        var t := At(events, PendingReady).items[0];
        R.WakeKeeps(Value(), t);
        MakeReady(t);
      }
    }

    /** The inner loop of prvCheckDelayedList. */
    method WakeExpired()
      requires R.Inv(Value())
      modifies this`generic, this`events, this`topReady
      ensures Value() == R.WakeDue(old(Value()))
    {
      hide R.Inv, R.Wake, Ok;
      while At(generic, delayed).items != []
        invariant R.Inv(Value())
        invariant R.WakeDue(Value()) == R.WakeDue(old(Value()))
        decreases |At(generic, delayed).items|
      {
        R.DelayedHead(Value());
        var t := At(generic, delayed).items[0];
        if tickCount < itemValue[t] {
          break;
        }
        R.WakeKeeps(Value(), t);
        MakeReady(t);
      }
    }

    /** prvCheckDelayedList, at tick count `now` of the kernel. */
    method CheckDelayedList(now: nat)
      requires R.Inv(Value()) && R.Settled(Value()) && lastTickCount == tickCount && now < WRAP && tickCount < WRAP
      modifies this
      ensures Value() == R.CatchUp(old(Value()), Minus(now, old(tickCount))) && lastTickCount == tickCount
    {
      hide R.Inv, R.Settled, R.WakeDue, R.Ticked, Ok;
      var passed := Minus(now, lastTickCount);
      while passed > 0
        invariant R.Inv(Value()) && R.Settled(Value())
        invariant R.CatchUp(Value(), passed) == R.CatchUp(old(Value()), Minus(now, old(tickCount)))
      {
        R.TickExact(Value());
        R.AdvanceKeeps(Value());
        ghost var c := Value();
        TickBound(c);
        tickCount := if tickCount + 1 < WRAP then tickCount + 1 else 0;
        passed := passed - 1;
        if tickCount == 0 {
          delayed, overflow := overflow, delayed;
          overflows := overflows + 1;
        }
        assert Value() == R.Advance(c);
        WakeExpired();
      }
      lastTickCount := tickCount;
    }

    /** vCoRoutineSchedule */
    method Schedule(now: nat) returns (runs: bool)
      requires R.Inv(Value()) && R.Settled(Value()) && lastTickCount == tickCount && now < WRAP
      modifies this
      ensures (Value(), runs) == R.Schedule(old(Value()), now) && lastTickCount == tickCount
      ensures R.Inv(Value()) && R.Settled(Value())
    {
      hide R.Inv, R.Settled, R.DrainPending, R.CatchUp, R.Ticked, Ok;
      ghost var c := Value();
      R.ScheduleRunsHighest(c, now);
      R.DrainPendingEffect(c);
      TickBound(c);
      CheckPendingReadyList();
      CheckDelayedList(now);
      assert Value() == R.Prepared(c, now);
      R.PreparedKeeps(c, now);
      HeadBound(Value());
      runs := FindHighest();
      if runs {
        var ring := Rings.Advance(At(generic, Ready(topReady)));
        generic := generic.(lists := generic.lists[Ready(topReady) := ring]);
        current := Current(ring);
      }
    }

    /** The search for the highest ready list that is not empty. */
    method FindHighest() returns (found: bool)
      modifies this`topReady
      ensures topReady == R.ScanDown(generic, old(topReady)) && (found <==> At(generic, Ready(topReady)).items != [])
    {
      while At(generic, Ready(topReady)).items == []
        invariant R.ScanDown(generic, topReady) == R.ScanDown(generic, old(topReady))
        decreases topReady
      {
        if topReady == 0 {
          return false;
        }
        topReady := topReady - 1;
      }
      found := true;
    }
  }

  lemma CreateParts(c: R.C, t: Task, priority: nat, p: nat)
    requires R.Inv(c) && t !in c.prio && Ok(c.st) && t !in c.st.where
    requires p == if priority >= R.MAX_CO_ROUTINE_PRIORITIES then R.MAX_CO_ROUTINE_PRIORITIES - 1 else priority
    ensures R.Create(c, t, priority) ==
            c.(st := PutEnd(c.st, Ready(p), t), prio := c.prio[t := p],
               rank := c.rank[t := R.MAX_CO_ROUTINE_PRIORITIES - p], top := if p > c.top then p else c.top,
               current := if c.prio == map[] then t else c.current)
  {
    hide Ok, PutEnd, R.Inv;
  }

  lemma NotYetListed(c: R.C, t: Task)
    requires R.Inv(c) && t !in c.prio
    ensures Ok(c.st) && t !in c.st.where
  {
    hide Ok, R.Times;
  }

  lemma WaiterDefined(c: R.C, q: nat)
    requires R.Inv(c) && At(c.ev, Event(q)).items != []
    ensures var t := At(c.ev, Event(q)).items[0];
            && t in c.ev.where && t in c.prio && c.current in c.prio
            && Ok(c.ev) && t !in Take(c.ev, t).where && Ok(Take(c.ev, t))
  {
    hide R.Times;
    assert At(c.ev, Event(q)).items[0] in At(c.ev, Event(q)).items;
  }

  lemma DelayDefined(c: R.C, ticks: nat, event: Option<nat>)
    requires R.Inv(c) && R.Allowed(c, R.DoDelay(ticks, event))
    ensures c.current in c.prio && c.current in c.st.where && c.st.where[c.current] == Ready(c.prio[c.current])
    ensures Ok(c.st) && Ok(c.ev) && c.tick < WRAP && 1 <= ticks <= MAX_DELAY
  {
    hide Ok, SortedBy, At;
  }

  lemma EventDefined(c: R.C, t: Task, q: nat)
    requires R.Inv(c) && t in c.prio && c.st.where[t].Ready?
    ensures t in c.rank && t !in c.ev.where && forall x :: x in At(c.ev, Event(q)).items ==> x in c.rank
  {
    assert forall x :: x in At(c.ev, Event(q)).items ==> x in c.ev.where;
  }

  lemma TickBound(c: R.C)
    requires R.Inv(c)
    ensures c.tick < WRAP
  {
  }

  lemma HeadBound(c: R.C)
    requires R.Inv(c)
    ensures forall p :: At(c.st, Ready(p)).index <= |At(c.st, Ready(p)).items|
  {
    forall p ensures At(c.st, Ready(p)).index <= |At(c.st, Ready(p)).items| {
      assert Proper(c.st, Ready(p));
    }
  }
}
