/** The kernel variables of tasks.c and the functions that update them in place, each
    proved to compute its step of module Kernel or KernelCalls. The ready bitmap is the
    32-bit word of portmacro.h. */
module TaskKernel {
  import opened Rings
  import opened TaskLists
  import opened Scheduler
  import opened Bitmap
  import K = Kernel
  import C = KernelCalls
  import G = KernelRuns
  import T = TimeOuts

  lemma TakePut(st: Store, t: Task, l: ListId)
    requires Ok(st) && t in st.where
    ensures t !in Take(st, t).where && Ok(Take(st, t)) && Relocate(st, t, l) == PutEnd(Take(st, t), l, t)
  {
  }

  lemma LiveTask(k: Scheduler.K, t: Task)
    requires Inv(k) && t in k.prio
    ensures Ok(k.st) && Ok(k.ev) && t in k.st.where && k.prio[t] < 32
  {
  }

  lemma FirstBit()
    ensures BitSet(Record(0, 0)) == {0}
  {
    hide Record;
    RecordAdds(0, 0);
    assert BitSet(0) == {};
  }

  class TaskKernel {
    var state: Store                  // lists of state items
    var events: Store                 // lists of event items
    var itemValue: map<Task, nat>
    var eventValue: map<Task, nat>
    var priority: map<Task, nat>
    var topReady: bv32                // uxTopReadyPriority
    var tickCount: nat
    var overflows: nat
    var nextUnblock: nat
    var delayed: ListId
    var overflow: ListId
    var current: Task
    var idle: Task
    var suspended: nat
    var pendedTicks: nat
    var yieldPending: bool
    var request: bool
    var taskCount: nat
    var deletedCount: nat

    ghost function Value(): Scheduler.K
      reads this
    {
      Scheduler.K(state, events, itemValue, eventValue, priority, BitSet(topReady), tickCount, overflows, nextUnblock,
        delayed, overflow, current, idle, suspended, pendedTicks, yieldPending, request, taskCount, deletedCount)
    }

    ghost predicate Valid()
      reads this
    {
      Inv(Value()) && K.Settled(Value())
    }

    /** vTaskStartScheduler, when the idle task is the only one. */
    constructor (idleTask: Task)
      ensures Value() == G.Started(idleTask) && G.Good(Value()) && Valid()
    {
      state := Store(map[Ready(0) := Ring([idleTask], 0)], map[idleTask := Ready(0)]);
      events := Store(map[], map[]);
      itemValue, eventValue, priority := map[], map[idleTask := MAX_PRIORITIES], map[idleTask := 0];
      topReady := Record(0, 0);
      tickCount, overflows, nextUnblock := 0, 0, MAX_DELAY;
      delayed, overflow := DelayedA, DelayedB;
      current, idle := idleTask, idleTask;
      suspended, pendedTicks, yieldPending, request := 0, 0, false, false;
      taskCount, deletedCount := 1, 0;
      new;
      hide Inv;
      FirstBit();
      G.StartedGood(idleTask);
    }

    /** prvResetNextTaskUnblockTime */
    method ResetNextTaskUnblockTime()
      requires Inv(Value())
      modifies this`nextUnblock
      ensures Value() == K.ResetNext(old(Value()))
    {
      hide Ok, Bits, Counts, Homes, Times, SortedBy, BitSet, At;
      K.HeadIsEarliest(Value());
      var items := At(state, delayed).items;
      if items == [] {
        nextUnblock := MAX_DELAY;
      } else {
        nextUnblock := itemValue[items[0]];
      }
    }

    /** Moves a blocked task from its delayed or suspended list, and from its event list
        if it is in one, to the ready list of its priority. */
    method MakeReady(t: Task)
      requires Inv(Value()) && t in priority && Blocked(state.where[t])
      modifies this`state, this`events, this`topReady
      ensures Value() == K.Wake(old(Value()), t)
    {
      hide Inv, Ok, Blocked, K.Wake, Relocate, Take, BitSet;
      LiveTask(Value(), t);
      K.WakeParts(Value(), t);
      if t in events.where {
        events := Take(events, t);
      }
      ReadyItem(t);
    }

    /** uxListRemove of the state item, then prvAddTaskToReadyList. */
    method ReadyItem(t: Task)
      requires Ok(state) && t in state.where && t in priority && priority[t] < 32
      modifies this`state, this`topReady
      ensures var k := old(Value());
              Value() == k.(st := Relocate(k.st, t, Ready(k.prio[t])), top := k.top + {k.prio[t]})
    {
      hide Ok, Relocate, Take, PutEnd, BitSet, Record;
      TakePut(state, t, Ready(priority[t]));
      RecordAdds(topReady, priority[t]);
      topReady := Record(topReady, priority[t]);
      state := PutEnd(Take(state, t), Ready(priority[t]), t);
    }

    /** taskSWITCH_DELAYED_LISTS */
    method SwitchDelayedLists()
      requires Inv(Value().(delayed := overflow, overflow := delayed))
      modifies this`delayed, this`overflow, this`overflows, this`nextUnblock
      ensures Value() == K.ResetNext(old(Value()).(delayed := old(overflow), overflow := old(delayed),
                                                   epoch := old(overflows) + 1))
    {
      hide Ok, Bits, Counts, Homes, SortedBy, BitSet, K.ResetNext;
      delayed, overflow := overflow, delayed;
      overflows := overflows + 1;
      K.InvOfTimes(old(Value().(delayed := overflow, overflow := delayed)), Value());
      ResetNextTaskUnblockTime();
    }

    /** The wake-up loop of xTaskIncrementTick. */
    method WakeExpired() returns (sw: bool)
      requires Inv(Value())
      modifies this`state, this`events, this`topReady, this`nextUnblock
      ensures (Value(), sw) == K.WakeExpired(old(Value()), false)
    {
      hide Inv, Ok, Blocked, K.Wake, K.WakeExpired, BitSet;
      sw := false;
      while true
        invariant Inv(Value())
        invariant K.WakeExpired(Value(), sw) == K.WakeExpired(old(Value()), false)
        decreases |At(state, delayed).items|
      {
        WakeRound(Value(), sw);
        var items := At(state, delayed).items;
        if items == [] {
          nextUnblock := MAX_DELAY;
          return;
        }
        var t := items[0];
        if tickCount < itemValue[t] {
          nextUnblock := itemValue[t];
          return;
        }
        MakeReady(t);
        if priority[t] >= priority[current] {
          sw := true;
        }
      }
    }

    /** The first part of xTaskIncrementTick: count, and switch lists on a wrap. */
    method AdvanceTickCount()
      requires Valid()
      modifies this`tickCount, this`delayed, this`overflow, this`overflows, this`nextUnblock
      ensures Value() == K.AdvanceTick(old(Value())) && Inv(Value())
    {
      hide Ok, Bits, Counts, Homes, SortedBy, BitSet, K.ResetNext;
      ghost var k := Value();
      if tickCount + 1 < WRAP {
        tickCount := tickCount + 1;
      } else {
        tickCount := 0;
        K.DelayedIsEmptyAtWrap(k);
        K.InvOfTimes(k, Value().(delayed := overflow, overflow := delayed));
        SwitchDelayedLists();
      }
      assert Value() == K.AdvanceTick(k);
      K.InvOfTimes(k, Value());
    }

    /** xTaskIncrementTick */
    method IncrementTick() returns (switchRequired: bool)
      requires Valid()
      modifies this
      ensures (Value(), switchRequired) == K.Tick(old(Value()))
    {
      hide Ok, Bits, Counts, Times, SortedBy, HomeOk, K.WakeExpired, K.AdvanceTick, BitSet;
      switchRequired := false;
      if suspended == 0 {
        AdvanceTickCount();
        if tickCount >= nextUnblock {
          switchRequired := WakeExpired();
        }
        if |At(state, Ready(priority[current])).items| > 1 {
          switchRequired := true;
        }
      } else {
        pendedTicks := pendedTicks + 1;
      }
      if yieldPending {
        switchRequired := true;
      }
    }

    /** The pending-ready loop of xTaskResumeAll. */
    method DrainPendingReady() returns (moved: bool)
      requires Inv(Value())
      modifies this`state, this`events, this`topReady, this`yieldPending
      ensures Value() == K.DrainPending(old(Value())) && Inv(Value())
      ensures moved <==> At(old(events), PendingReady).items != []
    {
      hide Inv, Ok, K.Wake, K.DrainPending, Blocked, BitSet;
      moved := false;
      while At(events, PendingReady).items != []
        invariant Inv(Value())
        invariant K.DrainPending(Value()) == K.DrainPending(old(Value()))
        invariant moved || events == old(events)
        invariant moved ==> At(old(events), PendingReady).items != []
        decreases |At(events, PendingReady).items|
      {
        ghost var k := Value();
        PendingTask(k);
        var t := At(events, PendingReady).items[0];
        MakeReady(t);
        if priority[t] >= priority[current] {
          yieldPending := true;
        }
        moved := true;
        assert Value() == K.DrainOne(k, t);
      }
      DrainedAll(Value());
    }

    /** The pended-tick loop of xTaskResumeAll. */
    method ReplayPendedTicks()
      requires Valid() && suspended == 0
      modifies this
      ensures Value() == K.Replay(old(Value()), old(pendedTicks)).(pended := 0)
    {
      hide Inv, K.Settled, K.Tick, K.Ticked, K.ReplayOne, BitSet;
      var n := pendedTicks;
      while n > 0
        invariant Valid() && suspended == 0
        invariant K.Replay(Value(), n) == K.Replay(old(Value()), old(pendedTicks))
      {
        ghost var k := Value();
        K.TickExact(k);
        var sw := IncrementTick();
        if sw {
          yieldPending := true;
        }
        TickKeepsYield(k);
        assert Value() == K.ReplayOne(k);
        n := n - 1;
      }
      ReplayNone(Value());
      pendedTicks := 0;
    }

    /** The first half of xTaskResumeAll. */
    method ResumeReady()
      requires Inv(Value())
      modifies this`state, this`events, this`topReady, this`yieldPending, this`nextUnblock
      ensures Value() == K.ResumeReady(old(Value()))
    {
      hide Inv, Ok, Times, K.DrainPending, K.ResetNext, BitSet;
      var moved := DrainPendingReady();
      if moved {
        ResetNextTaskUnblockTime();
      }
    }

    /** xTaskResumeAll */
    method ResumeAll() returns (alreadyYielded: bool)
      requires Valid() && suspended > 0
      modifies this
      ensures Value() == K.ResumeAll(old(Value()), false)
      ensures alreadyYielded <==> old(suspended) == 1 && yieldPending
    {
      hide Inv, K.Settled, K.ResumeReady, K.Replay, K.Drained, BitSet;
      alreadyYielded := false;
      ghost var k := Value();
      suspended := suspended - 1;
      K.InvOfFlags(k, Value());
      if suspended == 0 {
        assert Value().(suspended := 1) == k;
        K.ResumeReadySettled(Value());
        ResumeReady();
        ReplayPendedTicks();
        if yieldPending {
          alreadyYielded := true;
          request := true;
        }
      }
    }

    /** taskSELECT_HIGHEST_PRIORITY_TASK, with the ready bitmap. */
    method SelectHighest()
      requires Inv(Value())
      modifies this`state, this`current
      ensures var k := old(Value()); var l := Ready(C.TopBit(k.top, MAX_PRIORITIES - 1));
              && Ok(k.st) && At(k.st, l).items != []
              && Value() == k.(st := C.WalkList(k.st, l).0, current := C.WalkList(k.st, l).1)
    {
      hide Inv, Ok, BitSet, Has, C.TopBit, C.WalkList, At;
      SelectionOk(Value());
      HighestIsTopBit(Value(), topReady);
      var p := HighestPriority(topReady);
      var (st, t) := C.WalkList(state, Ready(p));
      state, current := st, t;
    }

    /** vTaskSwitchContext */
    method SwitchContext()
      requires Valid()
      modifies this`state, this`current, this`yieldPending, this`request
      ensures Value() == C.SwitchContext(old(Value()))
    {
      hide Inv, Ok, K.Settled, BitSet, C.TopBit, C.WalkList, C.SwitchContext, At;
      ghost var k := Value();
      SwitchParts(k);
      request := false;
      if suspended > 0 {
        yieldPending := true;
      } else {
        yieldPending := false;
        K.InvOfFlags(k, Value());
        SelectHighest();
      }
    }

    /** The current task leaves its ready list; the last one out resets the bit. */
    method LeaveReadyList()
      requires Inv(Value())
      modifies this`state, this`topReady
      ensures var k := old(Value()); var st := Take(k.st, k.current); var p := k.prio[k.current];
              Value() == k.(st := st, top := if At(st, Ready(p)).items == [] then k.top - {p} else k.top)
    {
      hide Inv, Ok, At, BitSet, Reset, Take;
      CurrentTask(Value());
      state := Take(state, current);
      if At(state, Ready(priority[current])).items == [] {
        ResetRemoves(topReady, priority[current]);
        topReady := Reset(topReady, priority[current]);
      }
    }

    /** prvAddCurrentTaskToDelayedList */
    method AddCurrentTaskToDelayedList(ticks: nat, forever: bool)
      requires Valid() && current != idle && state.where[current] == Ready(priority[current])
      requires 1 <= ticks <= MAX_DELAY
      modifies this`state, this`topReady, this`itemValue, this`nextUnblock
      ensures Value() == C.AddCurrentToDelayed(old(Value()), ticks, forever)
    {
      hide Inv, Ok, At, Plus, BitSet, Reset, Take, PutEnd, PutSorted, SortedBy, K.Settled, C.AddCurrentToDelayed;
      ghost var k := Value();
      CurrentTask(k);
      AddCurrentParts(k, ticks, forever);
      LeaveReadyList();
      if ticks == MAX_DELAY && forever {
        state := PutEnd(state, Suspended, current);
      } else {
        InsertByWakeTime(Plus(tickCount, ticks));
      }
    }

    /** The timed branch: the item goes into the list of the epoch in which the task wakes. */
    method InsertByWakeTime(timeToWake: nat)
      requires Ok(state) && current !in state.where
      requires forall x :: x in At(state, delayed).items || x in At(state, overflow).items ==>
                 x in itemValue[current := timeToWake]
      modifies this`state, this`itemValue, this`nextUnblock
      ensures var k := old(Value()); var wake := k.wake[k.current := timeToWake];
              var l := if timeToWake < k.tick then k.overflow else k.delayed;
              Value() == k.(st := PutSorted(k.st, l, k.current, wake), wake := wake,
                            next := if k.tick <= timeToWake < k.next then timeToWake else k.next)
    {
      hide Ok, At, BitSet, PutSorted, Placed, SortedBy, SortedPos, Values;
      itemValue := itemValue[current := timeToWake];
      if timeToWake < tickCount {
        state := PutSorted(state, overflow, current, itemValue);
      } else {
        state := PutSorted(state, delayed, current, itemValue);
        if timeToWake < nextUnblock {
          nextUnblock := timeToWake;
        }
      }
    }

    /** vTaskDelayUntil between vTaskSuspendAll and xTaskResumeAll. */
    method DelayUntil(previousWakeTime: nat, increment: nat) returns (timeToWake: nat)
      requires Valid() && current != idle && state.where[current] == Ready(priority[current])
      requires previousWakeTime < WRAP && 1 <= increment < WRAP
      modifies this`state, this`topReady, this`itemValue, this`nextUnblock
      ensures (Value(), timeToWake) == T.DelayUntil(old(Value()), previousWakeTime, increment)
    {
      hide Inv, K.Settled, BitSet, C.AddCurrentToDelayed;
      CurrentTask(Value());
      timeToWake := Plus(previousWakeTime, increment);
      var shouldDelay := false;
      if tickCount < previousWakeTime {
        if timeToWake < previousWakeTime && timeToWake > tickCount {
          shouldDelay := true;
        }
      } else {
        if timeToWake < previousWakeTime || timeToWake > tickCount {
          shouldDelay := true;
        }
      }
      if shouldDelay {
        AddCurrentTaskToDelayedList(Minus(timeToWake, tickCount), false);
      }
    }

    /** uxListRemove of the state item with taskRESET_READY_PRIORITY. */
    method RemoveStateItem(t: Task)
      requires Inv(Value()) && t in priority
      modifies this`state, this`topReady
      ensures Value() == old(Value()).(st := Take(old(Value()).st, t), top := TopWithout(old(Value()), t))
    {
      hide Inv, Ok, At, BitSet, Reset, Take;
      LiveTask(Value(), t);
      var home := state.where[t];
      state := Take(state, t);
      if At(state, home).items == [] {
        if At(state, Ready(priority[t])).items == [] {
          ResetRemoves(topReady, priority[t]);
          topReady := Reset(topReady, priority[t]);
        }
      }
    }

    method RemoveEventItem(t: Task)
      requires Inv(Value())
      modifies this`events
      ensures Value() == DropEvent(old(Value()), t)
    {
      hide Inv, Ok, BitSet, Take;
      EventStore(Value());
      if t in events.where {
        events := Take(events, t);
      }
    }

    /** uxListRemove, then vListInsertEnd into ready list `p` with its bit recorded. */
    method MoveToReadyList(t: Task, p: nat)
      requires Inv(Value()) && t in priority && p < MAX_PRIORITIES
      modifies this`state, this`topReady
      ensures var k := old(Value());
              t in k.st.where && Value() == k.(st := Relocate(k.st, t, Ready(p)), top := TopWithout(k, t) + {p})
    {
      hide Inv, Ok, At, BitSet, Record, Take, PutEnd, Relocate, TopWithout;
      LiveTask(Value(), t);
      TakePut(state, t, Ready(p));
      RemoveStateItem(t);
      RecordAdds(topReady, p);
      topReady := Record(topReady, p);
      state := PutEnd(state, Ready(p), t);
    }

    /** A ready task moves between ready lists; then the priority fields change. */
    method ChangePriority(t: Task, p: nat)
      requires Inv(Value()) && t in priority && p < MAX_PRIORITIES && p != priority[t]
      modifies this`state, this`topReady, this`priority, this`eventValue
      ensures Value() == Reprioritise(old(Value()), t, p)
    {
      hide Inv, Ok, At, BitSet, Relocate, TopWithout, Reprioritise;
      LiveTask(Value(), t);
      ReprioritiseParts(Value(), t, p);
      if state.where[t].Ready? {
        MoveToReadyList(t, p);
      }
      priority := priority[t := p];
      eventValue := eventValue[t := MAX_PRIORITIES - p];
    }

    /** vTaskPrioritySet */
    method SetPriority(t: Task, newPriority: nat)
      requires Inv(Value()) && t in priority
      modifies this
      ensures Value() == C.PrioritySet(old(Value()), t, newPriority)
    {
      hide Inv, BitSet, Reprioritise;
      CurrentTask(Value());
      var p := if newPriority >= MAX_PRIORITIES then MAX_PRIORITIES - 1 else newPriority;
      if priority[t] != p {
        var yieldRequired := false;
        if p > priority[t] {
          if t != current && p >= priority[current] {
            yieldRequired := true;
          }
        } else if t == current {
          yieldRequired := true;
        }
        ChangePriority(t, p);
        if yieldRequired {
          request := true;
        }
      }
    }

    /** The state item moves to the suspended or the termination list. */
    method MoveTo(t: Task, l: ListId)
      requires Inv(Value()) && t in priority && t != idle && t !in events.where
      requires state.where[t] != Terminating && (l == Suspended || l == Terminating)
      modifies this`state, this`topReady, this`deletedCount
      ensures Value() == MoveOut(old(Value()), t, l)
    {
      hide Inv, Ok, At, BitSet, Take, PutEnd, Relocate, TopWithout;
      LiveTask(Value(), t);
      TakePut(state, t, l);
      RemoveStateItem(t);
      state := PutEnd(state, l, t);
      if l == Terminating {
        deletedCount := deletedCount + 1;
      }
    }

    /** vTaskSuspend */
    method SuspendTask(t: Task)
      requires Inv(Value()) && t in priority && t != idle && state.where[t] != Terminating
      modifies this
      ensures Value() == K.ResetNext(C.Suspend(old(Value()), t))
    {
      hide Inv, Ok, BitSet, MoveOut, DropEvent, K.ResetNext;
      RemoveEventItem(t);
      MoveTo(t, Suspended);
      ResetNextTaskUnblockTime();
      if t == current {
        request := true;
      }
    }

    /** vTaskResume */
    method ResumeTask(t: Task)
      requires Inv(Value()) && t in priority
      modifies this
      ensures Value() == C.Resume(old(Value()), t)
    {
      hide Inv, Ok, At, BitSet, Record, Take, PutEnd, C.Resume;
      ghost var k := Value();
      LiveTask(k, t);
      CurrentTask(k);
      ResumeParts(k, t);
      if t != current && state.where[t] == Suspended && t !in events.where {
        ReadyItem(t);
        if priority[t] >= priority[current] {
          request := true;
        }
      }
    }

    /** The state item leaves its list and the control block is freed. */
    method ForgetTask(t: Task)
      requires Inv(Value()) && t in priority && t != idle && t != current && t !in events.where
      requires state.where[t] != Terminating
      modifies this`state, this`topReady, this`priority, this`taskCount
      ensures Value() == Forget(old(Value()), t)
    {
      hide Inv, Ok, At, BitSet, Take, TopWithout, Forget;
      ForgetParts(Value(), t);
      RemoveStateItem(t);
      priority := priority - {t};
      taskCount := taskCount - 1;
    }

    /** vTaskDelete */
    method DeleteTask(t: Task)
      requires Inv(Value()) && t in priority && t != idle && state.where[t] != Terminating
      modifies this
      ensures Value() == C.Delete(old(Value()), t)
    {
      hide Inv, Ok, BitSet, MoveOut, Forget, DropEvent, TopWithout, K.ResetNext;
      RemoveEventItem(t);
      if t == current {
        MoveTo(t, Terminating);
        request := true;
      } else {
        ForgetTask(t);
        ResetNextTaskUnblockTime();
      }
    }

    /** With the scheduler suspended a woken task waits in the pending ready list. */
    method HoldPending(t: Task)
      requires Inv(Value()) && t in events.where
      modifies this`events
      ensures Value() == C.Pend(old(Value()), t)
    {
      hide Inv, Ok, BitSet, Take, PutEnd, C.Pend;
      PendParts(Value(), t);
      events := PutEnd(Take(events, t), PendingReady, t);
    }

    /** xTaskRemoveFromEventList on event list `q`; it reports whether the woken task is above
        the current one. */
    method RemoveFromEventList(q: nat) returns (higher: bool)
      requires Inv(Value()) && At(events, Event(q)).items != []
      modifies this`state, this`events, this`topReady, this`yieldPending
      ensures Value() == C.EventOccurs(old(Value()), q)
      ensures var k := old(Value()); var t := At(k.ev, Event(q)).items[0];
              t in k.prio && k.current in k.prio && (higher <==> k.prio[t] > k.prio[k.current])
    {
      hide Inv, Ok, At, BitSet, Take, PutEnd, K.Wake, C.Pend, C.EventOccurs, C.WakeWaiter;
      ghost var k := Value();
      WaiterParts(k, q);
      var t := At(events, Event(q)).items[0];
      CurrentTask(k);
      if suspended == 0 {
        MakeReady(t);
      } else {
        HoldPending(t);
      }
      higher := priority[t] > priority[current];
      if higher {
        yieldPending := true;
      }
    }
  }

  /** One round of the wake-up loop. */
  lemma WakeRound(k: Scheduler.K, sw: bool)
    requires Inv(k)
    ensures k.current in k.prio
    ensures var items := At(k.st, k.delayed).items;
            if items == [] then K.WakeExpired(k, sw) == (k.(next := MAX_DELAY), sw)
            else
              var t := items[0];
              && t in k.prio && t in k.st.where && t in k.wake && Blocked(k.st.where[t]) && k.st.where[t] == k.delayed
              && if k.tick < k.wake[t] then K.WakeExpired(k, sw) == (k.(next := k.wake[t]), sw)
                 else K.WakeExpired(k, sw) == K.WakeExpired(K.Wake(k, t), sw || k.prio[t] >= k.prio[k.current])
  {
    hide Ok, Bits, Counts, SortedBy, HomeOk, K.Wake;
    K.HeadIsEarliest(k);
  }

  lemma ReprioritiseParts(k: Scheduler.K, t: Task, p: nat)
    requires Inv(k) && t in k.prio && p < MAX_PRIORITIES && p != k.prio[t]
    ensures t in k.st.where && var k1 := k.(prio := k.prio[t := p], rank := k.rank[t := MAX_PRIORITIES - p]);
            Reprioritise(k, t, p) == if k.st.where[t].Ready?
                                     then k1.(st := Relocate(k.st, t, Ready(p)), top := TopWithout(k, t) + {p})
                                     else k1
  {
    hide Bits, Counts, Times, SortedBy, Relocate, TopWithout;
    assert {p} + TopWithout(k, t) == TopWithout(k, t) + {p} by { assert t in k.st.where; }
  }

  lemma ForgetParts(k: Scheduler.K, t: Task)
    requires Inv(k) && t in k.prio && t != k.idle && t != k.current && t !in k.ev.where && k.st.where[t] != Terminating
    ensures t in k.st.where && k.tasks >= 1
    ensures Forget(k, t) == k.(st := Take(k.st, t), top := TopWithout(k, t), prio := k.prio - {t}, tasks := k.tasks - 1)
  {
    hide Bits, Times, SortedBy, Take, TopWithout;
    assert k.prio.Keys != {};
  }

  lemma WaiterParts(k: Scheduler.K, q: nat)
    requires Inv(k) && At(k.ev, Event(q)).items != []
    ensures var t := At(k.ev, Event(q)).items[0];
            && t in k.ev.where && t in k.prio && t in k.st.where && Blocked(k.st.where[t])
            && k.current in k.prio
            && C.EventOccurs(k, q) ==
               (if k.suspended == 0 then K.Wake(k, t) else C.Pend(k, t))
               .(yieldPending := k.yieldPending || k.prio[t] > k.prio[k.current])
  {
    hide Ok, Bits, Counts, Times, HomeOk, At, K.Wake, C.Pend;
    C.EventHead(k.ev, q);
  }

  lemma PendParts(k: Scheduler.K, t: Task)
    requires Inv(k) && t in k.ev.where
    ensures Ok(k.ev) && t !in Take(k.ev, t).where && Ok(Take(k.ev, t))
    ensures C.Pend(k, t) == k.(ev := PutEnd(Take(k.ev, t), PendingReady, t))
  {
    hide Bits, Counts, Times, SortedBy, Take, PutEnd;
  }

  lemma ResumeParts(k: Scheduler.K, t: Task)
    requires Inv(k) && t in k.prio
    ensures t in k.st.where && k.current in k.prio && Ok(k.st)
    ensures C.Resume(k, t) ==
            if t != k.current && C.IsSuspended(k, t)
            then k.(st := Relocate(k.st, t, Ready(k.prio[t])), top := k.top + {k.prio[t]},
                    request := k.request || k.prio[t] >= k.prio[k.current])
            else k
  {
    LiveTask(k, t);
    CurrentTask(k);
    hide Inv, Ok, Relocate;
  }

  lemma EventStore(k: Scheduler.K)
    requires Inv(k)
    ensures Ok(k.ev)
  {
  }

  lemma CurrentTask(k: Scheduler.K)
    requires Inv(k)
    ensures k.current in k.prio && k.current in k.st.where && k.prio[k.current] < 32 && k.tick < WRAP && Ok(k.st)
  {
  }

  lemma PendingTask(k: Scheduler.K)
    requires Inv(k) && At(k.ev, PendingReady).items != []
    ensures var t := At(k.ev, PendingReady).items[0];
            && t in k.prio && t in k.st.where && Blocked(k.st.where[t]) && K.IsPending(k, t) && k.current in k.prio
            && K.DrainPending(k) == K.DrainPending(K.DrainOne(k, t))
  {
    hide Ok, Bits, Counts, Times, SortedBy, HomeOk, K.DrainOne;
    K.PendingHead(k.ev);
  }

  lemma DrainedAll(k: Scheduler.K)
    requires Inv(k) && At(k.ev, PendingReady).items == []
    ensures K.DrainPending(k) == k
  {
  }

  lemma ReplayNone(k: Scheduler.K)
    requires Inv(k) && K.Settled(k) && k.suspended == 0
    ensures K.Replay(k, 0) == k
  {
  }

  /** Blocking the current task, field by field. */
  lemma AddCurrentParts(k: Scheduler.K, ticks: nat, forever: bool)
    requires Inv(k) && k.current != k.idle && k.st.where[k.current] == Ready(k.prio[k.current])
    requires 1 <= ticks <= MAX_DELAY
    ensures var t, st1 := k.current, Take(k.st, k.current);
            var top := if At(st1, Ready(k.prio[t])).items == [] then k.top - {k.prio[t]} else k.top;
            var w := Plus(k.tick, ticks);
            var wake := k.wake[t := w];
            && t !in st1.where && Ok(st1)
            && (forall x :: x in At(st1, k.delayed).items || x in At(st1, k.overflow).items ==> x in wake)
            && C.AddCurrentToDelayed(k, ticks, forever) ==
               if ticks == MAX_DELAY && forever then k.(st := PutEnd(st1, Suspended, t), top := top)
               else k.(st := PutSorted(st1, if w < k.tick then k.overflow else k.delayed, t, wake),
                       top := top, wake := wake, next := if k.tick <= w < k.next then w else k.next)
  {
    hide Ok, Bits, Counts, Times, HomeOk, At, Take, PutEnd, PutSorted, TopWithout, SortedBy, Placed, SortedPos, Values;
    var t := k.current;
    CurrentTask(k);
    DelayParts(k, t);
    TakePut(k.st, t, Suspended);
    C.RunningHasNoEvent(k, t);
    C.WrapsWhenBelow(k.tick, ticks);
    DelaySortedTaken(k, t, Plus(k.tick, ticks));
    SortedDefined(At(Take(k.st, t), k.delayed).items, k.wake[t := Plus(k.tick, ticks)]);
    SortedDefined(At(Take(k.st, t), k.overflow).items, k.wake[t := Plus(k.tick, ticks)]);
  }

  lemma SortedDefined(items: seq<Task>, val: map<Task, nat>)
    requires SortedBy(items, val)
    ensures forall x :: x in items ==> x in val
  {
  }

  lemma TickKeepsYield(k: Scheduler.K)
    requires Inv(k) && K.Settled(k) && k.suspended == 0
    ensures K.Tick(k).0.yieldPending == k.yieldPending
  {
    hide Inv, K.Settled, K.Tick;
    K.TickExact(k);
  }

  lemma SelectionOk(k: Scheduler.K)
    requires Inv(k)
    ensures Ok(k.st) && At(k.st, Ready(C.TopBit(k.top, MAX_PRIORITIES - 1))).items != []
  {
    hide Bits, Counts, Times, Homes, C.TopBit;
    C.HighestReady(k);
  }

  lemma SwitchParts(k: Scheduler.K)
    requires Inv(k)
    ensures k.suspended > 0 ==> C.SwitchContext(k) == k.(yieldPending := true, request := false)
    ensures k.suspended == 0 ==>
              var l := Ready(C.TopBit(k.top, MAX_PRIORITIES - 1));
              && Ok(k.st) && At(k.st, l).items != []
              && C.SwitchContext(k) == k.(st := C.WalkList(k.st, l).0, current := C.WalkList(k.st, l).1,
                                          yieldPending := false, request := false)
  {
    hide Inv, Ok, At, C.WalkList, C.TopBit;
    SelectionOk(k);
  }

  lemma HighestIsTopBit(k: Scheduler.K, word: bv32)
    requires Inv(k) && k.top == BitSet(word)
    ensures exists q: nat :: q < 32 && Has(word, q)
    ensures forall p :: p in BitSet(word) && (forall q :: q in BitSet(word) ==> q <= p) ==>
              p == C.TopBit(k.top, MAX_PRIORITIES - 1)
  {
    hide Counts, Times, C.TopBit;
    C.HighestReady(k);
    var p := C.TopBit(k.top, MAX_PRIORITIES - 1);
    assert BitOk(k.st, k.top, p);
    forall q | q in k.top ensures q <= p {
      SetBitHasTask(k, q);
    }
  }

  lemma SetBitHasTask(k: Scheduler.K, q: nat)
    requires Inv(k) && q in k.top
    ensures exists t :: t in k.prio && t in k.st.where && k.st.where[t] == Ready(q) && k.prio[t] == q
  {
    hide Counts, Times;
    assert BitOk(k.st, k.top, q);
    var t := At(k.st, Ready(q)).items[0];
    assert t in At(k.st, Ready(q)).items;
    assert k.st.where[t] == Ready(q) && HomeOk(k.st.where[t], k.prio[t]);
  }

  /** What leaving the ready list does to the bits. */
  lemma DelayParts(k: Scheduler.K, t: Task)
    requires Inv(k) && t in k.prio && k.st.where[t] == Ready(k.prio[t])
    ensures TopWithout(k, t) == if At(Take(k.st, t), Ready(k.prio[t])).items == [] then k.top - {k.prio[t]} else k.top
  {
  }

  lemma DelaySortedTaken(k: Scheduler.K, t: Task, w: nat)
    requires Inv(k) && t in k.prio && k.st.where[t] == Ready(k.prio[t])
    ensures SortedBy(At(Take(k.st, t), k.delayed).items, k.wake[t := w])
    ensures SortedBy(At(Take(k.st, t), k.overflow).items, k.wake[t := w])
    ensures SortedBy(At(k.st, k.delayed).items, k.wake[t := w])
    ensures SortedBy(At(k.st, k.overflow).items, k.wake[t := w])
  {
    DelaySorted(k, t, w);
  }
}
