/** Every kernel call changes only the task it is about, what blocking and resuming do to that task,
    and that tasks of the same priority get equal turns. */
module KernelEffects {
  import opened Options
  import opened Rings
  import opened TaskLists
  import opened Scheduler
  import opened Kernel
  import opened KernelCalls

  /** Only task `t` may have changed its lists, priority or wake time; time stands still. */
  ghost predicate OnlyTouches(k: K, k': K, t: Task) {
    && k'.tick == k.tick && k'.epoch == k.epoch && k'.delayed == k.delayed && k'.overflow == k.overflow
    && k'.current == k.current && k'.idle == k.idle && k'.pended == k.pended
    && SameBut(k.prio, k'.prio, t) && SameBut(k.wake, k'.wake, t)
    && SameBut(k.st.where, k'.st.where, t) && SameBut(k.ev.where, k'.ev.where, t)
  }

  ghost predicate SameBut<V>(m: map<Task, V>, m': map<Task, V>, t: Task) {
    forall x :: x != t ==> (x in m' <==> x in m) && (x in m ==> m'[x] == m[x])
  }

  ghost predicate Changed<V>(m: map<Task, V>, m': map<Task, V>, t: Task) {
    m' == m || m' == m - {t} || (t in m' && m' == m[t := m'[t]])
  }

  lemma ChangedSame<V>(m: map<Task, V>, m': map<Task, V>, t: Task)
    requires Changed(m, m', t)
    ensures SameBut(m, m', t)
  {
  }

  lemma Touches(k: K, k': K, t: Task)
    requires k' == k.(st := k'.st, ev := k'.ev, wake := k'.wake, rank := k'.rank, prio := k'.prio, top := k'.top,
                      next := k'.next, suspended := k'.suspended, yieldPending := k'.yieldPending,
                      request := k'.request, tasks := k'.tasks, deleted := k'.deleted)
    requires Changed(k.prio, k'.prio, t) && Changed(k.wake, k'.wake, t)
    requires Changed(k.st.where, k'.st.where, t) && Changed(k.ev.where, k'.ev.where, t)
    ensures OnlyTouches(k, k', t)
  {
    hide Changed, SameBut;
    ChangedSame(k.prio, k'.prio, t);
    ChangedSame(k.wake, k'.wake, t);
    ChangedSame(k.st.where, k'.st.where, t);
    ChangedSame(k.ev.where, k'.ev.where, t);
  }

  /** The calls that wake or select among many tasks. */
  predicate AboutMany(c: Call) {
    c.IsrTick? || c.CallResumeAll? || c.ContextSwitch?
  }

  /** The task a call is about: the one it names, the first waiter for its event, the oldest
      terminated task, or else the running task. */
  function Subject(k: K, c: Call): Task {
    match c
    case CallCreate(t, _) => t
    case CallDelete(t) => t
    case CallPrioritySet(t, _) => t
    case CallSuspend(t) => t
    case CallResume(t) => t
    case IsrResume(t) => t
    case AnyEvent(q) => if At(k.ev, Event(q)).items != [] then At(k.ev, Event(q)).items[0] else k.current
    case CallCleanUp => if At(k.st, Terminating).items != [] then At(k.st, Terminating).items[0] else k.current
    case _ => k.current
  }

  lemma CreateTouches(k: K, t: Task, p: nat)
    requires Inv(k) && t !in k.prio
    ensures OnlyTouches(k, Create(k, t, p), t)
  {
    hide Inv, AddNew, OnlyTouches;
    Touches(k, Create(k, t, p), t);
  }

  lemma DeleteTouches(k: K, t: Task)
    requires Inv(k) && t in k.prio && t != k.idle && k.st.where[t] != Terminating
    ensures OnlyTouches(k, Delete(k, t), t)
  {
    hide Inv, DropEvent, MoveOut, Forget, ResetNext, OnlyTouches;
    Touches(k, Delete(k, t), t);
  }

  lemma SuspendTouches(k: K, t: Task)
    requires Inv(k) && t in k.prio && t != k.idle && k.st.where[t] != Terminating
    ensures OnlyTouches(k, Suspend(k, t), t)
  {
    hide Inv, DropEvent, MoveOut, OnlyTouches;
    Touches(k, Suspend(k, t), t);
  }

  lemma ResumeTouches(k: K, t: Task)
    requires Inv(k) && t in k.prio
    ensures OnlyTouches(k, Resume(k, t), t)
  {
    hide Inv, Unblock, OnlyTouches;
    Touches(k, Resume(k, t), t);
  }

  lemma ResumeFromISRTouches(k: K, t: Task)
    requires Inv(k) && t in k.prio
    ensures OnlyTouches(k, ResumeFromISR(k, t), t)
  {
    hide Inv, Unblock, PutEnd, OnlyTouches;
    if IsSuspended(k, t) && k.suspended > 0 {
      EventStore(k);
      PendTouches(k, ResumeFromISR(k, t), t);
    } else {
      Touches(k, ResumeFromISR(k, t), t);
    }
  }

  lemma PendTouches(k: K, k': K, t: Task)
    requires Ok(k.ev) && t !in k.ev.where && k' == k.(ev := PutEnd(k.ev, PendingReady, t))
    ensures OnlyTouches(k, k', t)
  {
    hide Ok, PutEnd, OnlyTouches;
    Touches(k, k', t);
  }

  lemma EventStore(k: K)
    requires Inv(k)
    ensures Ok(k.ev)
  {
  }

  lemma PrioritySetTouches(k: K, t: Task, p: nat)
    requires Inv(k) && t in k.prio
    ensures OnlyTouches(k, PrioritySet(k, t, p), t)
  {
    hide Inv, Reprioritise, OnlyTouches;
    Touches(k, PrioritySet(k, t, p), t);
  }

  lemma BlockTouches(k: K, ticks: nat, forever: bool, event: Option<nat>)
    requires Inv(k) && k.current != k.idle && k.st.where[k.current] == Ready(k.prio[k.current])
    requires 1 <= ticks <= MAX_DELAY
    ensures OnlyTouches(k, Block(k, ticks, forever, event), k.current)
  {
    hide Inv, AddCurrentToDelayed, Wait, OnlyTouches;
    Touches(k, Block(k, ticks, forever, event), k.current);
  }

  lemma EventTouches(k: K, q: nat)
    requires Inv(k) && At(k.ev, Event(q)).items != []
    ensures OnlyTouches(k, EventOccurs(k, q), At(k.ev, Event(q)).items[0])
  {
    hide Inv, At, WakeWaiter, OnlyTouches;
    Touches(k, EventOccurs(k, q), At(k.ev, Event(q)).items[0]);
  }

  lemma CleanUpTouches(k: K)
    requires Inv(k) && k.current == k.idle && k.deleted > 0
    ensures At(k.st, Terminating).items != [] && OnlyTouches(k, CleanUp(k), At(k.st, Terminating).items[0])
  {
    TerminatingHead(k);
    hide Inv, At, Forget, OnlyTouches;
    Touches(k, CleanUp(k), At(k.st, Terminating).items[0]);
  }

  /** No call but a tick, a context switch or the resumption of the scheduler moves time, or changes
      the lists, priority or wake time of any task but the one it is about. */
  lemma StepTouchesOnly(k: K, c: Call)
    requires Inv(k) && Settled(k) && Allowed(k, c) && !AboutMany(c)
    ensures OnlyTouches(k, Step(k, c), Subject(k, c))
  {
    hide Ok, Bits, Counts, Times, HomeOk, Settled, OnlyTouches, Create, Delete, Block, PrioritySet, Suspend, Resume,
      ResetNext, Interrupt, CleanUp, At;
    match c
    case CallCreate(t, p) => CreateTouches(k, t, p);
    case CallDelete(t) => DeleteTouches(k, t);
    case CallBlock(ticks, forever, event) => BlockTouches(k, ticks, forever, event);
    case CallPrioritySet(t, p) => PrioritySetTouches(k, t, p);
    case CallSuspend(t) => SuspendTouches(k, t);
    case CallResetUnblockTime => Touches(k, Step(k, c), k.current);
    case CallResume(t) => ResumeTouches(k, t);
    case CallSuspendAll => Touches(k, Step(k, c), k.current);
    case CallYield => Touches(k, Step(k, c), k.current);
    case CallCleanUp => CleanUpTouches(k);
    case IsrResume(_) => InterruptTouches(k, c);
    case AnyEvent(_) => InterruptTouches(k, c);
  }

  lemma InterruptTouches(k: K, c: Call)
    requires Inv(k) && Settled(k) && CanInterrupt(k, c) && !AboutMany(c)
    ensures OnlyTouches(k, Interrupt(k, c), Subject(k, c))
  {
    hide Inv, Settled, OnlyTouches, ResumeFromISR, EventOccurs, At;
    match c
    case IsrResume(t) => ResumeFromISRTouches(k, t);
    case AnyEvent(q) => EventTouches(k, q);
  }

  /** Resuming undoes suspending: a task that was ready is ready again, in the same list. */
  lemma ResumeUndoesSuspend(k: K, t: Task)
    requires Inv(k) && t in k.prio && t != k.idle && t != k.current && k.st.where[t] == Ready(k.prio[t])
    ensures var k' := Resume(Suspend(k, t), t);
            k'.st.where == k.st.where && k'.prio == k.prio && k'.ev.where == k.ev.where
  {
    hide Inv, Suspend, Resume;
    RunningHasNoEvent(k, t);
    SuspendWhere(k, t);
    ResumeWhere(Suspend(k, t), t);
    assert k.ev.where - {t} == k.ev.where;
  }

  lemma SuspendWhere(k: K, t: Task)
    requires Inv(k) && t in k.prio && t != k.idle && k.st.where[t] != Terminating
    ensures t in k.st.where
    ensures var k' := Suspend(k, t);
            && k'.st.where == k.st.where[t := Suspended] && k'.ev.where == k.ev.where - {t}
            && k'.prio == k.prio && k'.current == k.current
  {
    hide Ok, Bits, Counts, Times, HomeOk, DropEvent, MoveOut, ResetNext;
  }

  lemma ResumeWhere(k: K, t: Task)
    requires Inv(k) && t in k.prio && t != k.current && IsSuspended(k, t)
    ensures var k' := Resume(k, t);
            k'.st.where == k.st.where[t := Ready(k.prio[t])] && k'.ev.where == k.ev.where && k'.prio == k.prio
  {
    hide Ok, Bits, Counts, Times, HomeOk, Unblock;
  }

  /** A task that deletes itself goes to the termination list, to be freed later, and asks for a switch;
      any other task is freed at once. Either way it waits for nothing any more. */
  lemma DeleteWhere(k: K, t: Task)
    requires Inv(k) && t in k.prio && t != k.idle && k.st.where[t] != Terminating
    ensures t in k.st.where
    ensures var k' := Delete(k, t);
            && k'.ev.where == k.ev.where - {t} && k'.current == k.current
            && if t == k.current
               then && k'.st.where == k.st.where[t := Terminating] && k'.prio == k.prio && k'.request
                    && k'.deleted == k.deleted + 1 && k'.tasks == k.tasks
               else && k'.st.where == k.st.where - {t} && k'.prio == k.prio - {t} && k'.request == k.request
                    && k'.deleted == k.deleted && k'.tasks == k.tasks - 1
  {
    hide Inv, DropEvent, Times, Homes, HomeOk, TopWithout, Relocate, Take, ResetNext;
    CurrentInLists(k);
    InvParts(k);
  }

  /** A suspended task is readied by an interrupt, or held in the pending ready list while the
      scheduler is suspended; for any other task the call does nothing. */
  lemma ResumeFromISRWhere(k: K, t: Task)
    requires Inv(k) && t in k.prio
    ensures k.current in k.prio
    ensures var k' := ResumeFromISR(k, t);
            && (!IsSuspended(k, t) ==> k' == k)
            && (IsSuspended(k, t) && k.suspended == 0 ==>
                  && k'.st.where == k.st.where[t := Ready(k.prio[t])] && k'.ev == k.ev && k'.prio == k.prio
                  && (k'.request <==> k.request || k.prio[t] >= k.prio[k.current]))
            && (IsSuspended(k, t) && k.suspended > 0 ==>
                  && k'.ev.where == k.ev.where[t := PendingReady]
                  && k' == k.(ev := k'.ev))
  {
    CurrentInLists(k);
    EventStore(k);
    hide Inv, Unblock, PutEnd;
  }

  /** The running task sleeps, or is suspended for an indefinite wait, and waits for the event. */
  lemma BlockEffect(k: K, ticks: nat, forever: bool, event: Option<nat>)
    requires Inv(k) && k.current != k.idle && k.st.where[k.current] == Ready(k.prio[k.current])
    requires 1 <= ticks <= MAX_DELAY
    ensures var k' := Block(k, ticks, forever, event); var t := k.current;
            && k'.prio == k.prio && t in k'.st.where && k'.request == k.request
            && (if forever && ticks == MAX_DELAY then k'.st.where[t] == Suspended
                else IsDelayed(k', t) && WakeTime(k', t) == Now(k) + ticks)
            && (if event.Some? then t in k'.ev.where && k'.ev.where[t] == Event(event.value) else t !in k'.ev.where)
  {
    hide Inv, AddCurrentToDelayed, Wait;
    DelayedIds(k);
    CurrentInLists(k);
    RunningHasNoEvent(k, k.current);
  }

  lemma CurrentInLists(k: K)
    requires Inv(k)
    ensures k.current in k.prio && k.current in k.st.where
  {
  }

  // ---- Equal turns ---------------------------------------------------------------------------

  /** Context switches with nothing between them, and the tasks they make current. */
  function Switches(k: K, n: nat): (r: (K, seq<Task>))
    requires Inv(k)
    decreases n
  {
    if n == 0 then (k, [])
    else
      var k1 := SwitchContext(k);
      var (k2, ts) := Switches(k1, n - 1);
      (k2, [k1.current] + ts)
  }

  lemma SwitchWalks(k: K)
    requires Inv(k) && k.suspended == 0
    ensures var p := TopBit(k.top, MAX_PRIORITIES - 1); var k' := SwitchContext(k);
            && At(k.st, Ready(p)).items != [] && At(k.st, Ready(p)).index <= |At(k.st, Ready(p)).items|
            && At(k'.st, Ready(p)) == Rings.Advance(At(k.st, Ready(p))) && k'.current == Current(At(k'.st, Ready(p)))
            && k'.top == k.top && k'.suspended == 0
  {
    HighestReady(k);
    assert Proper(k.st, Ready(TopBit(k.top, MAX_PRIORITIES - 1)));
    hide Ok, Bits, Counts, Times, Homes, TopBit, ScanDown;
  }

  lemma {:induction false} SwitchesWalk(k: K, p: nat, n: nat)
    requires Inv(k) && k.suspended == 0 && p == TopBit(k.top, MAX_PRIORITIES - 1)
    ensures At(k.st, Ready(p)).items != [] && At(k.st, Ready(p)).index <= |At(k.st, Ready(p)).items|
    ensures Switches(k, n).1 == Walk(At(k.st, Ready(p)), n).1
    decreases n
  {
    hide Inv, SwitchContext, At, TopBit;
    SwitchWalks(k);
    if n > 0 {
      SwitchesWalk(SwitchContext(k), p, n - 1);
    }
  }

  /** With time slicing, as many context switches as there are tasks ready at the highest
      priority make each of them current exactly once. */
  lemma EqualTurns(k: K)
    requires Inv(k) && k.suspended == 0
    ensures var items := At(k.st, Ready(TopBit(k.top, MAX_PRIORITIES - 1))).items;
            var turns := Switches(k, |items|).1;
            multiset(turns) == multiset(items) && NoDup(turns)
  {
    var p := TopBit(k.top, MAX_PRIORITIES - 1);
    SwitchesWalk(k, p, |At(k.st, Ready(p)).items|);
    assert Proper(k.st, Ready(p));
    RoundRobin(At(k.st, Ready(p)));
  }
}
