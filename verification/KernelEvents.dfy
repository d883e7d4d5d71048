/** Event lists stay in order of priority, so an event wakes a waiter of the highest priority,
    as long as nobody changes the priority of a task that waits for an event. */
module KernelEvents {
  import opened Options
  import opened Rings
  import opened TaskLists
  import opened Scheduler
  import opened Kernel
  import opened KernelCalls
  import opened KernelRuns

  ghost predicate ListOrdered(ev: Store, rank: map<Task, nat>, q: nat) {
    SortedBy(At(ev, Event(q)).items, rank)
  }

  ghost predicate EvOrdered(ev: Store, rank: map<Task, nat>) {
    forall q :: ListOrdered(ev, rank, q)
  }

  /** The event item value of every task is configMAX_PRIORITIES less its priority. */
  ghost predicate Ranked(k: K) {
    forall t :: t in k.prio ==> t in k.rank && k.prio[t] <= MAX_PRIORITIES && k.rank[t] == MAX_PRIORITIES - k.prio[t]
  }

  ghost predicate Ordered(k: K) {
    EvOrdered(k.ev, k.rank) && Ranked(k)
  }

  // ---- Moves of event items ------------------------------------------------------------------

  lemma TakeOrdered(ev: Store, rank: map<Task, nat>, t: Task)
    requires Ok(ev) && t in ev.where && EvOrdered(ev, rank)
    ensures EvOrdered(Take(ev, t), rank)
  {
    hide Ok, At, SortedBy, Take;
    forall q ensures ListOrdered(Take(ev, t), rank, q) {
      assert ListOrdered(ev, rank, q);
      TakeKeepsSorted(ev, t, rank, Event(q));
    }
  }

  lemma PutPendingOrdered(ev: Store, rank: map<Task, nat>, t: Task)
    requires Ok(ev) && t !in ev.where && EvOrdered(ev, rank)
    ensures EvOrdered(PutEnd(ev, PendingReady, t), rank)
  {
    hide Ok, At, SortedBy, PutEnd;
    forall q ensures ListOrdered(PutEnd(ev, PendingReady, t), rank, q) {
      assert ListOrdered(ev, rank, q);
    }
  }

  lemma PutSortedOrdered(ev: Store, rank: map<Task, nat>, t: Task, l: nat)
    requires Ok(ev) && t !in ev.where && t in rank && EvOrdered(ev, rank)
    ensures forall x :: x in At(ev, Event(l)).items ==> x in rank
    ensures EvOrdered(PutSorted(ev, Event(l), t, rank), rank)
  {
    assert ListOrdered(ev, rank, l);
    assert forall x :: x in At(ev, Event(l)).items ==> x in rank;
    hide Ok, At, SortedBy, PutSorted;
    forall q ensures ListOrdered(PutSorted(ev, Event(l), t, rank), rank, q) {
      assert ListOrdered(ev, rank, q);
    }
  }

  lemma RerankOrdered(ev: Store, rank: map<Task, nat>, t: Task, v: nat)
    requires Ok(ev) && t !in ev.where && EvOrdered(ev, rank)
    ensures EvOrdered(ev, rank[t := v])
  {
    var rank' := rank[t := v];
    forall q ensures ListOrdered(ev, rank', q) {
      assert ListOrdered(ev, rank, q);
      assert t !in At(ev, Event(q)).items;
    }
  }

  lemma DropOrdered(k: K, t: Task)
    requires Ok(k.ev) && Ordered(k)
    ensures Ordered(DropEvent(k, t))
  {
    if t in k.ev.where {
      TakeOrdered(k.ev, k.rank, t);
    }
  }

  /** Nothing the order depends on has changed. */
  lemma SameOrdered(k: K, k': K)
    requires Ordered(k) && k'.ev == k.ev && k'.rank == k.rank
    requires forall t :: t in k'.prio ==> t in k.prio && k'.prio[t] == k.prio[t]
    ensures Ordered(k')
  {
  }

  lemma WakeOrdered(k: K, t: Task)
    requires Inv(k) && Ordered(k) && t in k.prio && Blocked(k.st.where[t])
    ensures Ordered(Wake(k, t))
  {
    hide Inv, Ordered, Wake, Take, Relocate;
    InvParts(k);
    WakeParts(k, t);
    DropOrdered(k, t);
    SameOrdered(DropEvent(k, t), Wake(k, t));
  }

  // ---- The loops -----------------------------------------------------------------------------

  lemma {:induction false} WakeExpiredOrdered(k: K, sw: bool)
    requires Inv(k) && Ordered(k)
    ensures Ordered(WakeExpired(k, sw).0)
    decreases |At(k.st, k.delayed).items|
  {
    hide Ok, Bits, Counts, SortedBy, HomeOk, Wake, Ordered;
    HeadIsEarliest(k);
    var items := At(k.st, k.delayed).items;
    if items != [] && k.wake[items[0]] <= k.tick {
      WakeOrdered(k, items[0]);
      WakeExpiredOrdered(Wake(k, items[0]), sw || k.prio[items[0]] >= k.prio[k.current]);
    } else {
      SameOrdered(k, WakeExpired(k, sw).0);
    }
  }

  lemma TickOrdered(k: K)
    requires Inv(k) && Settled(k) && Ordered(k)
    ensures Ordered(Tick(k).0)
  {
    hide Ok, Bits, Counts, SortedBy, HomeOk, AdvanceTick, WakeExpired, Ordered;
    if k.suspended > 0 {
      SameOrdered(k, Tick(k).0);
    } else {
      var k1 := AdvanceTick(k);
      InvOfTimes(k, k1);
      SameOrdered(k, k1);
      WakeExpiredOrdered(k1, false);
    }
  }

  lemma {:induction false} DrainOrdered(k: K)
    requires Inv(k) && Ordered(k)
    ensures Ordered(DrainPending(k))
    decreases |At(k.ev, PendingReady).items|
  {
    hide Ok, Bits, Counts, Times, SortedBy, HomeOk, Wake, Ordered;
    PendingHead(k.ev);
    var items := At(k.ev, PendingReady).items;
    if items != [] {
      WakeOrdered(k, items[0]);
      SameOrdered(Wake(k, items[0]), DrainOne(k, items[0]));
      DrainOrdered(DrainOne(k, items[0]));
    }
  }

  lemma {:induction false} ReplayOrdered(k: K, n: nat)
    requires Inv(k) && Settled(k) && k.suspended == 0 && Ordered(k)
    ensures Ordered(Replay(k, n))
    decreases n
  {
    hide Inv, Settled, Tick, Ordered;
    if n > 0 {
      TickOrdered(k);
      SameOrdered(Tick(k).0, ReplayOne(k));
      ReplayOrdered(ReplayOne(k), n - 1);
    }
  }

  lemma ResumeAllOrdered(k: K, yieldAfter: bool)
    requires Inv(k) && Settled(k) && k.suspended > 0 && Ordered(k)
    ensures Ordered(ResumeAll(k, yieldAfter))
  {
    hide Inv, Settled, DrainPending, Replay, Ordered, ResetNext;
    var k1 := k.(suspended := k.suspended - 1);
    SameOrdered(k, k1);
    if k.suspended == 1 {
      ResumeLastReady(k);
      DrainOrdered(k1);
      SameOrdered(DrainPending(k1), ResumeReady(k1));
      ReplayOrdered(ResumeReady(k1), k.pended);
      SameOrdered(Replay(ResumeReady(k1), k.pended), ResumeAll(k, yieldAfter));
    } else {
      SameOrdered(k, ResumeAll(k, yieldAfter));
    }
  }

  // ---- The calls -----------------------------------------------------------------------------

  lemma CreateOrdered(k: K, t: Task, p: nat)
    requires Inv(k) && Ordered(k) && t !in k.prio
    ensures Ordered(Create(k, t, p))
  {
    hide Bits, Counts, Times, SortedBy, HomeOk, AddNew, EvOrdered;
    RerankOrdered(k.ev, k.rank, t, MAX_PRIORITIES - if p >= MAX_PRIORITIES then MAX_PRIORITIES - 1 else p);
  }

  lemma DeleteOrdered(k: K, t: Task)
    requires Inv(k) && Ordered(k) && t in k.prio && t != k.idle && k.st.where[t] != Terminating
    ensures Ordered(Delete(k, t))
  {
    hide Ok, Bits, Counts, Times, SortedBy, HomeOk, DropEvent, MoveOut, Forget, ResetNext, Ordered;
    DropOrdered(k, t);
    SameOrdered(DropEvent(k, t), Delete(k, t));
  }

  lemma SuspendOrdered(k: K, t: Task)
    requires Inv(k) && Ordered(k) && t in k.prio && t != k.idle && k.st.where[t] != Terminating
    ensures Ordered(Suspend(k, t))
  {
    hide Ok, Bits, Counts, Times, SortedBy, HomeOk, DropEvent, MoveOut, ResetNext, Ordered;
    DropOrdered(k, t);
    SameOrdered(DropEvent(k, t), Suspend(k, t));
  }

  lemma BlockOrdered(k: K, ticks: nat, forever: bool, event: Option<nat>)
    requires Inv(k) && Ordered(k) && k.current != k.idle && Running(k) && 1 <= ticks <= MAX_DELAY
    ensures Ordered(Block(k, ticks, forever, event))
  {
    hide Ok, Bits, Counts, Times, SortedBy, HomeOk, AddCurrentToDelayed, EvOrdered, PutSorted;
    RunningHasNoEvent(k, k.current);
    if event.Some? {
      PutSortedOrdered(k.ev, k.rank, k.current, event.value);
    }
  }

  lemma PrioritySetOrdered(k: K, t: Task, p: nat)
    requires Inv(k) && Ordered(k) && t in k.prio && t !in k.ev.where
    ensures Ordered(PrioritySet(k, t, p))
  {
    hide Bits, Counts, Times, SortedBy, HomeOk, Reprioritise, EvOrdered;
    RerankOrdered(k.ev, k.rank, t, MAX_PRIORITIES - if p >= MAX_PRIORITIES then MAX_PRIORITIES - 1 else p);
  }

  lemma ResumeFromISROrdered(k: K, t: Task)
    requires Inv(k) && Ordered(k) && t in k.prio
    ensures Ordered(ResumeFromISR(k, t))
  {
    hide Inv, Unblock, PutEnd, Ordered;
    EventsOk(k);
    if IsSuspended(k, t) && k.suspended > 0 {
      EvOnly(k, ResumeFromISR(k, t)) by { PutPendingOrdered(k.ev, k.rank, t) by { HasEvOrder(k); } }
    } else {
      SameOrdered(k, ResumeFromISR(k, t));
    }
  }

  lemma EventsOk(k: K)
    requires Inv(k)
    ensures Ok(k.ev)
  {
  }

  lemma HasEvOrder(k: K)
    requires Ordered(k)
    ensures EvOrdered(k.ev, k.rank)
  {
  }

  lemma EvOnly(k: K, k': K)
    requires Ordered(k) && k'.prio == k.prio && k'.rank == k.rank && EvOrdered(k'.ev, k'.rank)
    ensures Ordered(k')
  {
    hide EvOrdered;
  }

  lemma EventOccursOrdered(k: K, q: nat)
    requires Inv(k) && Ordered(k) && At(k.ev, Event(q)).items != []
    ensures Ordered(EventOccurs(k, q))
  {
    hide Ok, Bits, Counts, Times, HomeOk, Wake, WakeWaiter, Ordered, At;
    EventHead(k.ev, q);
    WaiterOrdered(k, At(k.ev, Event(q)).items[0]);
  }

  lemma WaiterOrdered(k: K, t: Task)
    requires Inv(k) && Ordered(k) && t in k.ev.where && t in k.prio && Blocked(k.st.where[t])
    ensures Ordered(WakeWaiter(k, t))
  {
    hide Inv, Wake, Pend, Ordered;
    if k.suspended == 0 {
      WakeOrdered(k, t);
      SameOrdered(Wake(k, t), WakeWaiter(k, t));
    } else {
      PendOrdered(k, t);
      SameOrdered(Pend(k, t), WakeWaiter(k, t));
    }
  }

  lemma PendOrdered(k: K, t: Task)
    requires Inv(k) && Ordered(k) && t in k.ev.where
    ensures Ordered(Pend(k, t))
  {
    hide Inv, Ordered, EvOrdered, Take, PutEnd, Ok;
    EventsOk(k);
    HasEvOrder(k);
    TakeOrdered(k.ev, k.rank, t);
    PutPendingOrdered(Take(k.ev, t), k.rank, t);
    EvOnly(k, Pend(k, t));
  }

  lemma StepOrdered(k: K, c: Call)
    requires Good(k) && Allowed(k, c) && Ordered(k) && (c.CallPrioritySet? ==> c.t !in k.ev.where)
    ensures Ordered(Step(k, c))
  {
    hide Ok, Bits, Counts, Times, HomeOk, Settled, Preempted, Ordered, ResumeAll, CleanUp, Interrupt, At;
    match c
    case CallResumeAll(yieldAfter) => ResumeAllOrdered(k, yieldAfter);
    case CallResetUnblockTime => FlagsOrdered(k, Step(k, c));
    case CallSuspendAll => FlagsOrdered(k, Step(k, c));
    case CallYield => FlagsOrdered(k, Step(k, c));
    case CallCleanUp => CleanUpOrdered(k);
    case IsrResume(_) => InterruptOrdered(k, c);
    case AnyEvent(_) => InterruptOrdered(k, c);
    case IsrTick => InterruptOrdered(k, c);
    case ContextSwitch => InterruptOrdered(k, c);
    case _ => hide Step; TaskCallOrdered(k, c);
  }

  lemma TaskCallOrdered(k: K, c: Call)
    requires Good(k) && Allowed(k, c) && Ordered(k) && (c.CallPrioritySet? ==> c.t !in k.ev.where)
    requires c.CallCreate? || c.CallDelete? || c.CallBlock? || c.CallPrioritySet? || c.CallSuspend? || c.CallResume?
    ensures Ordered(Step(k, c))
  {
    hide Ok, Bits, Counts, Times, HomeOk, Settled, Preempted, Ordered, Create, Delete, Block, PrioritySet, Suspend,
      Resume, At;
    match c
    case CallCreate(t, p) => CreateOrdered(k, t, p);
    case CallDelete(t) => DeleteOrdered(k, t);
    case CallBlock(ticks, forever, event) => BlockOrdered(k, ticks, forever, event);
    case CallPrioritySet(t, p) => PrioritySetOrdered(k, t, p);
    case CallSuspend(t) => SuspendOrdered(k, t);
    case CallResume(t) => ResumeOrdered(k, t);
  }

  lemma FlagsOrdered(k: K, k': K)
    requires Ordered(k) && k' == k.(next := k'.next, suspended := k'.suspended, request := k'.request)
    ensures Ordered(k')
  {
    hide Ordered;
    SameOrdered(k, k');
  }

  lemma ResumeOrdered(k: K, t: Task)
    requires Inv(k) && Ordered(k) && t in k.prio
    ensures Ordered(Resume(k, t))
  {
    hide Inv, Ordered, Unblock;
    SameOrdered(k, Resume(k, t));
  }

  lemma CleanUpOrdered(k: K)
    requires Inv(k) && Ordered(k) && k.current == k.idle && k.deleted > 0
    ensures Ordered(CleanUp(k))
  {
    hide Inv, Ordered, Forget;
    TerminatingHead(k);
    SameOrdered(k, CleanUp(k));
  }

  lemma InterruptOrdered(k: K, c: Call)
    requires Inv(k) && Settled(k) && Ordered(k) && CanInterrupt(k, c)
    ensures Ordered(Interrupt(k, c))
  {
    hide Inv, Settled, Ordered, ResumeFromISR, EventOccurs, Tick, At;
    match c
    case IsrResume(t) => ResumeFromISROrdered(k, t);
    case AnyEvent(q) => EventOccursOrdered(k, q);
    case IsrTick => TickOrdered(k); SameOrdered(Tick(k).0, TickInterrupt(k));
    case ContextSwitch => SwitchOrdered(k);
  }

  lemma SwitchOrdered(k: K)
    requires Inv(k) && Ordered(k)
    ensures Ordered(SwitchContext(k))
  {
    hide Inv, Ordered, WalkList, TopBit;
    SameOrdered(k, SwitchContext(k));
  }

  // ---- Runs ----------------------------------------------------------------------------------

  /** No call changes the priority of a task while its event item is in a list. */
  ghost predicate WaitersKeepPriority(k: K, cs: seq<Call>)
    requires Good(k) && ValidRun(k, cs)
    decreases |cs|
  {
    cs == [] || ((cs[0].CallPrioritySet? ==> cs[0].t !in k.ev.where)
                 && (StepGood(k, cs[0]); WaitersKeepPriority(Step(k, cs[0]), cs[1..])))
  }

  lemma {:induction false} RunOrdered(k: K, cs: seq<Call>)
    requires Good(k) && Ordered(k) && ValidRun(k, cs) && WaitersKeepPriority(k, cs)
    ensures Ordered(Run(k, cs))
    decreases |cs|
  {
    hide Inv, Settled, Preempted, Ordered, Step;
    if cs != [] {
      StepGood(k, cs[0]);
      StepOrdered(k, cs[0]);
      RunOrdered(Step(k, cs[0]), cs[1..]);
    }
  }

  lemma StartedOrdered(idle: Task)
    ensures Ordered(Started(idle))
  {
    forall p ensures ListOrdered(Started(idle).ev, Started(idle).rank, p) {}
  }

  /** From the start of the scheduler, an event wakes a task whose priority is not below that of
      any other task waiting for it. */
  lemma EventWakesHighest(idle: Task, cs: seq<Call>, q: nat)
    requires (StartedGood(idle); ValidRun(Started(idle), cs) && WaitersKeepPriority(Started(idle), cs))
    ensures var k := (StartedGood(idle); Run(Started(idle), cs)); var items := At(k.ev, Event(q)).items;
            forall t :: t in items ==> t in k.prio && items[0] in k.prio && k.prio[t] <= k.prio[items[0]]
  {
    StartedGood(idle);
    StartedOrdered(idle);
    RunOrdered(Started(idle), cs);
    var k := Run(Started(idle), cs);
    hide Run, ValidRun, WaitersKeepPriority, Started;
    assert ListOrdered(k.ev, k.rank, q);
    HeadHighest(k, q);
  }

  lemma HeadHighest(k: K, q: nat)
    requires Inv(k) && Ranked(k) && ListOrdered(k.ev, k.rank, q)
    ensures var items := At(k.ev, Event(q)).items;
            forall t :: t in items ==> t in k.prio && items[0] in k.prio && k.prio[t] <= k.prio[items[0]]
  {
    hide Bits, Counts, Times, HomeOk;
    var items := At(k.ev, Event(q)).items;
    forall t | t in items ensures t in k.prio && items[0] in k.prio && k.prio[t] <= k.prio[items[0]] {
      var i := IndexOf(items, t);
      assert items[0] in items;
    }
  }

  // ---- vTaskPrioritySet ----------------------------------------------------------------------

  /** A priority out of range becomes the highest one. The task has the new priority, and the item
      value that goes with it, wherever it is; a ready task is in that priority's ready list and no
      other task or list is touched. A switch is asked for exactly if the running task is lowered or
      another task is raised to the running task's priority or above. */
  lemma PrioritySetIs(k: K, t: Task, p: nat)
    requires Inv(k) && Ranked(k) && t in k.prio
    ensures t in k.st.where && k.current in k.prio
    ensures var k' := PrioritySet(k, t, p); var p' := if p < MAX_PRIORITIES then p else MAX_PRIORITIES - 1;
            && k' == k.(st := k'.st, top := k'.top, prio := k.prio[t := p'], rank := k.rank[t := MAX_PRIORITIES - p'],
                        request := k'.request)
            && k'.st.where == (if k.st.where[t].Ready? then k.st.where[t := Ready(p')] else k.st.where)
            && (k.st.where[t].Ready? ==> t in At(k'.st, Ready(p')).items)
            && (forall l :: l != Ready(p') && l != k.st.where[t] ==> At(k'.st, l) == At(k.st, l))
            && (k'.request <==> || k.request || (t == k.current && p' < k.prio[t])
                                || (t != k.current && k.prio[t] < p' && k.prio[k.current] <= p'))
  {
    hide Inv, Ranked, Ok, At, Reprioritise;
    var k', p' := PrioritySet(k, t, p), if p < MAX_PRIORITIES then p else MAX_PRIORITIES - 1;
    SamePriority(k, t);
    if p' != k.prio[t] {
      MovedLists(k, t, p');
    }
    StateItems(k');
    InOwn(k'.st, t);
  }

  lemma StateItems(k: K)
    requires Inv(k)
    ensures Ok(k.st) && k.st.where.Keys == k.prio.Keys && k.current in k.prio
  {
  }

  lemma SamePriority(k: K, t: Task)
    requires Inv(k) && Ranked(k) && t in k.prio
    ensures t in k.rank && k.prio[t := k.prio[t]] == k.prio && k.rank[t := MAX_PRIORITIES - k.prio[t]] == k.rank
    ensures t in k.st.where && (k.st.where[t].Ready? ==> k.st.where[t] == Ready(k.prio[t]))
    ensures k.st.where[t := k.st.where[t]] == k.st.where && k.current in k.prio && k.prio[t] < MAX_PRIORITIES
  {
  }

  lemma MovedLists(k: K, t: Task, p: nat)
    requires Inv(k) && t in k.prio && p < MAX_PRIORITIES && p != k.prio[t]
    ensures forall l :: l != Ready(p) && l != k.st.where[t] ==> At(Reprioritise(k, t, p).st, l) == At(k.st, l)
  {
    InvParts(k);
    hide Inv, Ok, At, Relocate, Take;
  }

  // ---- When a waiting task changes priority --------------------------------------------------

  lemma RerankedIff(items: seq<Task>, rank: map<Task, nat>, i: nat, v: nat)
    requires SortedBy(items, rank) && NoDup(items) && i < |items|
    ensures SortedBy(items, rank[items[i] := v])
       <==> (i > 0 ==> rank[items[i - 1]] <= v) && (i + 1 < |items| ==> v <= rank[items[i + 1]])
  {
    var rank' := rank[items[i] := v];
    if (i > 0 ==> rank[items[i - 1]] <= v) && (i + 1 < |items| ==> v <= rank[items[i + 1]]) {
      forall a, b | 0 <= a < b < |items| ensures rank'[items[a]] <= rank'[items[b]] {
        assert a != i ==> rank'[items[a]] == rank[items[a]];
        assert b != i ==> rank'[items[b]] == rank[items[b]];
      }
    } else if i > 0 && rank[items[i - 1]] > v {
      assert rank'[items[i - 1]] > rank'[items[i]];
    } else {
      assert rank'[items[i]] > rank'[items[i + 1]];
    }
  }

  lemma AmongWaiters(items: seq<Task>, i: nat)
    requires i < |items|
    ensures items[i] in items && (i > 0 ==> items[i - 1] in items) && (i + 1 < |items| ==> items[i + 1] in items)
  {
  }

  /** vTaskPrioritySet rewrites the event item value of a waiting task but leaves the item where
      it is. Its event list stays in order if and only if the new priority lies between those of
      its neighbours in the list. */
  lemma WaiterPriorityChangeIff(k: K, q: nat, i: nat, p: nat)
    requires Inv(k) && Ordered(k) && i < |At(k.ev, Event(q)).items| && p < MAX_PRIORITIES
    ensures var items := At(k.ev, Event(q)).items; var t := items[i];
            && t in k.prio && (forall x :: x in items ==> x in k.prio)
            && (AmongWaiters(items, i); ListOrdered(PrioritySet(k, t, p).ev, PrioritySet(k, t, p).rank, q)
                <==> (i > 0 ==> k.prio[items[i - 1]] >= p) && (i + 1 < |items| ==> p >= k.prio[items[i + 1]]))
  {
    hide Inv, SortedBy, Reprioritise, At, Ordered;
    var items := At(k.ev, Event(q)).items;
    var t := items[i];
    WaitersLive(k, q);
    AmongWaiters(items, i);
    OrderedAt(k, q);
    RerankedIff(items, k.rank, i, MAX_PRIORITIES - p);
    if k.prio[t] == p {
      assert k.rank[t := MAX_PRIORITIES - p] == k.rank;
    }
  }

  lemma OrderedAt(k: K, q: nat)
    requires Inv(k) && Ordered(k)
    ensures ListOrdered(k.ev, k.rank, q)
    ensures forall x :: x in k.prio ==> x in k.rank && k.rank[x] == MAX_PRIORITIES - k.prio[x]
  {
    hide Ok, Bits, Counts, Times, HomeOk, SortedBy, At;
    assert ListOrdered(k.ev, k.rank, q);
  }

  lemma WaitersLive(k: K, q: nat)
    requires Inv(k)
    ensures NoDup(At(k.ev, Event(q)).items) && forall x :: x in At(k.ev, Event(q)).items ==> x in k.prio
  {
    hide Bits, Counts, Times, HomeOk;
    assert Proper(k.ev, Event(q));
  }
}
