/** What every kernel call, tick and interrupt keeps: the scheduler invariant, a right next
    unblock time, and no missed preemption; and runs of such steps. */
module KernelRuns {
  import opened Options
  import opened Rings
  import opened TaskLists
  import opened Scheduler
  import opened Kernel
  import opened KernelCalls

  ghost predicate MaxReady(k: K)
    requires Homes(k)
  {
    forall t :: t in k.st.where && k.st.where[t].Ready? ==> k.prio[t] <= k.prio[k.current]
  }

  /** The current task is ready with the highest ready priority, or a context switch has
      been requested. A task that is blocking itself is still current while it holds the
      scheduler suspended. */
  ghost predicate Preempted(k: K)
    requires Homes(k)
  {
    k.request || k.yieldPending || (MaxReady(k) && (k.st.where[k.current].Ready? || k.suspended > 0))
  }

  ghost predicate Good(k: K) {
    Inv(k) && Settled(k) && Preempted(k) && (k.suspended == 0 ==> k.pended == 0)
  }

  // ---- Each call keeps the scheduler settled and preemption correct ------------------------

  /** Nothing new is delayed, and nothing the next unblock time depends on has changed. */
  lemma SettledFrom(k: K, k': K)
    requires Settled(k) && k'.tick == k.tick && k'.next == k.next && k'.delayed == k.delayed && k'.wake == k.wake
    requires forall t :: t in k'.st.where && k'.st.where[t] == k.delayed ==>
               t in k.st.where && k.st.where[t] == k.delayed
    requires k'.suspended == 0 ==> NoPending(k')
    ensures Settled(k')
  {
    hide NoPending;
  }

  lemma NotReadyList(k: K)
    requires Times(k)
    ensures !k.delayed.Ready? && !k.overflow.Ready? && k.delayed != Suspended && k.delayed != Terminating
  {
    hide SortedBy, At;
  }

  lemma CreatedPreempts(k: K, k': K, t: Task, p: nat)
    requires Homes(k) && Homes(k') && Preempted(k) && t !in k.prio && k'.current == k.current
    requires k'.prio == k.prio[t := p] && k'.st.where == k.st.where[t := Ready(p)]
    requires k'.suspended == k.suspended && k'.yieldPending == k.yieldPending
    requires k'.request <==> k.request || k.prio[k.current] < p
    ensures Preempted(k')
  {
    hide HomeOk;
  }

  lemma CreateGood(k: K, t: Task, p: nat)
    requires Good(k) && t !in k.prio
    ensures Good(Create(k, t, p))
  {
    hide Ok, Bits, Counts, Times, HomeOk, Preempted, Settled, AddNew;
    var k' := Create(k, t, p);
    NotReadyList(k);
    SameNoPending(k, k');
    SettledFrom(k, k');
    CreatedPreempts(k, k', t, k'.prio[t]);
  }

  lemma SameNoPending(k: K, k': K)
    requires Settled(k) && k'.ev.where == k.ev.where && k'.suspended == k.suspended
    ensures k'.suspended == 0 ==> NoPending(k')
  {
  }

  /** From `k` to `k'` only task `t` left its lists, for a list outside the ready and
      delayed lists or for good. */
  ghost predicate Left(k: K, k': K, t: Task) {
    && k'.tick == k.tick && k'.delayed == k.delayed && k'.wake == k.wake && k'.current == k.current
    && k'.suspended == k.suspended && k'.pended == k.pended && k'.yieldPending == k.yieldPending
    && k'.ev.where == k.ev.where - {t}
    && (forall x :: x in k'.prio ==> x in k.prio && k'.prio[x] == k.prio[x])
    && (forall x :: x in k'.st.where && x != t ==> x in k.st.where && k'.st.where[x] == k.st.where[x])
    && (t in k'.st.where ==> k'.st.where[t] == Suspended || k'.st.where[t] == Terminating)
    && (k.request || t == k.current ==> k'.request)
  }

  ghost predicate NextOk(k: K) {
    && (forall t :: t in k.st.where && k.st.where[t] == k.delayed ==> t in k.wake && k.next <= k.wake[t])
    && (|| k.next == MAX_DELAY
        || exists t :: t in k.st.where && k.st.where[t] == k.delayed && t in k.wake && k.next == k.wake[t])
  }

  lemma LeftGood(k: K, k': K, t: Task)
    requires Good(k) && Inv(k') && Left(k, k', t) && k'.tick <= k'.next < WRAP && (k'.next == k.next || NextOk(k'))
    ensures Good(k')
  {
    hide Ok, Bits, Counts, SortedBy;
    LeftSettled(k, k', t);
    assert k'.request || t != k.current;
  }

  lemma LeftSettled(k: K, k': K, t: Task)
    requires Settled(k) && Left(k, k', t) && Times(k')
    requires k'.tick <= k'.next < WRAP && (k'.next == k.next || NextOk(k'))
    ensures Settled(k')
  {
    hide SortedBy;
  }

  lemma ResetNextOk(k: K)
    requires Inv(k)
    ensures NextOk(ResetNext(k)) && ResetNext(k) == k.(next := ResetNext(k).next)
    ensures k.tick <= ResetNext(k).next < WRAP && Inv(ResetNext(k))
  {
    InvOfFlags(k, ResetNext(k));
    hide Ok, Bits, Counts, SortedBy, Homes, ResetNext;
  }

  lemma DeleteGood(k: K, t: Task)
    requires Good(k) && t in k.prio && t != k.idle && k.st.where[t] != Terminating
    requires t == k.current ==> k.suspended == 0
    ensures Good(Delete(k, t))
  {
    hide Ok, Bits, Counts, Times, Homes, Preempted, MoveOut, Forget, DropEvent, ResetNext, NextOk;
    if t != k.current {
      ResetNextOk(Forget(DropEvent(k, t), t));
    }
    LeftGood(k, Delete(k, t), t);
  }

  lemma AddCurrentGood(k: K, ticks: nat, forever: bool)
    requires Good(k) && k.current != k.idle && Running(k) && 1 <= ticks <= MAX_DELAY && k.suspended > 0
    ensures Good(AddCurrentToDelayed(k, ticks, forever))
  {
    hide Ok, Bits, Counts, Times, HomeOk, Preempted, AddCurrentToDelayed;
    var k' := AddCurrentToDelayed(k, ticks, forever);
    DelayedIds(k);
    RunningHasNoEvent(k, k.current);
    LeftReady(k, k', k.current);
  }

  lemma LeftReady(k: K, k': K, t: Task)
    requires Homes(k) && Homes(k') && Preempted(k) && k.suspended > 0 && t in k'.st.where && !k'.st.where[t].Ready?
    requires k'.prio == k.prio && k'.current == k.current && k'.suspended == k.suspended
    requires k'.request == k.request && k'.yieldPending == k.yieldPending
    requires k'.st.where == k.st.where[t := k'.st.where[t]]
    ensures Preempted(k')
  {
    hide HomeOk;
  }

  lemma WaitGood(k: K, t: Task, q: nat)
    requires Good(k) && t in k.prio && t !in k.ev.where && Blocked(k.st.where[t])
    ensures Good(Wait(k, t, q))
  {
    hide Ok, Bits, Counts, SortedBy, Wait;
  }

  lemma BlockGood(k: K, ticks: nat, forever: bool, event: Option<nat>)
    requires Good(k) && k.current != k.idle && Running(k) && 1 <= ticks <= MAX_DELAY && k.suspended > 0
    ensures Good(Block(k, ticks, forever, event))
  {
    hide Ok, Bits, Counts, Times, SortedBy, Settled, Preempted, AddCurrentToDelayed, Wait;
    AddCurrentGood(k, ticks, forever);
    DelayedIds(k);
    RunningHasNoEvent(k, k.current);
    if event.Some? {
      WaitGood(AddCurrentToDelayed(k, ticks, forever), k.current, event.value);
    }
  }

  lemma PrioritySetGood(k: K, t: Task, p: nat)
    requires Good(k) && t in k.prio && Running(k)
    ensures Good(PrioritySet(k, t, p))
  {
    hide Ok, Bits, Counts, Times, Preempted, Settled, HomeOk, Reprioritise;
    var p' := if p >= MAX_PRIORITIES then MAX_PRIORITIES - 1 else p;
    if k.prio[t] != p' {
      RerankedGood(k, PrioritySet(k, t, p), t, p');
    }
  }

  lemma RerankedGood(k: K, k': K, t: Task, p: nat)
    requires Good(k) && Inv(k') && t in k.prio && t in k.st.where && Running(k)
    requires k'.prio == k.prio[t := p]
    requires k' == k.(st := k'.st, top := k'.top, prio := k'.prio, rank := k'.rank, request := k'.request)
    requires k'.st.where == if k.st.where[t].Ready? then k.st.where[t := Ready(p)] else k.st.where
    requires k.request ==> k'.request
    requires p > k.prio[t] && t != k.current && p >= k.prio[k.current] ==> k'.request
    requires p < k.prio[t] && t == k.current ==> k'.request
    ensures Good(k')
  {
    hide Ok, Bits, Counts, Times, HomeOk, Settled, Preempted;
    NotReadyList(k);
    SameNoPending(k, k');
    SettledFrom(k, k');
    RerankedPreempts(k, k', t, p);
  }

  lemma RerankedPreempts(k: K, k': K, t: Task, p: nat)
    requires Homes(k) && Homes(k') && Preempted(k) && t in k.prio && Running(k) && k'.current == k.current
    requires k'.prio == k.prio[t := p] && k'.suspended == k.suspended && k'.yieldPending == k.yieldPending
    requires k'.st.where == if k.st.where[t].Ready? then k.st.where[t := Ready(p)] else k.st.where
    requires k.request ==> k'.request
    requires p > k.prio[t] && t != k.current && p >= k.prio[k.current] ==> k'.request
    requires p < k.prio[t] && t == k.current ==> k'.request
    ensures Preempted(k')
  {
    hide HomeOk;
  }

  lemma SuspendGood(k: K, t: Task)
    requires Good(k) && t in k.prio && t != k.idle && k.st.where[t] != Terminating
    requires t == k.current ==> k.suspended == 0
    ensures Good(Suspend(k, t))
  {
    hide Ok, Bits, Counts, Times, Homes, Preempted, MoveOut, DropEvent;
    LeftGood(k, Suspend(k, t), t);
  }

  lemma ResetNextGood(k: K)
    requires Good(k)
    ensures Good(ResetNext(k))
  {
    hide Ok, Bits, Counts, SortedBy, HomeOk, ResetNext;
    ResetNextOk(k);
  }

  /** Task `t` became ready; if it is above the current task a switch was requested. */
  ghost predicate Readied(k: K, k': K, t: Task) {
    && k' == k.(st := k'.st, ev := k'.ev, top := k'.top, request := k'.request, yieldPending := k'.yieldPending)
    && t in k.prio && k.current in k.prio && k'.st.where == k.st.where[t := Ready(k.prio[t])]
    && k'.ev.where == k.ev.where - {t}
    && (k.request ==> k'.request) && (k.yieldPending ==> k'.yieldPending)
    && (k.prio[t] > k.prio[k.current] ==> k'.request || k'.yieldPending)
  }

  lemma ReadiedGood(k: K, k': K, t: Task)
    requires Good(k) && Inv(k') && Readied(k, k', t)
    ensures Good(k')
  {
    hide Ok, Bits, Counts, Times, HomeOk, Settled, Preempted;
    NotReadyList(k);
    DroppedNoPending(k, k', t);
    SettledFrom(k, k');
    ReadiedPreempts(k, k', t);
  }

  lemma DroppedNoPending(k: K, k': K, t: Task)
    requires Settled(k) && k'.ev.where == k.ev.where - {t} && k'.suspended == k.suspended
    ensures k'.suspended == 0 ==> NoPending(k')
  {
  }

  lemma ReadiedPreempts(k: K, k': K, t: Task)
    requires Homes(k) && Homes(k') && Preempted(k) && Readied(k, k', t)
    ensures Preempted(k')
  {
    hide HomeOk;
  }

  lemma ResumeGood(k: K, t: Task)
    requires Good(k) && t in k.prio
    ensures Good(Resume(k, t))
  {
    hide Ok, Bits, Counts, Times, Preempted, Settled, HomeOk, Unblock;
    if t != k.current && IsSuspended(k, t) {
      assert k.ev.where - {t} == k.ev.where;
      ReadiedGood(k, Resume(k, t), t);
    }
  }

  lemma ResumeFromISRGood(k: K, t: Task)
    requires Good(k) && t in k.prio
    ensures Good(ResumeFromISR(k, t))
  {
    hide Ok, Bits, Counts, Times, Preempted, Settled, HomeOk, Unblock, PutEnd;
    if IsSuspended(k, t) {
      assert k.ev.where - {t} == k.ev.where;
      if k.suspended == 0 {
        ReadiedGood(k, ResumeFromISR(k, t), t);
      } else {
        PendedGood(k, ResumeFromISR(k, t), t);
      }
    }
  }

  lemma PendedGood(k: K, k': K, t: Task)
    requires Good(k) && k.suspended > 0 && Inv(k')
    requires k' == k.(st := k'.st, ev := k'.ev, top := k'.top, yieldPending := k'.yieldPending)
    requires k'.st.where == k.st.where && k'.ev.where == k.ev.where[t := PendingReady]
    requires k.yieldPending ==> k'.yieldPending
    ensures Good(k')
  {
    hide Ok, Bits, Counts, SortedBy;
  }

  lemma WakeWaiterGood(k: K, t: Task)
    requires Good(k) && t in k.ev.where
    ensures Good(WakeWaiter(k, t))
  {
    hide Ok, Bits, Counts, Times, Preempted, Settled, HomeOk, WakeWaiter;
    if k.suspended == 0 {
      ReadiedGood(k, WakeWaiter(k, t), t);
    } else {
      PendedGood(k, WakeWaiter(k, t), t);
    }
  }

  lemma EventOccursGood(k: K, q: nat)
    requires Good(k) && At(k.ev, Event(q)).items != []
    ensures Good(EventOccurs(k, q))
  {
    EventHead(k.ev, q);
    hide Good, WakeWaiter;
    WakeWaiterGood(k, At(k.ev, Event(q)).items[0]);
  }

  /** A tick that reports no switch has readied nobody above the current task. */
  lemma TickedPreempts(k: K, k': K, sw: bool)
    requires Homes(k) && Homes(k') && Times(k) && Ticked(k, k')
    requires (exists t :: t in k.prio && IsDelayed(k, t) && WakeTime(k, t) == Now(k) + 1
                          && k.prio[t] >= k.prio[k.current]) ==> sw
    ensures MaxReady(k) ==> sw || MaxReady(k')
    ensures k.st.where[k.current].Ready? ==> k'.st.where[k.current].Ready?
  {
  }

  lemma TickGood(k: K)
    requires Good(k)
    ensures Good(TickInterrupt(k))
  {
    hide Ok, Bits, Counts, Times, HomeOk, Settled, AdvanceTick, WakeExpired, Ticked, MaxReady, IsDelayed, WakeTime;
    if k.suspended > 0 {
      SettledOfFlags(k, TickInterrupt(k));
      SameMax(k, TickInterrupt(k));
    } else {
      TickExact(k);
      TickedFields(k, Tick(k).0);
      TickedPreempts(k, Tick(k).0, Tick(k).1);
      SettledOfFlags(Tick(k).0, TickInterrupt(k));
    }
  }

  lemma SameMax(k: K, k': K)
    requires Homes(k) && Homes(k') && k'.prio == k.prio && k'.st == k.st && k'.current == k.current
    ensures MaxReady(k') <==> MaxReady(k)
  {
    hide HomeOk;
  }

  lemma TickedFields(k: K, k': K)
    requires Ticked(k, k')
    ensures k'.prio == k.prio && k'.current == k.current && k'.suspended == k.suspended && k'.pended == k.pended
    ensures k'.request == k.request && k'.yieldPending == k.yieldPending
  {
  }

  lemma SettledOfFlags(k: K, k1: K)
    requires Settled(k) && k1 == k.(yieldPending := k1.yieldPending, request := k1.request, pended := k1.pended)
    ensures Settled(k1)
  {
  }

  /** Between `k` and `k'` nobody rose above the current task unreported, and the current
      task did not lose its ready state. */
  ghost predicate Kept(k: K, k': K) {
    && Homes(k) && Homes(k') && k'.current == k.current
    && (k.yieldPending ==> k'.yieldPending)
    && (MaxReady(k) ==> k'.yieldPending || MaxReady(k'))
    && (k.st.where[k.current].Ready? ==> k'.st.where[k.current].Ready?)
  }

  lemma KeptRefl(k: K)
    requires Inv(k)
    ensures Kept(k, k)
  {
  }

  lemma KeptTrans(k: K, k1: K, k2: K)
    requires Kept(k, k1) && Kept(k1, k2)
    ensures Kept(k, k2)
  {
  }

  lemma ReplayOnePreempts(k: K)
    requires Inv(k) && Settled(k) && k.suspended == 0
    ensures Kept(k, ReplayOne(k))
  {
    hide Ok, Bits, Counts, SortedBy, Tick, Ticked;
    TickExact(k);
    TickedPreempts(k, Tick(k).0, Tick(k).1);
  }

  lemma {:induction false} ReplayPreempts(k: K, n: nat)
    requires Inv(k) && Settled(k) && k.suspended == 0
    ensures Kept(k, Replay(k, n))
    decreases n
  {
    hide Inv, Settled, Kept, ReplayOne, Tick;
    if n == 0 {
      KeptRefl(k);
    } else {
      ReplayOnePreempts(k);
      ReplayPreempts(ReplayOne(k), n - 1);
      KeptTrans(k, ReplayOne(k), Replay(k, n));
    }
  }

  /** Readying the pending tasks reports a yield if one is not below the current task. */
  lemma DrainedPreempts(k: K, k': K)
    requires Homes(k) && Homes(k') && Drained(k, k') && k'.prio == k.prio && k'.current == k.current
    ensures Kept(k, k')
  {
  }

  lemma ResumedPreempts(k: K, k2: K, k': K, yieldAfter: bool)
    requires Kept(k, k2) && Homes(k') && (Running(k) || yieldAfter) && Preempted(k.(suspended := 1))
    requires k2.request == k.request && k2.prio == k.prio && (k.yieldPending ==> k2.yieldPending)
    requires k' == k2.(pended := 0, request := k2.request || k2.yieldPending || yieldAfter)
    ensures Preempted(k')
  {
  }

  lemma ResumeAllGood(k: K, yieldAfter: bool)
    requires Good(k) && k.suspended > 0 && (Running(k) || yieldAfter)
    ensures Good(ResumeAll(k, yieldAfter))
  {
    var k1 := k.(suspended := k.suspended - 1);
    if k1.suspended == 0 {
      ResumeLastGood(k, k1, yieldAfter);
    }
  }

  lemma ResumeLastGood(k: K, k1: K, yieldAfter: bool)
    requires Good(k) && k.suspended == 1 && k1 == k.(suspended := 0) && (Running(k) || yieldAfter)
    ensures Good(ResumeAll(k, yieldAfter))
  {
    hide Ok, Bits, Counts, Times, SortedBy, Drained, Replay, ResumeReady, Kept, Settled, HomeOk, MaxReady;
    assert k1.(suspended := 1) == k;
    InvOfFlags(k, k1);
    ResumeReadySettled(k1);
    var k2 := ResumeReady(k1);
    var k3 := Replay(k2, k.pended);
    DrainedPreempts(k1, k2);
    ReplayPreempts(k2, k.pended);
    KeptTrans(k1, k2, k3);
    ResumedPreempts(k1, k3, ResumeAll(k, yieldAfter), yieldAfter);
    SettledOfFlags(k3, ResumeAll(k, yieldAfter));
  }

  lemma SwitchContextGood(k: K)
    requires Good(k)
    ensures Good(SwitchContext(k))
  {
    hide Ok, Bits, Counts, Times, Settled, WalkList, TopBit;
    if k.suspended > 0 {
      SettledOfFlags(k, SwitchContext(k));
    } else {
      HighestReady(k);
      SameNoPending(k, SwitchContext(k));
      SettledFrom(k, SwitchContext(k));
    }
  }

  lemma CleanUpGood(k: K)
    requires Good(k) && k.current == k.idle && k.deleted > 0
    ensures Good(CleanUp(k))
  {
    hide Inv, Preempted, Forget;
    TerminatingHead(k);
    LeftGood(k, CleanUp(k), At(k.st, Terminating).items[0]);
  }

  lemma YieldGood(k: K)
    requires Good(k)
    ensures Good(k.(request := true))
  {
    hide Ok, Bits, Counts, Times, HomeOk, Settled, MaxReady;
    InvOfFlags(k, k.(request := true));
    SettledOfFlags(k, k.(request := true));
  }

  lemma SuspendAllGood(k: K)
    requires Good(k) && Running(k)
    ensures Good(SuspendAll(k))
  {
    hide Ok, Bits, Counts, Times, HomeOk, Settled;
  }

  lemma InterruptGood(k: K, c: Call)
    requires Good(k) && CanInterrupt(k, c)
    ensures Good(Interrupt(k, c))
  {
    hide Inv, Settled, Preempted, ResumeFromISR, EventOccurs, TickInterrupt, SwitchContext, At;
    match c
    case IsrResume(t) => ResumeFromISRGood(k, t);
    case AnyEvent(q) => EventOccursGood(k, q);
    case IsrTick => TickGood(k);
    case ContextSwitch => SwitchContextGood(k);
  }

  /** Calls that move one task between lists. */
  lemma TaskCallGood(k: K, c: Call)
    requires Good(k) && Allowed(k, c)
    requires c.CallCreate? || c.CallDelete? || c.CallBlock? || c.CallPrioritySet? || c.CallSuspend? || c.CallResume?
    ensures Good(Step(k, c))
  {
    hide Ok, Bits, Counts, Times, Settled, Preempted, HomeOk, Create, Delete, Block, PrioritySet, Suspend, Resume, At;
    match c
    case CallCreate(t, p) => CreateGood(k, t, p);
    case CallDelete(t) => DeleteGood(k, t);
    case CallBlock(ticks, forever, event) => BlockGood(k, ticks, forever, event);
    case CallPrioritySet(t, p) => PrioritySetGood(k, t, p);
    case CallSuspend(t) => SuspendGood(k, t);
    case CallResume(t) => ResumeGood(k, t);
  }

  lemma StepGood(k: K, c: Call)
    requires Good(k) && Allowed(k, c)
    ensures Good(Step(k, c))
  {
    hide Ok, Bits, Counts, Times, Settled, Preempted, HomeOk, ResetNext, ResumeAll, CleanUp, Interrupt, SuspendAll, At;
    match c
    case CallResetUnblockTime => ResetNextGood(k);
    case CallSuspendAll => SuspendAllGood(k);
    case CallResumeAll(yieldAfter) => ResumeAllGood(k, yieldAfter);
    case CallYield => YieldGood(k);
    case CallCleanUp => CleanUpGood(k);
    case IsrResume(_) => InterruptGood(k, c);
    case AnyEvent(_) => InterruptGood(k, c);
    case IsrTick => InterruptGood(k, c);
    case ContextSwitch => InterruptGood(k, c);
    case _ => hide Step; TaskCallGood(k, c);
  }

  // ---- Runs ------------------------------------------------------------------------------

  /** The state once the scheduler has started with only the idle task. */
  function Started(idle: Task): K {
    K(Store(map[Ready(0) := Ring([idle], 0)], map[idle := Ready(0)]), Store(map[], map[]),
      map[], map[idle := MAX_PRIORITIES], map[idle := 0], {0}, 0, 0, MAX_DELAY, DelayedA, DelayedB,
      idle, idle, 0, 0, false, false, 1, 0)
  }

  lemma StartedGood(idle: Task)
    ensures Good(Started(idle))
  {
    var k := Started(idle);
    StartedStores(idle);
    hide Ok, At, Bits;
    assert k.prio.Keys == {idle};
  }

  lemma StartedStores(idle: Task)
    ensures var k := Started(idle);
            && Ok(k.st) && Ok(k.ev) && Bits(k)
            && forall l :: At(k.st, l).items == if l == Ready(0) then [idle] else []
  {
    var k := Started(idle);
    forall l ensures Proper(k.st, l) && Proper(k.ev, l) {}
    assert forall l :: At(k.st, l).items == if l == Ready(0) then [idle] else [];
    forall p ensures BitOk(k.st, k.top, p) {}
  }

  ghost predicate ValidRun(k: K, cs: seq<Call>)
    requires Good(k)
    decreases |cs|
  {
    cs == [] || (Allowed(k, cs[0]) && (StepGood(k, cs[0]); ValidRun(Step(k, cs[0]), cs[1..])))
  }

  ghost function Run(k: K, cs: seq<Call>): (k': K)
    requires Good(k) && ValidRun(k, cs)
    ensures Good(k')
    decreases |cs|
  {
    if cs == [] then k else (StepGood(k, cs[0]); Run(Step(k, cs[0]), cs[1..]))
  }

  lemma {:induction false} RunSnoc(k: K, cs: seq<Call>, c: Call)
    requires Good(k) && ValidRun(k, cs) && Allowed(Run(k, cs), c)
    ensures ValidRun(k, cs + [c]) && Run(k, cs + [c]) == Step(Run(k, cs), c)
    decreases |cs|
  {
    hide Inv, Settled, Preempted, Step, Allowed;
    if cs == [] {
      StepGood(k, c);
      assert ([] + [c])[1..] == [];
    } else {
      StepGood(k, cs[0]);
      RunSnoc(Step(k, cs[0]), cs[1..], c);
      assert (cs + [c])[1..] == cs[1..] + [c];
    }
  }
}
