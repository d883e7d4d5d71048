/** The main results about runs of the scheduler. */
module KernelTheorems {
  import opened Options
  import opened Rings
  import opened TaskLists
  import opened Scheduler
  import opened Kernel
  import opened KernelCalls
  import opened KernelRuns
  import opened KernelEffects

  // ---- Conservation of tasks ---------------------------------------------------------------

  ghost function StateLists(): set<ListId> {
    (set p: nat | p < MAX_PRIORITIES :: Ready(p)) + {DelayedA, DelayedB, Suspended, Terminating}
  }

  /** Each live task is in exactly one state list (its own priority's, if ready), the list
      lengths sum to uxCurrentNumberOfTasks, and uxDeletedTasksWaitingCleanUp is the length
      of the termination list. */
  ghost predicate Conserved(k: K) {
    && Total(k.st, StateLists()) == k.tasks == |k.prio|
    && |At(k.st, Terminating).items| == k.deleted
    && forall t :: t in k.prio ==> InExactlyOne(k, t)
  }

  ghost predicate InExactlyOne(k: K, t: Task)
    requires t in k.prio
  {
    exists l :: (&& l in StateLists() && t in At(k.st, l).items && (l.Ready? ==> l.p == k.prio[t])
                 && (forall m :: t in At(k.st, m).items ==> m == l))
  }

  lemma TasksAreConserved(k: K, cs: seq<Call>)
    requires Good(k) && ValidRun(k, cs)
    ensures Conserved(Run(k, cs))
  {
    hide Ok, Bits, Times, Counts, Homes, Settled, Preempted, Conserved;
    ConservedIn(Run(k, cs));
  }

  lemma ConservedIn(k: K)
    requires Inv(k)
    ensures Conserved(k)
  {
    hide Ok, Bits, Times, At, Total, HomeOk, InExactlyOne;
    ListLengthsSum(k.st, StateLists());
    forall t | t in k.prio ensures k.st.where[t] in StateLists() && InExactlyOne(k, t) {
      InOwnList(k, t);
    }
    assert TasksIn(k.st, StateLists()) == k.prio.Keys;
  }

  lemma InOwnList(k: K, t: Task)
    requires Ok(k.st) && t in k.prio && t in k.st.where && HomeOk(k.st.where[t], k.prio[t])
    requires k.prio[t] < MAX_PRIORITIES
    ensures k.st.where[t] in StateLists() && InExactlyOne(k, t)
  {
    hide At;
    assert t in At(k.st, k.st.where[t]).items;
  }

  /** The current task has the highest ready priority and, unless it is blocking itself
      with the scheduler suspended, is ready; or a context switch has been requested. */
  ghost predicate PreemptionSafe(k: K) {
    || k.request || k.yieldPending
    || (&& k.current in k.prio && k.current in k.st.where
        && (forall t :: t in k.prio && t in k.st.where && k.st.where[t].Ready? ==> k.prio[t] <= k.prio[k.current])
        && (k.suspended == 0 ==> k.st.where[k.current] == Ready(k.prio[k.current])))
  }

  lemma NoMissedPreemption(k: K, cs: seq<Call>)
    requires Good(k) && ValidRun(k, cs)
    ensures PreemptionSafe(Run(k, cs))
  {
    hide Ok, Bits, Times, Counts, Settled, Run;
    var k' := Run(k, cs);
    assert HomeOk(k'.st.where[k'.current], k'.prio[k'.current]);
  }

  /** Bit p is set exactly when ready list p is not empty, so the bitmap selection and the
      generic downward scan find the same list, the highest one that is not empty. */
  ghost predicate SelectsHighest(k: K) {
    var p := TopBit(k.top, MAX_PRIORITIES - 1);
    && (forall q :: q in k.top <==> At(k.st, Ready(q)).items != [])
    && p == ScanDown(k.st, MAX_PRIORITIES - 1)
    && At(k.st, Ready(p)).items != []
    && (forall t :: t in k.prio && t in k.st.where && k.st.where[t].Ready? ==> k.prio[t] <= p)
  }

  lemma BitsOf(k: K)
    requires Inv(k)
    ensures Bits(k)
  {
  }

  lemma SelectionIsHighest(k: K, cs: seq<Call>)
    requires Good(k) && ValidRun(k, cs)
    ensures SelectsHighest(Run(k, cs))
  {
    hide Run, Inv, Settled, Preempted, TopBit, ScanDown;
    var k' := Run(k, cs);
    HighestReady(k');
    assert Bits(k') by { BitsOf(k'); }
    forall q ensures q in k'.top <==> At(k'.st, Ready(q)).items != [] {
      assert BitOk(k'.st, k'.top, q);
    }
  }

  /** Over every run xNextTaskUnblockTime is not below the tick count and not above any wake time
      in the current delayed list, which is in order of wake time and holds nothing that is due;
      when the tick count is about to wrap that list is empty. */
  lemma UnblockTimeIsRight(k: K, cs: seq<Call>)
    requires Good(k) && ValidRun(k, cs)
    ensures var k' := Run(k, cs);
            && k'.tick <= k'.next < WRAP && SortedBy(At(k'.st, k'.delayed).items, k'.wake)
            && (forall t :: t in At(k'.st, k'.delayed).items ==>
                  t in k'.wake && k'.tick < k'.wake[t] && k'.next <= k'.wake[t])
            && (k'.tick == MAX_DELAY ==> At(k'.st, k'.delayed).items == [])
  {
    hide Run, Bits, Counts, Homes, Preempted, SortedBy;
    var k' := Run(k, cs);
    if k'.tick == MAX_DELAY {
      DelayedIsEmptyAtWrap(k');
    }
  }

  // ---- Exact wake-up -----------------------------------------------------------------------

  /** The call does not itself wake, suspend or delete the delayed task `t`. */
  ghost predicate LeavesAlone(k: K, c: Call, t: Task) {
    match c
    case CallDelete(x) => x != t
    case CallSuspend(x) => x != t
    case AnyEvent(q) => At(k.ev, Event(q)).items != [] ==> At(k.ev, Event(q)).items[0] != t
    case _ => true
  }

  ghost predicate Sleeping(k: K, t: Task, w: nat) {
    t in k.prio && IsDelayed(k, t) && WakeTime(k, t) == w && !IsPending(k, t)
  }

  /** Either the wake time has not come and the task sleeps, or it has and it is ready. */
  ghost predicate OnTime(k: K, t: Task, w: nat) {
    t in k.prio && t in k.st.where && if Now(k) < w then Sleeping(k, t, w) else k.st.where[t] == Ready(k.prio[t])
  }

  lemma SleepingIsEarly(k: K, t: Task, w: nat)
    requires Times(k) && Settled(k) && Sleeping(k, t, w)
    ensures Now(k) < w
  {
  }

  lemma TickOnTime(k: K, t: Task, w: nat)
    requires Inv(k) && Settled(k) && k.suspended == 0 && Sleeping(k, t, w)
    ensures OnTime(Tick(k).0, t, w)
  {
    hide Ok, Bits, Counts, SortedBy, Tick;
    TickExact(k);
    SleepingIsEarly(k, t, w);
  }

  lemma {:induction false} ReplayOnTime(k: K, n: nat, t: Task, w: nat)
    requires Inv(k) && Settled(k) && k.suspended == 0 && OnTime(k, t, w)
    ensures OnTime(Replay(k, n), t, w)
    decreases n
  {
    hide Inv, Settled, ReplayOne, Tick;
    if n > 0 {
      ReplayOneOnTime(k, t, w);
      ReplayOnTime(ReplayOne(k), n - 1, t, w);
    }
  }

  lemma ReplayOneOnTime(k: K, t: Task, w: nat)
    requires Inv(k) && Settled(k) && k.suspended == 0 && OnTime(k, t, w)
    ensures OnTime(ReplayOne(k), t, w)
  {
    hide Inv, Tick, Settled, Ticked, Sleeping;
    TickExact(k);
    if Now(k) < w {
      TickOnTime(k, t, w);
      OnTimeAnyYield(Tick(k).0, ReplayOne(k), t, w);
    } else {
      InvParts(k);
      TickedStaysReady(k, Tick(k).0, t);
    }
  }

  lemma OnTimeAnyYield(k: K, k': K, t: Task, w: nat)
    requires OnTime(k, t, w) && k' == k.(yieldPending := k'.yieldPending)
    ensures OnTime(k', t, w)
  {
  }

  lemma TickedStaysReady(k: K, k': K, t: Task)
    requires Ticked(k, k') && Times(k) && t in k.prio && t in k.st.where && k.st.where[t] == Ready(k.prio[t])
    ensures t in k'.st.where && k'.st.where[t] == Ready(k.prio[t]) && k'.prio == k.prio
  {
    hide SortedBy;
  }

  /** A step that changes neither the time nor the task's place leaves it asleep. */
  lemma Undisturbed(k: K, k': K, t: Task, w: nat)
    requires Sleeping(k, t, w) && Now(k) < w
    requires k'.tick == k.tick && k'.epoch == k.epoch && k'.delayed == k.delayed && k'.overflow == k.overflow
    requires t in k'.prio && t in k'.st.where && k'.st.where[t] == k.st.where[t]
    requires t in k'.wake && k'.wake[t] == k.wake[t] && !IsPending(k', t)
    ensures OnTime(k', t, w)
  {
  }

  lemma OtherTouched(k: K, k': K, x: Task, t: Task, w: nat)
    requires OnlyTouches(k, k', x) && x != t && Sleeping(k, t, w) && Now(k) < w && t in k.st.where
    ensures OnTime(k', t, w)
  {
  }

  lemma Asleep(k: K, t: Task, w: nat)
    requires Inv(k) && Sleeping(k, t, w)
    ensures t in k.st.where && !k.st.where[t].Ready? && k.st.where[t] != Suspended && k.st.where[t] != Terminating
  {
    hide Ok, Bits, Counts, Homes, SortedBy;
  }

  lemma PrioritySetOnTime(k: K, t: Task, w: nat, p: nat)
    requires Inv(k) && Sleeping(k, t, w) && Now(k) < w
    ensures OnTime(PrioritySet(k, t, p), t, w)
  {
    hide Inv, Reprioritise, OnTime;
    Asleep(k, t, w);
    Undisturbed(k, PrioritySet(k, t, p), t, w);
  }

  /** A call about a sleeping task that neither wakes, suspends nor deletes it. */
  lemma SubjectOnTime(k: K, c: Call, t: Task, w: nat)
    requires Good(k) && Allowed(k, c) && LeavesAlone(k, c, t) && !AboutMany(c) && Subject(k, c) == t
    requires Sleeping(k, t, w) && Now(k) < w
    ensures OnTime(Step(k, c), t, w)
  {
    hide Ok, Bits, Counts, Times, HomeOk, Settled, Preempted, At, PrioritySet, Create, Delete, Block, Suspend, CleanUp,
      EventOccurs, OnTime, ResetNext, Sleeping;
    InPrio(k, t, w);
    Asleep(k, t, w);
    match c
    case CallPrioritySet(_, p) => PrioritySetOnTime(k, t, w, p);
    case CallResume(_) => StillAsleep(k, k, t, w);
    case IsrResume(_) => StillAsleep(k, k, t, w);
    case CallYield => StillAsleep(k, Step(k, c), t, w);
    case CallResetUnblockTime => StillAsleep(k, Step(k, c), t, w);
    case CallCleanUp => TerminatingHead(k);
    case _ =>
  }

  lemma InPrio(k: K, t: Task, w: nat)
    requires Sleeping(k, t, w)
    ensures t in k.prio
  {
  }

  lemma StillAsleep(k: K, k': K, t: Task, w: nat)
    requires Sleeping(k, t, w) && Now(k) < w && k' == k.(next := k'.next, request := k'.request)
    ensures OnTime(k', t, w)
  {
  }

  lemma SwitchOnTime(k: K, t: Task, w: nat)
    requires Inv(k) && Allowed(k, ContextSwitch) && LeavesAlone(k, ContextSwitch, t)
    requires Sleeping(k, t, w) && Now(k) < w
    ensures OnTime(SwitchContext(k), t, w)
  {
    HighestReady(k);
    hide Ok, Bits, Counts, Times, SortedBy, HomeOk, WalkList, OnTime;
    Undisturbed(k, SwitchContext(k), t, w);
  }

  lemma TickInterruptOnTime(k: K, t: Task, w: nat)
    requires Inv(k) && Settled(k) && Sleeping(k, t, w) && Now(k) < w
    ensures OnTime(TickInterrupt(k), t, w)
  {
    hide Inv, Settled, AdvanceTick, WakeExpired, Ticked;
    if k.suspended == 0 {
      TickOnTime(k, t, w);
    }
  }

  lemma ResumeAllOnTime(k: K, yieldAfter: bool, t: Task, w: nat)
    requires Inv(k) && Settled(k) && k.suspended > 0 && Sleeping(k, t, w) && Now(k) < w
    ensures OnTime(ResumeAll(k, yieldAfter), t, w)
  {
    hide Inv, Settled, Replay, ResumeReady;
    if k.suspended == 1 {
      var k1 := k.(suspended := 0);
      assert k1.(suspended := 1) == k;
      InvOfFlags(k, k1);
      ResumeReadySettled(k1);
      Undisturbed(k, ResumeReady(k1), t, w);
      ReplayOnTime(ResumeReady(k1), k.pended, t, w);
    }
  }

  lemma StepOnTime(k: K, c: Call, t: Task, w: nat)
    requires Good(k) && Allowed(k, c) && LeavesAlone(k, c, t) && Sleeping(k, t, w)
    ensures OnTime(Step(k, c), t, w)
  {
    hide Ok, Bits, Times, Counts, HomeOk, Settled, Preempted, LeavesAlone, OnlyTouches, OnTime, ResumeAll, Sleeping,
      TickInterrupt, SwitchContext;
    Asleep(k, t, w);
    SleepingIsEarly(k, t, w);
    if AboutMany(c) {
      match c
      case CallResumeAll(y) => ResumeAllOnTime(k, y, t, w);
      case IsrTick => TickInterruptOnTime(k, t, w);
      case ContextSwitch => SwitchOnTime(k, t, w);
    } else if Subject(k, c) == t {
      SubjectOnTime(k, c, t, w);
    } else {
      hide Step;
      StepTouchesOnly(k, c);
      OtherTouched(k, Step(k, c), Subject(k, c), t, w);
    }
  }

  /** A run in which nothing else wakes `t`, up to the first step that reaches time `w`. */
  ghost predicate SleepRun(k: K, cs: seq<Call>, t: Task, w: nat)
    requires Good(k) && ValidRun(k, cs)
    decreases |cs|
  {
    cs == [] || (Now(k) < w && LeavesAlone(k, cs[0], t)
                 && (StepGood(k, cs[0]); SleepRun(Step(k, cs[0]), cs[1..], t, w)))
  }

  lemma {:induction false} SleeperWakesOnTime(k: K, cs: seq<Call>, t: Task, w: nat)
    requires Good(k) && ValidRun(k, cs) && Sleeping(k, t, w) && SleepRun(k, cs, t, w)
    ensures OnTime(Run(k, cs), t, w)
    decreases |cs|
  {
    hide Inv, Settled, Preempted;
    if cs == [] {
      assert Now(k) < w by { InvParts(k); SleepingIsEarly(k, t, w); }
    } else {
      StepGood(k, cs[0]);
      StepOnTime(k, cs[0], t, w);
      if |cs| > 1 {
        SleeperWakesOnTime(Step(k, cs[0]), cs[1..], t, w);
      }
    }
  }

  /** A task that blocks itself for 1 <= ticks < 2^32 ticks, on a timed wait, and is not otherwise
      woken sleeps through exactly that many processed ticks, across any tick wrap, and is then in
      the ready list of its priority. Only portMAX_DELAY with an indefinite wait is not timed. */
  lemma ExactWake(k: K, ticks: nat, forever: bool, event: Option<nat>, cs: seq<Call>)
    requires Good(k) && Allowed(k, CallBlock(ticks, forever, event)) && !(forever && ticks == MAX_DELAY)
    requires var k1 := (BlockGood(k, ticks, forever, event); Block(k, ticks, forever, event));
             ValidRun(k1, cs) && SleepRun(k1, cs, k.current, Now(k) + ticks)
    ensures var k' := (BlockGood(k, ticks, forever, event); Run(Block(k, ticks, forever, event), cs));
            && k.current in k'.prio && k.current in k'.st.where
            && if Now(k') < Now(k) + ticks then IsDelayed(k', k.current)
               else k'.st.where[k.current] == Ready(k'.prio[k.current])
  {
    hide Inv, Settled, Preempted, Block, Run, SleepRun, ValidRun;
    var k1 := Block(k, ticks, forever, event);
    BlockGood(k, ticks, forever, event);
    BlockSleeps(k, ticks, forever, event);
    SleeperWakesOnTime(k1, cs, k.current, Now(k) + ticks);
  }

  lemma BlockSleeps(k: K, ticks: nat, forever: bool, event: Option<nat>)
    requires Inv(k) && k.current != k.idle && Running(k) && 1 <= ticks <= MAX_DELAY && !(forever && ticks == MAX_DELAY)
    ensures Sleeping(Block(k, ticks, forever, event), k.current, Now(k) + ticks)
  {
    hide Inv, Block;
    CurrentInLists(k);
    BlockEffect(k, ticks, forever, event);
  }

  // ---- Ready tasks ---------------------------------------------------------------------------

  /** The call is about task `t` and may change its state. */
  predicate Names(k: K, c: Call, t: Task) {
    && !AboutMany(c) && !c.CallSuspendAll? && !c.CallYield? && !c.CallResetUnblockTime?
    && Subject(k, c) == t
  }

  ghost predicate ReadyAt(k: K, t: Task, p: nat) {
    t in k.prio && k.prio[t] == p && t in k.st.where && k.st.where[t] == Ready(p)
  }

  lemma OtherStaysReady(k: K, k': K, x: Task, t: Task, p: nat)
    requires OnlyTouches(k, k', x) && x != t && ReadyAt(k, t, p)
    ensures ReadyAt(k', t, p)
  {
  }

  lemma {:induction false} ReplayStaysReady(k: K, n: nat, t: Task, p: nat)
    requires Inv(k) && Settled(k) && k.suspended == 0 && ReadyAt(k, t, p)
    ensures ReadyAt(Replay(k, n), t, p)
    decreases n
  {
    hide Inv, Settled, ReplayOne, Tick, Ticked, Ok, Homes, Times, IsDelayed, WakeTime;
    if n > 0 {
      InvParts(k);
      TickExact(k);
      TickedStaysReady(k, Tick(k).0, t);
      ReplayStaysReady(ReplayOne(k), n - 1, t, p);
    }
  }

  lemma DrainedStaysReady(k: K, k': K, t: Task, p: nat)
    requires Homes(k) && Drained(k, k') && k'.prio == k.prio && ReadyAt(k, t, p)
    ensures ReadyAt(k', t, p)
  {
  }

  lemma ResumeAllStaysReady(k: K, yieldAfter: bool, t: Task, p: nat)
    requires Inv(k) && Settled(k) && k.suspended > 0 && ReadyAt(k, t, p)
    ensures ReadyAt(ResumeAll(k, yieldAfter), t, p)
  {
    hide Inv, Settled, Replay, ResumeReady, Drained;
    if k.suspended == 1 {
      ResumeLastReady(k);
      var k1 := k.(suspended := 0);
      InvParts(k1);
      DrainedStaysReady(k1, ResumeReady(k1), t, p);
      ReplayStaysReady(ResumeReady(k1), k.pended, t, p);
    }
  }

  lemma TickStaysReady(k: K, t: Task, p: nat)
    requires Inv(k) && Settled(k) && ReadyAt(k, t, p)
    ensures ReadyAt(TickInterrupt(k), t, p)
  {
    hide Inv, Settled, AdvanceTick, WakeExpired, Ticked;
    InvParts(k);
    if k.suspended == 0 {
      TickExact(k);
      TickedStaysReady(k, Tick(k).0, t);
    }
  }

  lemma SwitchStaysReady(k: K, t: Task, p: nat)
    requires Inv(k) && ReadyAt(k, t, p)
    ensures ReadyAt(SwitchContext(k), t, p)
  {
    HighestReady(k);
    hide Inv, WalkList, TopBit;
  }

  lemma StepStaysReady(k: K, c: Call, t: Task, p: nat)
    requires Good(k) && Allowed(k, c) && ReadyAt(k, t, p) && !Names(k, c, t)
    ensures ReadyAt(Step(k, c), t, p)
  {
    hide Ok, Bits, Times, Counts, HomeOk, Settled, Preempted, OnlyTouches, ResumeAll, TickInterrupt, SwitchContext,
      ReadyAt, At, Subject;
    if AboutMany(c) {
      ManyStaysReady(k, c, t, p);
    } else if c.CallSuspendAll? || c.CallYield? || c.CallResetUnblockTime? {
      SameListsReady(k, Step(k, c), t, p) by { AnonymousStep(k, c); }
    } else {
      hide Step;
      StepTouchesOnly(k, c);
      OtherStaysReady(k, Step(k, c), Subject(k, c), t, p);
    }
  }

  lemma ManyStaysReady(k: K, c: Call, t: Task, p: nat)
    requires Good(k) && Allowed(k, c) && ReadyAt(k, t, p) && AboutMany(c)
    ensures ReadyAt(Step(k, c), t, p)
  {
    hide Inv, Settled, Preempted, ResumeAll, TickInterrupt, SwitchContext, ReadyAt;
    match c
    case CallResumeAll(y) => ResumeAllStaysReady(k, y, t, p);
    case IsrTick => TickStaysReady(k, t, p);
    case ContextSwitch => SwitchStaysReady(k, t, p);
  }

  lemma AnonymousStep(k: K, c: Call)
    requires Inv(k) && Settled(k) && Allowed(k, c) && (c.CallSuspendAll? || c.CallYield? || c.CallResetUnblockTime?)
    ensures Step(k, c).prio == k.prio && Step(k, c).st == k.st
  {
    hide Inv, Settled;
  }

  lemma SameListsReady(k: K, k': K, t: Task, p: nat)
    requires ReadyAt(k, t, p) && k'.prio == k.prio && k'.st == k.st
    ensures ReadyAt(k', t, p)
  {
  }

  /** No call of the run is about task `t`, nor does `t` itself block. */
  ghost predicate Unnamed(k: K, cs: seq<Call>, t: Task)
    requires Good(k) && ValidRun(k, cs)
    decreases |cs|
  {
    cs == [] || (!Names(k, cs[0], t) && (StepGood(k, cs[0]); Unnamed(Step(k, cs[0]), cs[1..], t)))
  }

  /** A ready task is never lost: whatever other tasks, ticks, interrupts and switches do, it stays in
      the ready list of its priority until a call is about it. */
  lemma {:induction false} ReadyTaskStaysReady(k: K, cs: seq<Call>, t: Task, p: nat)
    requires Good(k) && ValidRun(k, cs) && ReadyAt(k, t, p) && Unnamed(k, cs, t)
    ensures ReadyAt(Run(k, cs), t, p)
    decreases |cs|
  {
    hide Inv, Settled, Preempted, Step, Allowed, Names, ReadyAt;
    if cs != [] {
      StepGood(k, cs[0]);
      StepStaysReady(k, cs[0], t, p);
      ReadyTaskStaysReady(Step(k, cs[0]), cs[1..], t, p);
    }
  }
}
