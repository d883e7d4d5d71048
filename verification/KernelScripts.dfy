/** Short runs of the scheduler, followed step by step: what each call does to a state of which
    the places of all tasks are known. */
module KernelScripts {
  import opened Options
  import opened Rings
  import opened TaskLists
  import opened Scheduler
  import opened Kernel
  import opened KernelCalls
  import opened KernelRuns
  import opened KernelTheorems
  import opened KernelEvents
  import opened Inheritance
  import opened MutexRuns

  /** The priority and the places of every task, in the first tick epoch. */
  datatype Scene = Scene(prio: map<Task, nat>, where: map<Task, ListId>, ev: map<Task, ListId>,
                         idle: Task, current: Task, suspended: nat, tick: nat)

  ghost predicate Shows(k: K, s: Scene) {
    && Good(k) && k.prio == s.prio && k.st.where == s.where && k.ev.where == s.ev
    && k.idle == s.idle && k.current == s.current && k.suspended == s.suspended && k.tick == s.tick && k.epoch == 0
    && k.delayed == DelayedA && k.overflow == DelayedB && k.pended == 0
  }

  function Opening(idle: Task): Scene {
    Scene(map[idle := 0], map[idle := Ready(0)], map[], idle, idle, 0, 0)
  }

  lemma ShowsStarted(idle: Task)
    ensures Shows(Started(idle), Opening(idle))
  {
    StartedGood(idle);
  }

  lemma AfterCreate(k: K, s: Scene, t: Task, p: nat)
    requires Shows(k, s) && t !in s.prio && p < MAX_PRIORITIES && s.current in s.where && s.where[s.current].Ready?
    ensures Allowed(k, CallCreate(t, p))
    ensures var k' := Step(k, CallCreate(t, p));
            Shows(k', s.(prio := s.prio[t := p], where := s.where[t := Ready(p)]))
  {
    CreateGood(k, t, p);
    RunningHere(k);
    hide Ok, Bits, Counts, Times, Settled, Preempted, HomeOk, AddNew;
  }

  /** The switch goes to the only task ready at the highest priority. */
  lemma AfterSwitch(k: K, s: Scene, t: Task)
    requires Shows(k, s) && s.suspended == 0 && t in s.prio && t in s.where && s.where[t] == Ready(s.prio[t])
    requires forall x :: x in s.prio && x in s.where && s.where[x].Ready? && x != t ==> s.prio[x] < s.prio[t]
    ensures Allowed(k, ContextSwitch)
    ensures var k' := Step(k, ContextSwitch);
            Shows(k', s.(current := t)) && Calm(k')
  {
    hide Inv, Settled, Preempted, SwitchContext;
    SwitchContextGood(k);
    SwitchesTo(k, t);
  }

  lemma SwitchesTo(k: K, t: Task)
    requires Inv(k) && k.suspended == 0 && t in k.prio && t in k.st.where && k.st.where[t] == Ready(k.prio[t])
    requires forall x :: x in k.prio && x in k.st.where && k.st.where[x].Ready? && x != t ==> k.prio[x] < k.prio[t]
    ensures var k' := SwitchContext(k);
            && k' == k.(st := k'.st, current := t, yieldPending := false, request := false)
            && k'.st.where == k.st.where
  {
    hide Ok, Bits, Counts, Times, WalkList, TopBit, At;
    HighestReady(k);
    var u := WalkList(k.st, Ready(TopBit(k.top, MAX_PRIORITIES - 1))).1;
    assert u in k.prio && k.st.where[u].Ready?;
  }

  lemma AfterSuspendAll(k: K, s: Scene)
    requires Shows(k, s) && s.current in s.where && s.where[s.current].Ready?
    ensures Allowed(k, CallSuspendAll)
    ensures var k' := Step(k, CallSuspendAll); Shows(k', s.(suspended := s.suspended + 1))
  {
    hide Ok, Bits, Counts, Times, Settled, Preempted;
    SuspendAllGood(k);
  }

  /** The running task blocks for one tick and waits for event `q`. */
  lemma AfterBlock(k: K, s: Scene, q: nat)
    requires Shows(k, s) && s.suspended == 1 && s.current in s.where && s.where[s.current].Ready?
    requires s.current != k.idle && s.tick + 1 < WRAP
    ensures Allowed(k, CallBlock(1, true, Some(q)))
    ensures var k' := Step(k, CallBlock(1, true, Some(q)));
            && Shows(k', s.(where := s.where[s.current := DelayedA], ev := s.ev[s.current := Event(q)]))
            && Sleeping(k', s.current, s.tick + 1)
  {
    hide Inv, Settled, Preempted, AddCurrentToDelayed, Wait, Sleeping;
    InvParts(k);
    RunningHere(k);
    BlockGood(k, 1, true, Some(q));
    BlockSleeps(k, 1, true, Some(q));
    RunningHasNoEvent(k, k.current);
    DelayedIds(k);
  }

  lemma RunningHere(k: K)
    requires Inv(k) && k.st.where[k.current].Ready?
    ensures Running(k) && k.current in k.prio
  {
  }

  /** With nothing pending, resuming the scheduler only lifts the suspension. */
  lemma AfterResumeAll(k: K, s: Scene)
    requires Shows(k, s) && s.suspended == 1 && forall t :: t in s.ev ==> s.ev[t] != PendingReady
    ensures Allowed(k, CallResumeAll(true))
    ensures var k' := Step(k, CallResumeAll(true)); Shows(k', s.(suspended := 0))
  {
    hide Inv, Settled, Preempted, ResumeAll;
    ResumeAllGood(k, true);
    ResumeNothing(k);
  }

  lemma ResumeNothing(k: K)
    requires Inv(k) && Settled(k) && k.suspended == 1 && k.pended == 0 && NoPending(k)
    ensures ResumeAll(k, true) == k.(suspended := 0, request := true)
  {
    hide Inv, Settled, DrainPending, At;
    ResumeLastReady(k);
    NothingToDrain(k.(suspended := 0));
  }

  lemma NothingToDrain(k: K)
    requires Inv(k) && NoPending(k)
    ensures At(k.ev, PendingReady).items == [] && DrainPending(k) == k
  {
    hide Bits, Counts, Times, HomeOk;
    PendingHead(k.ev);
  }

  lemma AfterPrioritySet(k: K, s: Scene, t: Task, p: nat)
    requires Shows(k, s) && t in s.prio && t in s.where && !s.where[t].Ready? && p < MAX_PRIORITIES
    requires s.current in s.where && s.where[s.current].Ready?
    ensures Allowed(k, CallPrioritySet(t, p))
    ensures var k' := Step(k, CallPrioritySet(t, p)); Shows(k', s.(prio := s.prio[t := p]))
  {
    hide Ok, Bits, Counts, Times, Settled, Preempted, HomeOk, Reprioritise;
    RunningHere(k);
    PrioritySetGood(k, t, p);
    assert k.prio[t] == p ==> k.prio[t := p] == k.prio;
  }

  /** The holder inherits the priority of the running task. */
  lemma AfterInherit(k: K, s: Scene, h: Task)
    requires Shows(k, s) && h in s.prio && h in s.where && s.where[h].Ready? && s.current in s.prio
    requires s.current in s.where && s.where[s.current].Ready? && s.prio[h] < s.prio[s.current]
    ensures var p := s.prio[s.current];
            var k' := InheritMove(k, h);
            Shows(k', s.(prio := s.prio[h := p], where := s.where[h := Ready(p)]))
  {
    hide Ok, Bits, Counts, Times, HomeOk, Settled, Preempted, Reprioritise;
    RunningHere(k);
    InheritGood(k, h);
  }

  /** The tick at which the one sleeping task is due. */
  lemma AfterTick(k: K, s: Scene, t: Task)
    requires Shows(k, s) && s.suspended == 0 && s.tick + 1 < WRAP && t in s.prio && t in s.where
    requires Sleeping(k, t, s.tick + 1)
    requires forall x :: x in s.where && x != t ==> s.where[x] != DelayedA && s.where[x] != DelayedB
    ensures Allowed(k, IsrTick)
    ensures var k' := Step(k, IsrTick);
            Shows(k', s.(where := s.where[t := Ready(s.prio[t])], tick := s.tick + 1, ev := k'.ev.where))
  {
    hide Inv, Settled, Preempted, Tick, Ticked, Sleeping, Ok, Homes, Times, IsDelayed, WakeTime, At;
    InvParts(k);
    TickGood(k);
    TickExact(k);
    TickedWhere(k, Tick(k).0, t, s.tick + 1);
    TickNoWrap(k);
  }

  lemma TickNoWrap(k: K)
    requires Inv(k) && Settled(k) && k.suspended == 0 && k.tick + 1 < WRAP
    ensures var k' := Tick(k).0;
            && k'.tick == k.tick + 1 && k'.epoch == k.epoch && k'.delayed == k.delayed && k'.overflow == k.overflow
            && k'.idle == k.idle && k'.pended == k.pended
  {
    hide Inv, Settled, WakeExpired, ResetNext, IsDelayed, WakeTime, At;
    InvParts(k);
    InvOfTimes(k, AdvanceTick(k));
  }

  lemma TickedWhere(k: K, k': K, t: Task, w: nat)
    requires Homes(k) && Ticked(k, k') && Sleeping(k, t, w) && w == Now(k) + 1
    requires forall x :: x in k.st.where && x != t ==> k.st.where[x] != k.delayed && k.st.where[x] != k.overflow
    ensures k'.st.where == k.st.where[t := Ready(k.prio[t])] && k'.prio == k.prio && k'.current == k.current
    ensures k'.suspended == k.suspended
  {
    hide HomeOk;
    forall x | x in k.st.where ensures k'.st.where[x] == k.st.where[t := Ready(k.prio[t])][x] {
      assert x in k.prio;
    }
  }

  lemma StaysAsleep(k: K, c: Call, t: Task, w: nat)
    requires Good(k) && Allowed(k, c) && LeavesAlone(k, c, t) && Sleeping(k, t, w) && Now(Step(k, c)) < w
    ensures Sleeping(Step(k, c), t, w)
  {
    hide Inv, Settled, Preempted, Allowed, LeavesAlone, Sleeping, Step;
    StepOnTime(k, c, t, w);
  }

  // ---- Runs ----------------------------------------------------------------------------------

  /** The calls `cs` lead from `k` to a state that shows scene `s`. */
  ghost predicate Leads(k: K, cs: seq<Call>, s: Scene) {
    Good(k) && ValidRun(k, cs) && Shows(Run(k, cs), s)
  }

  lemma LeadsOn(k: K, cs: seq<Call>, s: Scene, c: Call, s': Scene)
    requires Leads(k, cs, s) && Allowed(Run(k, cs), c) && Shows(Step(Run(k, cs), c), s')
    ensures Leads(k, cs + [c], s') && Run(k, cs + [c]) == Step(Run(k, cs), c)
  {
    hide Inv, Settled, Preempted, Step, Allowed, Run, ValidRun, Shows;
    RunSnoc(k, cs, c);
  }

  lemma Begins(k: K, s: Scene)
    requires Shows(k, s)
    ensures Leads(k, [], s)
  {
    hide Inv, Settled, Preempted;
  }

  /** Task `t` is created above all ready tasks and runs. */
  lemma LeadsToNew(k: K, cs: seq<Call>, s: Scene, t: Task, p: nat)
    requires Leads(k, cs, s) && s.suspended == 0 && t !in s.prio && p < MAX_PRIORITIES
    requires s.current in s.where && s.where[s.current].Ready?
    requires forall x :: x in s.prio && x in s.where && s.where[x].Ready? ==> s.prio[x] < p
    ensures Leads(k, cs + [CallCreate(t, p)] + [ContextSwitch],
                  s.(prio := s.prio[t := p], where := s.where[t := Ready(p)], current := t))
  {
    hide Inv, Settled, Preempted, Step, Allowed, Run, ValidRun;
    var k0 := Run(k, cs);
    AfterCreate(k0, s, t, p);
    var s1 := s.(prio := s.prio[t := p], where := s.where[t := Ready(p)]);
    LeadsOn(k, cs, s, CallCreate(t, p), s1);
    AfterSwitch(Step(k0, CallCreate(t, p)), s1, t);
    LeadsOn(k, cs + [CallCreate(t, p)], s1, ContextSwitch, s1.(current := t));
  }

  /** The running task blocks for one tick on event `q` and task `t` runs. */
  lemma LeadsToBlocked(k: K, cs: seq<Call>, s: Scene, q: nat, t: Task)
    requires Leads(k, cs, s) && s.suspended == 1 && s.current in s.where && s.where[s.current].Ready?
    requires s.current != s.idle
    requires s.tick + 1 < WRAP && (forall x :: x in s.ev ==> s.ev[x] != PendingReady) && t != s.current
    requires t in s.prio && t in s.where && s.where[t] == Ready(s.prio[t])
    requires forall x :: x in s.prio && x in s.where && s.where[x].Ready? && x != t && x != s.current ==>
               s.prio[x] < s.prio[t]
    ensures var cs' := cs + [CallBlock(1, true, Some(q))] + [CallResumeAll(true)] + [ContextSwitch];
            && Leads(k, cs', s.(where := s.where[s.current := DelayedA], ev := s.ev[s.current := Event(q)],
                                current := t, suspended := 0))
            && Sleeping(Run(k, cs'), s.current, s.tick + 1) && Calm(Run(k, cs'))
  {
    hide Inv, Settled, Preempted, Step, Allowed, Run, ValidRun, Sleeping;
    var k0, b := Run(k, cs), CallBlock(1, true, Some(q));
    AfterBlock(k0, s, q);
    var k1 := Step(k0, b);
    var s1 := s.(where := s.where[s.current := DelayedA], ev := s.ev[s.current := Event(q)]);
    LeadsOn(k, cs, s, b, s1);
    AfterResumeAll(k1, s1);
    var k2, s2 := Step(k1, CallResumeAll(true)), s1.(suspended := 0);
    LeadsOn(k, cs + [b], s1, CallResumeAll(true), s2);
    StaysAsleep(k1, CallResumeAll(true), s.current, s.tick + 1);
    AfterSwitch(k2, s2, t);
    LeadsOn(k, cs + [b] + [CallResumeAll(true)], s2, ContextSwitch, s2.(current := t));
    StaysAsleep(k2, ContextSwitch, s.current, s.tick + 1);
  }

  lemma LeadsToSuspended(k: K, cs: seq<Call>, s: Scene)
    requires Leads(k, cs, s) && s.current in s.where && s.where[s.current].Ready?
    ensures Leads(k, cs + [CallSuspendAll], s.(suspended := s.suspended + 1))
  {
    hide Inv, Settled, Preempted, Step, Allowed, Run, ValidRun;
    AfterSuspendAll(Run(k, cs), s);
    LeadsOn(k, cs, s, CallSuspendAll, s.(suspended := s.suspended + 1));
  }

  /** The sleeping task `t` is given priority `p`, above all ready tasks, and is woken by the tick. */
  lemma LeadsToTimedOut(k: K, cs: seq<Call>, s: Scene, t: Task, p: nat)
    requires Leads(k, cs, s) && Sleeping(Run(k, cs), t, s.tick + 1) && s.suspended == 0 && s.tick + 1 < WRAP
    requires t in s.prio && t in s.where && !s.where[t].Ready? && s.current in s.where && s.where[s.current].Ready?
    requires p < MAX_PRIORITIES && forall x :: x in s.prio && x in s.where && s.where[x].Ready? ==> s.prio[x] < p
    requires forall x :: x in s.where && x != t ==> s.where[x] != DelayedA && s.where[x] != DelayedB
    ensures var cs' := cs + [CallPrioritySet(t, p)] + [IsrTick] + [ContextSwitch];
            && ValidRun(k, cs')
            && var k' := Run(k, cs');
               && Shows(k', s.(prio := s.prio[t := p], where := s.where[t := Ready(p)], ev := k'.ev.where,
                               current := t, tick := s.tick + 1))
               && Calm(k')
  {
    hide Inv, Settled, Preempted, Step, Allowed, Run, ValidRun, Sleeping;
    var k0, c := Run(k, cs), CallPrioritySet(t, p);
    AfterPrioritySet(k0, s, t, p);
    var k1, s1 := Step(k0, c), s.(prio := s.prio[t := p]);
    LeadsOn(k, cs, s, c, s1);
    StaysAsleep(k0, c, t, s.tick + 1);
    AfterTick(k1, s1, t);
    var k2 := Step(k1, IsrTick);
    var s2 := s1.(where := s1.where[t := Ready(p)], tick := s.tick + 1, ev := k2.ev.where);
    LeadsOn(k, cs + [c], s1, IsrTick, s2);
    AfterSwitch(k2, s2, t);
    LeadsOn(k, cs + [c] + [IsrTick], s2, ContextSwitch, s2.(current := t));
  }

  // ---- A ready bit goes stale ------------------------------------------------------------------

  /** Holder `h` of base priority 1 runs; task `w` of priority 3 preempts it and suspends the
      scheduler to block on the mutex. */
  function BeforeInherit(w: Task, h: Task): seq<Call> {
    [] + [CallCreate(h, 1)] + [ContextSwitch] + [CallCreate(w, 3)] + [ContextSwitch] + [CallSuspendAll]
  }

  /** `w` blocks for one tick, `h` runs and raises it to priority 4, and it times out. */
  function AfterInheriting(w: Task, q: nat): seq<Call> {
    [] + [CallBlock(1, true, Some(q))] + [CallResumeAll(true)] + [ContextSwitch]
      + [CallPrioritySet(w, 4)] + [IsrTick] + [ContextSwitch]
  }

  function Blocking(idle: Task, w: Task, h: Task): Scene {
    Scene(map[idle := 0, h := 1, w := 3], map[idle := Ready(0), h := Ready(1), w := Ready(3)], map[], idle, w, 1, 0)
  }

  lemma ReachesBlocking(idle: Task, w: Task, h: Task)
    requires h != idle && w != idle && h != w
    ensures Leads(Started(idle), BeforeInherit(w, h), Blocking(idle, w, h))
  {
    hide Leads, Started;
    var k, s0 := Started(idle), Opening(idle);
    ShowsStarted(idle);
    Begins(k, s0);
    LeadsToNew(k, [], s0, h, 1);
    var s1 := s0.(prio := s0.prio[h := 1], where := s0.where[h := Ready(1)], current := h);
    LeadsToNew(k, [] + [CallCreate(h, 1)] + [ContextSwitch], s1, w, 3);
    var s2 := s1.(prio := s1.prio[w := 3], where := s1.where[w := Ready(3)], current := w);
    LeadsToSuspended(k, [] + [CallCreate(h, 1)] + [ContextSwitch] + [CallCreate(w, 3)] + [ContextSwitch], s2);
    assert s2.(suspended := 1) == Blocking(idle, w, h);
  }

  /** The holder at its inherited priority 3 is alone there, below the running task. */
  ghost predicate Stale(k: K, w: Task, h: Task) {
    && Good(k) && TimesOut(k, w, h) && k.prio[h] == 3 && k.prio[w] == 4 && Calm(k)
    && AloneInReadyList(k, h) && AloneInReadyList(k, w) && (forall q :: q in k.top && q > 3 ==> q == 4)
    && !Bits(TimeoutMove(k, h, 1))
  }

  lemma StaleFromBlocking(k: K, idle: Task, w: Task, h: Task, q: nat)
    requires h != idle && w != idle && h != w && Shows(k, Blocking(idle, w, h))
    ensures var k1 := InheritMove(k, h);
            Good(k1) && ValidRun(k1, AfterInheriting(w, q)) && Stale(Run(k1, AfterInheriting(w, q)), w, h)
  {
    hide Leads, Inv, Settled, Preempted, InheritMove, Run, ValidRun, Sleeping, Stale;
    var s := Blocking(idle, w, h);
    AfterInherit(k, s, h);
    var k1, s1 := InheritMove(k, h), s.(prio := s.prio[h := 3], where := s.where[h := Ready(3)]);
    Begins(k1, s1);
    LeadsToBlocked(k1, [], s1, q, h);
    var s2 := s1.(where := s1.where[w := DelayedA], ev := s1.ev[w := Event(q)], current := h, suspended := 0);
    var cs := [] + [CallBlock(1, true, Some(q))] + [CallResumeAll(true)] + [ContextSwitch];
    LeadsToTimedOut(k1, cs, s2, w, 4);
    StaleFacts(Run(k1, AfterInheriting(w, q)), idle, w, h);
  }

  lemma StaleFacts(k: K, idle: Task, w: Task, h: Task)
    requires h != idle && w != idle && h != w && Good(k) && k.current == w && Calm(k)
    requires k.prio == map[idle := 0, w := 4, h := 3]
    requires k.st.where == map[idle := Ready(0), w := Ready(4), h := Ready(3)]
    ensures Stale(k, w, h)
  {
    hide Bits, Counts, Times, Settled, Preempted, HomeOk, TimeoutMove, SortedBy;
    OnlyMember(k.st, Ready(3), h);
    OnlyMember(k.st, Ready(4), w);
    StaleBit(k, h, 1);
    BitsGiveLists(k);
    forall q | q in k.top && q > 3 ensures q == 4 {
      var x := At(k.st, Ready(q)).items[0];
      assert x in At(k.st, Ready(q)).items;
      assert k.st.where[x] == Ready(q);
    }
  }

  function StaleRun(w: Task, h: Task, q: nat): seq<MutexCall> {
    Lift(BeforeInherit(w, h)) + ([Inherits(h)] + (Lift(AfterInheriting(w, q)) + [GivesUp(h, 1)]))
  }

  ghost predicate InheritsAfter(k: K, cs: seq<Call>, h: Task, k1: K) {
    Good(k) && ValidRun(k, cs) && CanMake(Run(k, cs), Inherits(h)) && k1 == InheritMove(Run(k, cs), h)
  }

  ghost predicate BreaksAfter(k: K, cs: seq<Call>, c: MutexCall) {
    Good(k) && ValidRun(k, cs) && CanMake(Run(k, cs), c) && Breaks(Run(k, cs), c)
  }

  /** A run of kernel calls, one in which the holder inherits, and a run that ends with a call that
      breaks the scheduler. */
  lemma BreaksAtLast(k: K, cs: seq<Call>, h: Task, k1: K, ds: seq<Call>, c: MutexCall)
    requires InheritsAfter(k, cs, h, k1) && BreaksAfter(k1, ds, c)
    ensures var es := Lift(cs) + ([Inherits(h)] + (Lift(ds) + [c])); MutexRun(k, es) && !AlwaysGood(k, es)
  {
    hide Inv, Settled, Preempted, Run, ValidRun, InheritMove, Breaks, CanMake, MutexRun, AlwaysGood;
    var k0 := Run(k, cs);
    InheritsWhen(k0, h);
    EndsBroken(Run(k1, ds), c);
    AfterKernelRun(k1, ds, [c]);
    AfterOne(k0, Inherits(h), Lift(ds) + [c]);
    AfterKernelRun(k, cs, [Inherits(h)] + (Lift(ds) + [c]));
  }

  lemma InheritsWhen(k: K, h: Task)
    requires Good(k) && CanMake(k, Inherits(h))
    ensures Running(k) && h in k.prio && h != k.current && !Breaks(k, Inherits(h))
    ensures MutexStep(k, Inherits(h)) == InheritMove(k, h)
  {
    hide Inv, Settled, Preempted, InheritMove;
  }

  /** From the start of the scheduler: the holder inherits the priority of a task that blocks on
      its mutex, that task's priority is raised while it waits, and it times out. It is then
      running above the holder, which is alone at its inherited priority, and the step that takes
      the holder back to its base priority leaves a stale bit. */
  lemma StaleBitCanHappen(idle: Task, w: Task, h: Task, q: nat)
    requires h != idle && w != idle && h != w
    ensures (StartedGood(idle);
             MutexRun(Started(idle), StaleRun(w, h, q)) && !AlwaysGood(Started(idle), StaleRun(w, h, q)))
    ensures Leads(Started(idle), BeforeInherit(w, h), Blocking(idle, w, h))
    ensures var k := Run(Started(idle), BeforeInherit(w, h));
            && h in k.prio && Good(InheritMove(k, h))
            && ValidRun(InheritMove(k, h), AfterInheriting(w, q))
            && Stale(Run(InheritMove(k, h), AfterInheriting(w, q)), w, h)
  {
    StartedGood(idle);
    ReachesBlocking(idle, w, h);
    var k := Run(Started(idle), BeforeInherit(w, h));
    hide Inv, Settled, Preempted, InheritMove, Run, ValidRun, Stale, Started, AlwaysGood, MutexRun;
    StaleFromBlocking(k, idle, w, h, q);
    BlockingInherits(k, idle, w, h);
    StaleBreaks(Run(InheritMove(k, h), AfterInheriting(w, q)), w, h);
    BreaksAtLast(Started(idle), BeforeInherit(w, h), h, InheritMove(k, h), AfterInheriting(w, q), GivesUp(h, 1));
  }

  lemma BlockingInherits(k: K, idle: Task, w: Task, h: Task)
    requires Shows(k, Blocking(idle, w, h)) && h != idle && w != idle && h != w
    ensures CanMake(k, Inherits(h))
  {
    hide Ok, Bits, Counts, Times, HomeOk, Settled, Preempted;
  }

  lemma StaleBreaks(k: K, w: Task, h: Task)
    requires Stale(k, w, h)
    ensures CanMake(k, GivesUp(h, 1)) && Breaks(k, GivesUp(h, 1))
  {
    hide Ok, Bits, Counts, Times, HomeOk, Settled, Preempted, TimeoutMove, AloneInReadyList;
  }

  // ---- Giving a mutex misses a preemption --------------------------------------------------------

  /** `w` blocks on the mutex, `h` runs at the inherited priority 3, lowers `w` to 1 and creates task
      `m` of priority 3. */
  function BeforeGiving(w: Task, m: Task, q: nat): seq<Call> {
    [] + [CallBlock(1, true, Some(q))] + [CallResumeAll(true)] + [ContextSwitch]
      + [CallPrioritySet(w, 1)] + [CallCreate(m, 3)]
  }

  lemma CalmPriority(k: K, s: Scene, t: Task, p: nat)
    requires Shows(k, s) && Calm(k) && t in s.prio && t != s.current && p <= s.prio[t] && p < MAX_PRIORITIES
    requires Allowed(k, CallPrioritySet(t, p))
    ensures Calm(Step(k, CallPrioritySet(t, p)))
  {
    hide Ok, Bits, Counts, Times, Settled, Preempted, HomeOk, Reprioritise;
  }

  lemma CalmCreate(k: K, s: Scene, t: Task, p: nat)
    requires Shows(k, s) && Calm(k) && t !in s.prio && s.current in s.prio
    requires p <= s.prio[s.current] && p < MAX_PRIORITIES
    requires Allowed(k, CallCreate(t, p))
    ensures Calm(Step(k, CallCreate(t, p)))
  {
    hide Ok, Bits, Counts, Times, Settled, Preempted, HomeOk, AddNew;
  }

  lemma GivingFromBlocking(k: K, idle: Task, w: Task, h: Task, m: Task, q: nat)
    requires h != idle && w != idle && h != w && m !in {idle, h, w} && Shows(k, Blocking(idle, w, h))
    ensures var k1 := InheritMove(k, h); var cs := BeforeGiving(w, m, q);
            && Good(k1) && ValidRun(k1, cs)
            && var k' := Run(k1, cs);
               && Good(k') && Running(k') && Calm(k') && k'.current == h && k'.prio[h] == 3
               && Passed(k', q, 1)
  {
    hide Leads, Inv, Settled, Preempted, InheritMove, Run, ValidRun, Sleeping;
    var s := Blocking(idle, w, h);
    AfterInherit(k, s, h);
    var k1, s1 := InheritMove(k, h), s.(prio := s.prio[h := 3], where := s.where[h := Ready(3)]);
    Begins(k1, s1);
    LeadsToBlocked(k1, [], s1, q, h);
    var s2 := s1.(where := s1.where[w := DelayedA], ev := s1.ev[w := Event(q)], current := h, suspended := 0);
    var cs := [] + [CallBlock(1, true, Some(q))] + [CallResumeAll(true)] + [ContextSwitch];
    LeadsToGiving(k1, cs, s2, w, m, q);
  }

  lemma LeadsToGiving(k: K, cs: seq<Call>, s: Scene, w: Task, m: Task, q: nat)
    requires Leads(k, cs, s) && Calm(Run(k, cs)) && w in s.prio && s.prio[w] >= 1 && w in s.where && !s.where[w].Ready?
    requires s.current in s.prio && s.prio[s.current] == 3 && s.current in s.where && s.where[s.current] == Ready(3)
    requires m !in s.prio && s.ev == map[w := Event(q)]
    ensures var cs' := cs + [CallPrioritySet(w, 1)] + [CallCreate(m, 3)];
            && ValidRun(k, cs')
            && var k' := Run(k, cs');
               && Good(k') && Running(k') && Calm(k') && k'.current == s.current && k'.prio[s.current] == 3
               && Passed(k', q, 1)
  {
    hide Inv, Settled, Preempted, Step, Allowed, Run, ValidRun;
    var k0, c1, c2 := Run(k, cs), CallPrioritySet(w, 1), CallCreate(m, 3);
    AfterPrioritySet(k0, s, w, 1);
    CalmPriority(k0, s, w, 1);
    var k1, s1 := Step(k0, c1), s.(prio := s.prio[w := 1]);
    LeadsOn(k, cs, s, c1, s1);
    AfterCreate(k1, s1, m, 3);
    CalmCreate(k1, s1, m, 3);
    var k2, s2 := Step(k1, c2), s1.(prio := s1.prio[m := 3], where := s1.where[m := Ready(3)]);
    LeadsOn(k, cs + [c1], s1, c2, s2);
    GivingFacts(k2, s2, w, m, q);
  }

  lemma GivingFacts(k: K, s: Scene, w: Task, m: Task, q: nat)
    requires Shows(k, s) && s.ev == map[w := Event(q)] && w in s.prio && s.prio[w] == 1
    requires m in s.prio && m in s.where && s.where[m] == Ready(3) && s.prio[m] == 3 && m != s.current
    requires s.current in s.prio && s.current in s.where && s.where[s.current] == Ready(3) && s.prio[s.current] == 3
    ensures Running(k) && Passed(k, q, 1)
  {
    hide Bits, Counts, Times, Settled, Preempted, HomeOk;
    OnlyMember(k.ev, Event(q), w);
    assert !OthersAtMost(k, 1);
  }

  lemma GivingBreaks(k: K, q: nat)
    requires Good(k) && Running(k) && Calm(k) && k.prio[k.current] == 3 && Passed(k, q, 1)
    ensures CanMake(k, Gives(q, 1, true)) && Breaks(k, Gives(q, 1, true)) && !Preempted(GiveMove(k, q, 1, true))
  {
    hide Ok, Bits, Counts, Times, HomeOk, Settled, Passed, GiveMove, Preempted;
    GiveKeepsPreemptionIff(k, q, 1, true);
  }

  function GivingRun(w: Task, h: Task, m: Task, q: nat): seq<MutexCall> {
    Lift(BeforeInherit(w, h)) + ([Inherits(h)] + (Lift(BeforeGiving(w, m, q)) + [Gives(q, 1, true)]))
  }

  /** From the start of the scheduler: the holder, at an inherited priority, gives its mutex while a
      task of that priority is ready and the waiter's priority has been lowered. It goes on running
      below the ready task, and no switch is asked for. */
  lemma GivingMissesPreemption(idle: Task, w: Task, h: Task, m: Task, q: nat)
    requires h != idle && w != idle && h != w && m !in {idle, h, w}
    ensures (StartedGood(idle);
             MutexRun(Started(idle), GivingRun(w, h, m, q)) && !AlwaysGood(Started(idle), GivingRun(w, h, m, q)))
    ensures Leads(Started(idle), BeforeInherit(w, h), Blocking(idle, w, h))
    ensures var k := Run(Started(idle), BeforeInherit(w, h)); var cs := BeforeGiving(w, m, q);
            && h in k.prio && Good(InheritMove(k, h)) && ValidRun(InheritMove(k, h), cs)
            && var k' := Run(InheritMove(k, h), cs);
               Good(k') && k'.current == h && !Preempted(GiveMove(k', q, 1, true))
  {
    StartedGood(idle);
    ReachesBlocking(idle, w, h);
    var k := Run(Started(idle), BeforeInherit(w, h));
    hide Inv, Settled, Preempted, InheritMove, Run, ValidRun, Started, GiveMove, Passed, AlwaysGood, MutexRun, CanMake,
      Breaks, Running, Calm;
    GivingFromBlocking(k, idle, w, h, m, q);
    BlockingInherits(k, idle, w, h);
    GivingBreaks(Run(InheritMove(k, h), BeforeGiving(w, m, q)), q);
    BreaksAtLast(Started(idle), BeforeInherit(w, h), h, InheritMove(k, h), BeforeGiving(w, m, q), Gives(q, 1, true));
  }

  // ---- An event list goes out of order -----------------------------------------------------------

  /** Tasks `a` of priority 3 and then `b` of priority 2 block on event `q`. */
  function TwoWaiters(a: Task, b: Task, q: nat): seq<Call> {
    [] + [CallCreate(a, 3)] + [ContextSwitch] + [CallSuspendAll]
      + [CallBlock(1, true, Some(q))] + [CallResumeAll(true)] + [ContextSwitch]
      + [CallCreate(b, 2)] + [ContextSwitch] + [CallSuspendAll]
      + [CallBlock(1, true, Some(q))] + [CallResumeAll(true)] + [ContextSwitch]
  }

  function Waiting(idle: Task, a: Task, b: Task, q: nat): Scene {
    Scene(map[idle := 0, a := 3, b := 2], map[idle := Ready(0), a := DelayedA, b := DelayedA],
          map[a := Event(q), b := Event(q)], idle, idle, 0, 0)
  }

  /** One task is created, runs, blocks on event `q`, and the idle task runs again. */
  lemma LeadsToWaiter(k: K, cs: seq<Call>, s: Scene, t: Task, p: nat, q: nat)
    requires Leads(k, cs, s) && s.suspended == 0 && s.current == s.idle && s.tick + 1 < WRAP && t !in s.prio
    requires 0 < p < MAX_PRIORITIES
    requires s.idle in s.prio && s.prio[s.idle] == 0 && s.idle in s.where && s.where[s.idle] == Ready(0)
    requires forall x :: x in s.where && s.where[x].Ready? ==> x == s.idle
    requires forall x :: x in s.ev ==> s.ev[x] != PendingReady
    ensures Leads(k, cs + [CallCreate(t, p)] + [ContextSwitch] + [CallSuspendAll]
                     + [CallBlock(1, true, Some(q))] + [CallResumeAll(true)] + [ContextSwitch],
                  s.(prio := s.prio[t := p], where := s.where[t := DelayedA], ev := s.ev[t := Event(q)]))
  {
    hide Leads, Run, ValidRun, Sleeping, Good, Shows, Calm;
    LeadsToNew(k, cs, s, t, p);
    var s1 := s.(prio := s.prio[t := p], where := s.where[t := Ready(p)], current := t);
    LeadsToSuspended(k, cs + [CallCreate(t, p)] + [ContextSwitch], s1);
    var s2 := s1.(suspended := 1);
    LeadsToBlocked(k, cs + [CallCreate(t, p)] + [ContextSwitch] + [CallSuspendAll], s2, q, s.idle);
    assert s2.(where := s2.where[t := DelayedA], ev := s2.ev[t := Event(q)], current := s.idle, suspended := 0)
        == s.(prio := s.prio[t := p], where := s.where[t := DelayedA], ev := s.ev[t := Event(q)]);
  }

  lemma ReachesWaiting(idle: Task, a: Task, b: Task, q: nat)
    requires a != idle && b != idle && a != b
    ensures Leads(Started(idle), TwoWaiters(a, b, q), Waiting(idle, a, b, q))
  {
    hide Leads, Started;
    var k, s0 := Started(idle), Opening(idle);
    ShowsStarted(idle);
    Begins(k, s0);
    LeadsToWaiter(k, [], s0, a, 3, q);
    var s1 := s0.(prio := s0.prio[a := 3], where := s0.where[a := DelayedA], ev := s0.ev[a := Event(q)]);
    LeadsToWaiter(k, [] + [CallCreate(a, 3)] + [ContextSwitch] + [CallSuspendAll]
                     + [CallBlock(1, true, Some(q))] + [CallResumeAll(true)] + [ContextSwitch], s1, b, 2, q);
    assert s1.(prio := s1.prio[b := 2], where := s1.where[b := DelayedA], ev := s1.ev[b := Event(q)])
        == Waiting(idle, a, b, q);
  }

  lemma {:induction false} NoPriorityCalls(k: K, cs: seq<Call>)
    requires Good(k) && ValidRun(k, cs) && forall c :: c in cs ==> !c.CallPrioritySet?
    ensures WaitersKeepPriority(k, cs)
    decreases |cs|
  {
    hide Inv, Settled, Preempted, Step, Allowed;
    if cs != [] {
      StepGood(k, cs[0]);
      assert cs[0] in cs;
      NoPriorityCalls(Step(k, cs[0]), cs[1..]);
    }
  }

  lemma TwoInOrder(items: seq<Task>, rank: map<Task, nat>, a: Task, b: Task)
    requires NoDup(items) && SortedBy(items, rank) && a != b && a in rank && b in rank && rank[a] < rank[b]
    requires forall x :: x in items <==> x == a || x == b
    ensures items == [a, b]
  {
    assert Members(items) == {a, b};
    MembersCount(items);
    assert items[0] in items && items[1] in items && a in items && b in items;
  }

  /** From the start of the scheduler: two tasks wait for an event, and raising the second above
      the first leaves the event list out of order, so the next event wakes the lower one. */
  lemma RaisedWaiterIsOvertaken(idle: Task, a: Task, b: Task, q: nat)
    requires a != idle && b != idle && a != b
    ensures Leads(Started(idle), TwoWaiters(a, b, q), Waiting(idle, a, b, q))
    ensures var k := Run(Started(idle), TwoWaiters(a, b, q));
            && b in k.prio && At(k.ev, Event(q)).items == [a, b]
            && var k' := PrioritySet(k, b, 4);
               && At(k'.ev, Event(q)).items == [a, b] && k'.prio == map[idle := 0, a := 3, b := 4]
               && !ListOrdered(k'.ev, k'.rank, q)
  {
    hide Good, Run, ValidRun, Started, TwoWaiters, WaitersKeepPriority, Ordered, Shows, PrioritySet, ListOrdered;
    ReachesWaiting(idle, a, b, q);
    NoneSetsPriority(a, b, q);
    NoPriorityCalls(Started(idle), TwoWaiters(a, b, q));
    StartedOrdered(idle);
    RunOrdered(Started(idle), TwoWaiters(a, b, q));
    var k := Run(Started(idle), TwoWaiters(a, b, q));
    ShowsInv(k, Waiting(idle, a, b, q));
    Overtaken(k, idle, a, b, q);
  }

  lemma ShowsInv(k: K, s: Scene)
    requires Shows(k, s)
    ensures Inv(k)
  {
  }

  lemma NoneSetsPriority(a: Task, b: Task, q: nat)
    ensures forall c :: c in TwoWaiters(a, b, q) ==> !c.CallPrioritySet?
  {
  }

  lemma Overtaken(k: K, idle: Task, a: Task, b: Task, q: nat)
    requires a != idle && b != idle && a != b && Shows(k, Waiting(idle, a, b, q)) && Ordered(k)
    ensures b in k.prio && At(k.ev, Event(q)).items == [a, b]
    ensures var k' := PrioritySet(k, b, 4);
            && At(k'.ev, Event(q)).items == [a, b] && k'.prio == map[idle := 0, a := 3, b := 4]
            && !ListOrdered(k'.ev, k'.rank, q)
  {
    hide Inv, Settled, Preempted, Reprioritise, At, Ordered;
    InvParts(k);
    OrderedTwo(k, a, b, q);
    WaiterPriorityChangeIff(k, q, 1, 4);
  }

  lemma OrderedTwo(k: K, a: Task, b: Task, q: nat)
    requires Ok(k.ev) && Ordered(k) && a != b && a in k.prio && b in k.prio && k.prio[a] > k.prio[b]
    requires k.ev.where == map[a := Event(q), b := Event(q)]
    ensures At(k.ev, Event(q)).items == [a, b]
  {
    hide SortedBy;
    assert ListOrdered(k.ev, k.rank, q) && Proper(k.ev, Event(q));
    forall x ensures x in At(k.ev, Event(q)).items <==> x == a || x == b {
      assert x in k.ev.where <==> x == a || x == b;
    }
    TwoInOrder(At(k.ev, Event(q)).items, k.rank, a, b);
  }
}
