/** Runs of the scheduler that also make the mutex calls, and exactly which of those calls break
    what the scheduler otherwise keeps. */
module MutexRuns {
  import opened Rings
  import opened TaskLists
  import opened Scheduler
  import opened Kernel
  import opened KernelCalls
  import opened KernelRuns
  import opened Inheritance

  datatype MutexCall =
    | Kernel(c: Call)
    | Inherits(h: Task)                           // the running task is about to block on a mutex of `h`
    | Gives(q: nat, base: nat, last: bool)        // the running task gives a mutex with event list `q`
    | GivesUp(h: Task, p: nat)                   // it gives up, and holder `h` is to have priority `p`

  /** Who holds which mutex is left open: any holder, base priority and new priority are covered. */
  ghost predicate CanMake(k: K, c: MutexCall)
    requires Homes(k)
  {
    match c
    case Kernel(c) => Allowed(k, c)
    case Inherits(h) => Running(k) && k.suspended > 0 && h in k.prio && h != k.current
    case Gives(_, base, _) => Running(k) && base <= k.prio[k.current] && base < MAX_PRIORITIES
    case GivesUp(h, p) => Running(k) && h in k.prio && h != k.current && p < MAX_PRIORITIES && p != k.prio[h]
  }

  function MutexStep(k: K, c: MutexCall): K
    requires Inv(k) && Settled(k) && CanMake(k, c)
  {
    match c
    case Kernel(c) => Step(k, c)
    case Inherits(h) => InheritMove(k, h)
    case Gives(q, base, last) => GiveMove(k, q, base, last)
    case GivesUp(h, p) => TimeoutMove(k, h, p)
  }

  /** The call breaks the scheduler: a give that wakes a task not above its base priority while a higher
      task is ready, and a time-out that finds the holder alone in its ready list or puts it above the
      running task; the cases without a list are harmless if a switch has been asked for anyway. */
  ghost predicate Breaks(k: K, c: MutexCall)
    requires Homes(k) && CanMake(k, c)
  {
    match c
    case Kernel(_) => false
    case Inherits(_) => false
    case Gives(q, base, last) => Calm(k) && last && Passed(k, q, base)
    case GivesUp(h, p) =>
      AloneInReadyList(k, h) || (Calm(k) && k.st.where[h].Ready? && k.prio[k.current] < p)
  }

  // ---- One step --------------------------------------------------------------------------------

  lemma RerankedIff(k: K, k': K, h: Task, p: nat)
    requires Good(k) && Inv(k') && Running(k) && h in k.prio && h != k.current
    requires k' == k.(st := k'.st, top := k'.top, prio := k.prio[h := p], rank := k'.rank)
    requires k'.st.where == if k.st.where[h].Ready? then k.st.where[h := Ready(p)] else k.st.where
    ensures Good(k') <==> !(Calm(k) && k.st.where[h].Ready? && k.prio[k.current] < p)
  {
    hide Ok, Bits, Counts, Times, SortedBy, HomeOk, Settled, MaxReady;
    RerankedSettled(k, k', h);
    if Calm(k) {
      RerankedMax(k, k', h, p);
    }
  }

  lemma RerankedSettled(k: K, k': K, h: Task)
    requires Settled(k) && Times(k) && Homes(k) && h in k.prio
    requires k'.tick == k.tick && k'.next == k.next && k'.delayed == k.delayed && k'.wake == k.wake && k'.ev == k.ev
    requires k'.suspended == k.suspended
    requires k'.st.where == k.st.where || exists q :: k'.st.where == k.st.where[h := Ready(q)]
    ensures Settled(k')
  {
    hide SortedBy, HomeOk;
  }

  lemma RerankedMax(k: K, k': K, h: Task, p: nat)
    requires Homes(k) && Homes(k') && h in k.prio && h != k.current && MaxReady(k) && k'.current == k.current
    requires k'.prio == k.prio[h := p]
    requires k'.st.where == if k.st.where[h].Ready? then k.st.where[h := Ready(p)] else k.st.where
    ensures MaxReady(k') <==> !(k.st.where[h].Ready? && k.prio[k.current] < p)
  {
    hide HomeOk;
    assert h in k.st.where;
    if k.st.where[h].Ready? && k.prio[k.current] < p {
      assert k'.st.where[h].Ready? && k'.prio[h] > k'.prio[k'.current];
    } else {
      forall x | x in k'.st.where && k'.st.where[x].Ready? ensures k'.prio[x] <= k'.prio[k'.current] {
        assert x != h ==> k'.st.where[x] == k.st.where[x] && k'.prio[x] == k.prio[x];
      }
    }
  }

  lemma InheritGood(k: K, h: Task)
    requires Good(k) && Running(k) && h in k.prio && h != k.current
    ensures Good(InheritMove(k, h))
  {
    hide Ok, Bits, Counts, Times, HomeOk, Settled, Preempted, Reprioritise;
    if k.prio[h] < k.prio[k.current] {
      CurrentPrio(k);
      RerankedIff(k, InheritMove(k, h), h, k.prio[k.current]);
    }
  }

  lemma CurrentPrio(k: K)
    requires Inv(k)
    ensures k.prio[k.current] < MAX_PRIORITIES
  {
  }

  /** If the holder is not alone, the time-out step is a plain change of priority. */
  lemma TimeoutReranks(k: K, h: Task, p: nat)
    requires Inv(k) && h in k.prio && p < MAX_PRIORITIES && p != k.prio[h] && !AloneInReadyList(k, h)
    ensures TimeoutMove(k, h, p) == Reprioritise(k, h, p)
  {
    hide Bits, Counts, Times, SortedBy;
    if k.st.where[h].Ready? {
      NotAlone(k, h);
    }
  }

  lemma TimeoutGoodIff(k: K, h: Task, p: nat)
    requires Good(k) && CanMake(k, GivesUp(h, p))
    ensures Good(TimeoutMove(k, h, p)) <==> !Breaks(k, GivesUp(h, p))
  {
    hide Ok, Bits, Counts, Times, HomeOk, Settled, Preempted, TimeoutMove, Reprioritise, AloneInReadyList, Running;
    if AloneInReadyList(k, h) {
      StaleBit(k, h, p);
    } else {
      TimeoutReranks(k, h, p);
      RerankedIff(k, TimeoutMove(k, h, p), h, p);
    }
  }

  lemma GiveSettled(k: K, q: nat, base: nat, last: bool)
    requires Good(k) && CanMake(k, Gives(q, base, last))
    ensures var k' := GiveMove(k, q, base, last); Settled(k') && (k'.suspended == 0 ==> k'.pended == 0)
  {
    hide Ok, Bits, Counts, HomeOk, Times, At, Reprioritise, WakeWaiter, Preempted, Settled;
    var k1 := if last then DisinheritMove(k, k.current, base) else k;
    RerankedSettled(k, k1, k.current);
    if At(k1.ev, Event(q)).items != [] {
      WaiterIsBlocked(k1, q);
      WokenSettled(k1, EventOccurs(k1, q), At(k1.ev, Event(q)).items[0]);
    } else {
      FlagsSettled(k1, GiveMove(k, q, base, last));
    }
  }

  lemma FlagsSettled(k: K, k': K)
    requires Settled(k) && k' == k.(request := k'.request)
    ensures Settled(k')
  {
  }

  lemma WokenSettled(k: K, k': K, t: Task)
    requires Settled(k) && Times(k) && t in k.prio && t in k.ev.where
    requires k'.tick == k.tick && k'.next == k.next && k'.delayed == k.delayed && k'.wake == k.wake
    requires k'.suspended == k.suspended
    requires k'.st.where == if k.suspended == 0 then k.st.where[t := Ready(k.prio[t])] else k.st.where
    requires k'.ev.where == if k.suspended == 0 then k.ev.where - {t} else k.ev.where[t := PendingReady]
    ensures Settled(k')
  {
    hide SortedBy;
  }

  lemma GiveFlags(k: K, q: nat, base: nat, last: bool)
    requires Inv(k) && base < MAX_PRIORITIES
    ensures var k' := GiveMove(k, q, base, last);
            (k.request ==> k'.request) && (k.yieldPending ==> k'.yieldPending)
  {
    hide Inv, At, Reprioritise, WakeWaiter;
  }

  lemma GiveGoodIff(k: K, q: nat, base: nat, last: bool)
    requires Good(k) && CanMake(k, Gives(q, base, last))
    ensures Good(GiveMove(k, q, base, last)) <==> !Breaks(k, Gives(q, base, last))
  {
    hide Ok, Bits, Counts, Times, HomeOk, Settled, GiveMove, Passed, Running;
    GiveSettled(k, q, base, last);
    GiveFlags(k, q, base, last);
    if Calm(k) {
      GiveKeepsPreemptionIff(k, q, base, last);
    }
  }

  /** Every kernel and mutex call keeps the scheduler's invariant, its next unblock time and its
      preemption, except exactly those that `Breaks` describes. */
  lemma MutexStepGoodIff(k: K, c: MutexCall)
    requires Good(k) && CanMake(k, c)
    ensures Good(MutexStep(k, c)) <==> !Breaks(k, c)
  {
    hide Ok, Bits, Counts, Times, HomeOk, Settled, Preempted, Step, InheritMove, GiveMove, TimeoutMove, Passed,
      AloneInReadyList;
    match c
    case Kernel(c) => StepGood(k, c);
    case Inherits(h) => InheritGood(k, h);
    case Gives(q, base, last) => GiveGoodIff(k, q, base, last);
    case GivesUp(h, p) => TimeoutGoodIff(k, h, p);
  }

  // ---- Runs ------------------------------------------------------------------------------------

  /** A run of calls, as far as the scheduler is intact. */
  ghost predicate MutexRun(k: K, cs: seq<MutexCall>)
    requires Good(k)
    decreases |cs|
  {
    cs == [] || (CanMake(k, cs[0]) && (Good(MutexStep(k, cs[0])) ==> MutexRun(MutexStep(k, cs[0]), cs[1..])))
  }

  /** The scheduler is intact in all states of the run. */
  ghost predicate AlwaysGood(k: K, cs: seq<MutexCall>)
    requires Good(k) && MutexRun(k, cs)
    decreases |cs|
  {
    cs == [] || (Good(MutexStep(k, cs[0])) && AlwaysGood(MutexStep(k, cs[0]), cs[1..]))
  }

  ghost predicate NoneBreaks(k: K, cs: seq<MutexCall>)
    requires Good(k) && MutexRun(k, cs)
    decreases |cs|
  {
    cs == [] || (!Breaks(k, cs[0]) && (MutexStepGoodIff(k, cs[0]); NoneBreaks(MutexStep(k, cs[0]), cs[1..])))
  }

  lemma {:induction false} RunGoodIff(k: K, cs: seq<MutexCall>)
    requires Good(k) && MutexRun(k, cs)
    ensures AlwaysGood(k, cs) <==> NoneBreaks(k, cs)
    decreases |cs|
  {
    hide Inv, Settled, Preempted, MutexStep, CanMake, Breaks;
    if cs != [] {
      MutexStepGoodIff(k, cs[0]);
      if Good(MutexStep(k, cs[0])) {
        RunGoodIff(MutexStep(k, cs[0]), cs[1..]);
      }
    }
  }

  /** From the start of the scheduler, over every run of kernel and mutex calls: the invariant, the
      next unblock time and preemption hold in all states if and only if no give passes over a higher
      ready task and no time-out finds its holder alone or puts it above the running task. */
  lemma MutexCallsKeepGoodIff(idle: Task, cs: seq<MutexCall>)
    requires (StartedGood(idle); MutexRun(Started(idle), cs))
    ensures (StartedGood(idle); AlwaysGood(Started(idle), cs) <==> NoneBreaks(Started(idle), cs))
  {
    hide Started;
    StartedGood(idle);
    RunGoodIff(Started(idle), cs);
  }

  // ---- Runs put together -------------------------------------------------------------------------

  function Lift(cs: seq<Call>): seq<MutexCall> {
    seq(|cs|, i requires 0 <= i < |cs| => Kernel(cs[i]))
  }

  lemma {:induction false} AfterKernelRun(k: K, cs: seq<Call>, es: seq<MutexCall>)
    requires Good(k) && ValidRun(k, cs) && MutexRun(Run(k, cs), es)
    ensures MutexRun(k, Lift(cs) + es)
    ensures AlwaysGood(k, Lift(cs) + es) <==> AlwaysGood(Run(k, cs), es)
    decreases |cs|
  {
    hide Inv, Settled, Preempted, Step, Allowed;
    var all := Lift(cs) + es;
    if cs == [] {
      assert all == es;
    } else {
      StepGood(k, cs[0]);
      AfterKernelRun(Step(k, cs[0]), cs[1..], es);
      assert all[0] == Kernel(cs[0]) && all[1..] == Lift(cs[1..]) + es;
    }
  }

  lemma AfterOne(k: K, c: MutexCall, es: seq<MutexCall>)
    requires Good(k) && CanMake(k, c) && !Breaks(k, c)
    requires (MutexStepGoodIff(k, c); MutexRun(MutexStep(k, c), es))
    ensures MutexRun(k, [c] + es)
    ensures (MutexStepGoodIff(k, c); AlwaysGood(k, [c] + es) <==> AlwaysGood(MutexStep(k, c), es))
  {
    hide Inv, Settled, Preempted, MutexStep, CanMake, Breaks;
    MutexStepGoodIff(k, c);
    assert ([c] + es)[1..] == es;
  }

  lemma EndsBroken(k: K, c: MutexCall)
    requires Good(k) && CanMake(k, c) && Breaks(k, c)
    ensures MutexRun(k, [c]) && !AlwaysGood(k, [c])
  {
    hide Inv, Settled, Preempted, MutexStep, CanMake, Breaks;
    MutexStepGoodIff(k, c);
  }
}
