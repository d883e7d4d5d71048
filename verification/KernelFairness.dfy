/** Among the tasks of the highest priority that wait for an event, the event wakes the one that
    blocked first. */
module KernelFairness {
  import opened Options
  import opened Rings
  import opened TaskLists
  import opened PlainLists
  import opened PlainScheduler
  import opened FairWaiting
  import opened Scheduler
  import opened Kernel
  import opened KernelCalls
  import opened KernelRuns
  import opened KernelEvents
  import opened KernelRefinement

  /** The number of the step, counted from `n`, in which each task last blocked for an event. */
  ghost function BlockedIn(k: K, cs: seq<Call>, n: nat, since: map<Task, nat>): map<Task, nat>
    requires Good(k) && ValidRun(k, cs)
    decreases |cs|
  {
    if cs == [] then since
    else
      StepGood(k, cs[0]);
      BlockedIn(Step(k, cs[0]), cs[1..], n + 1, Stamped(k, cs[0], n, since))
  }

  ghost function Stamped(k: K, c: Call, n: nat, since: map<Task, nat>): map<Task, nat> {
    if c.CallBlock? && c.event.Some? then since[k.current := n] else since
  }

  lemma NamesNoWaiter(k: K, c: Call)
    requires Good(k) && Allowed(k, c) && (c.CallPrioritySet? ==> c.t !in k.ev.where)
    ensures NotAboutWaiters(Plain(k), c)
  {
    hide Ok, Bits, Counts, Times, Settled, Preempted, IsWaiting, At, PlacesOf, WaitsOf;
    match c
    case CallCreate(t, _) => WaitingIs(k, t);
    case CallPrioritySet(t, _) => WaitingIs(k, t);
    case CallBlock(_, _, _) => WaitingIs(k, k.current); RunningHasNoEvent(k, k.current);
    case CallCleanUp => TerminatingHead(k); EndedIs(k); WaitingIs(k, At(k.st, Terminating).items[0]);
    case _ =>
  }

  lemma EndedIs(k: K)
    ensures Plain(k).places.ended == At(k.st, Terminating).items
  {
  }

  lemma {:induction false} RunFair(k: K, cs: seq<Call>, n: nat, since: map<Task, nat>)
    requires Good(k) && Ranked(k) && ValidRun(k, cs) && WaitersKeepPriority(k, cs) && AllFair(Plain(k), since, n)
    ensures AllFair(Plain(Run(k, cs)), BlockedIn(k, cs, n, since), n + |cs|)
    decreases |cs|
  {
    hide Inv, Settled, Preempted, Ranked, Step, PlainStep, Allowed, AllFair, PlacesOf, WaitsOf;
    if cs != [] {
      StepGood(k, cs[0]);
      StepRefines(k, cs[0]);
      NamesNoWaiter(k, cs[0]);
      PlainStepFair(Plain(k), cs[0], since, n);
      RunFair(Step(k, cs[0]), cs[1..], n + 1, Stamped(k, cs[0], n, since));
    }
  }

  lemma NobodyWaits(idle: Task)
    ensures AllFair(PlainStart(idle), map[], 0)
  {
    forall q: nat ensures FairFor(PlainStart(idle), map[], 0, q) {}
  }

  /** From the start of the scheduler, over every run in which no waiting task is given another
      priority: each event list is in the order of priority and, for equal priorities, of blocking;
      so the task an event wakes is the one of the highest priority that blocked first. */
  lemma EventWakesLongestWaiting(idle: Task, cs: seq<Call>, q: nat)
    requires (StartedGood(idle); ValidRun(Started(idle), cs) && WaitersKeepPriority(Started(idle), cs))
    requires (StartedGood(idle); At(Run(Started(idle), cs).ev, Event(q)).items != [])
    ensures var k := (StartedGood(idle); Run(Started(idle), cs)); var since := BlockedIn(Started(idle), cs, 0, map[]);
            var items := At(k.ev, Event(q)).items; var k' := EventOccurs(k, q);
            && items[0] in k.prio
            && (forall x :: x in items && x != items[0] ==> Sooner(k.prio, since, items[0], x))
            && (if k.suspended == 0
                then && k'.ev.where == k.ev.where - {items[0]}
                     && k'.st.where == k.st.where[items[0] := Ready(k.prio[items[0]])]
                else k'.ev.where == k.ev.where[items[0] := PendingReady] && k'.st.where == k.st.where)
  {
    hide Run, BlockedIn, Started, ValidRun, WaitersKeepPriority, EventOccurs, AllFair, Inv, Settled, Preempted, At,
      Plain, PlainStart, Ranked, Sooner;
    StartedGood(idle);
    StartedRanked(idle);
    PlainStarted(idle);
    NobodyWaits(idle);
    RunFair(Started(idle), cs, 0, map[]);
    FirstIsLongest(Run(Started(idle), cs), BlockedIn(Started(idle), cs, 0, map[]), |cs|, q);
  }

  lemma FirstIsLongest(k: K, since: map<Task, nat>, n: nat, q: nat)
    requires Inv(k) && AllFair(Plain(k), since, n) && At(k.ev, Event(q)).items != []
    ensures var items := At(k.ev, Event(q)).items; var k' := EventOccurs(k, q);
            && items[0] in k.prio
            && (forall x :: x in items && x != items[0] ==> Sooner(k.prio, since, items[0], x))
            && (if k.suspended == 0
                then && k'.ev.where == k.ev.where - {items[0]}
                     && k'.st.where == k.st.where[items[0] := Ready(k.prio[items[0]])]
                else k'.ev.where == k.ev.where[items[0] := PendingReady] && k'.st.where == k.st.where)
  {
    var items := At(k.ev, Event(q)).items;
    Stores(k);
    EventHead(k.ev, q);
    WaiterHome(k, items[0]);
    assert FairFor(Plain(k), since, n, q);
    assert WaitingFor(Plain(k).waits, q) == items;
    hide Inv, At, WakeWaiter, Plain, AllFair;
  }
}
