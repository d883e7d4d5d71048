/** Among the co-routines of the highest priority that wait for an event, the event readies the one
    that delayed itself first. */
module CoRoutineFairness {
  import opened Options
  import opened Rings
  import opened TaskLists
  import opened PlainLists
  import opened PlainScheduler
  import opened FairWaiting
  import opened CoRoutines
  import opened CoRoutineRefinement

  /** The number of the call, counted from `n`, with which each co-routine last queued for an event. */
  ghost function QueuedIn(c: C, calls: seq<Call>, n: nat, since: map<CoRoutine, nat>): map<CoRoutine, nat>
    requires Inv(c) && Settled(c) && ValidRun(c, calls)
    decreases |calls|
  {
    if calls == [] then since
    else
      StepKeeps(c, calls[0]);
      QueuedIn(Step(c, calls[0]), calls[1..], n + 1, Stamped(c, calls[0], n, since))
  }

  ghost function Stamped(c: C, call: Call, n: nat, since: map<CoRoutine, nat>): map<CoRoutine, nat> {
    if call.DoDelay? && call.event.Some? then since[c.current := n] else since
  }

  lemma WaitsOnlyListed(c: C, t: CoRoutine)
    requires Ok(c.ev) && IsWaiting(Plain(c), t)
    ensures t in c.ev.where
  {
    if t in At(c.ev, PendingReady).items {
    } else {
      var q: nat :| t in WaitingFor(Plain(c).waits, q);
      assert t in At(c.ev, Event(q)).items;
    }
  }

  lemma {:induction false} CoTicksFair(a: P, m: nat, since: map<CoRoutine, nat>, n: nat)
    requires AllFair(a, since, n)
    ensures AllFair(CoTicks(a, m), since, n)
    decreases m
  {
    hide AllFair, AfterTick;
    if m > 0 {
      AfterTickFair(a, since, n);
      CoTicksFair(AfterTick(a), m - 1, since, n);
    }
  }

  lemma ScheduledFair(a: P, now: nat, since: map<CoRoutine, nat>, n: nat)
    requires AllFair(a, since, n)
    ensures AllFair(CoScheduled(a, now), since, n)
  {
    hide AllFair, MadeReadyAll, CoTicks, Passed, NextTurn, TopReady;
    var b := MadeReadyAll(a, a.waits.held);
    MadeReadyAllFair(a, a.waits.held, since, n);
    CoTicksFair(b, Passed(a, now), since, n);
    SameWaits(CoTicks(b, Passed(a, now)), CoScheduled(a, now), since, n);
  }

  lemma NotifiedFairly(a: P, q: nat, since: map<CoRoutine, nat>, n: nat)
    requires AllFair(a, since, n)
    ensures AllFair(CoNotified(a, q), since, n)
  {
    hide AllFair, Quit;
    var ts := WaitingFor(a.waits, q);
    if ts != [] {
      QuitFair(a, CoNotified(a, q), since, n, ts[0]);
    }
  }

  lemma CreatedFairly(c: C, t: CoRoutine, priority: nat, since: map<CoRoutine, nat>, n: nat)
    requires Inv(c) && t !in c.prio && AllFair(Plain(c), since, n)
    ensures AllFair(CoCreated(Plain(c), t, priority), since, n)
  {
    assert !IsWaiting(Plain(c), t) by {
      if IsWaiting(Plain(c), t) { WaitsOnlyListed(c, t); }
    }
    hide AllFair, Inv, IsWaiting, PlacesOf, WaitsOf, InTurn;
    SameWaits(Plain(c), CoCreated(Plain(c), t, priority), since, n);
  }

  lemma StepFair(c: C, call: Call, since: map<CoRoutine, nat>, n: nat)
    requires Inv(c) && Settled(c) && Ranked(c) && Allowed(c, call) && AllFair(Plain(c), since, n)
    ensures AllFair(Plain(Step(c, call)), Stamped(c, call, n, since), n + 1)
  {
    hide Ok, Times, Settled, Ranked, AllFair, Step, At, PlacesOf, WaitsOf, IsWaiting, Slept, CoCreated, CoNotified,
      CoScheduled;
    StepRefines(c, call);
    match call
    case DoCreate(t, p) => CreatedFairly(c, t, p, since, n); LaterFair(CoCreated(Plain(c), t, p), since, n);
    case DoDelay(ticks, event) =>
      if IsWaiting(Plain(c), c.current) { WaitsOnlyListed(c, c.current); assert false; }
      SleptFair(Plain(c), ticks, false, event, since, n);
    case DoEvent(q) => NotifiedFairly(Plain(c), q, since, n); LaterFair(CoNotified(Plain(c), q), since, n);
    case DoSchedule(now) => ScheduledFair(Plain(c), now, since, n); LaterFair(CoScheduled(Plain(c), now), since, n);
  }

  lemma {:induction false} RunFair(c: C, calls: seq<Call>, n: nat, since: map<CoRoutine, nat>)
    requires Inv(c) && Settled(c) && Ranked(c) && ValidRun(c, calls) && AllFair(Plain(c), since, n)
    ensures AllFair(Plain(Run(c, calls)), QueuedIn(c, calls, n, since), n + |calls|)
    decreases |calls|
  {
    hide Inv, Settled, Ranked, Step, Allowed, AllFair, Plain, Stamped;
    if calls != [] {
      StepKeeps(c, calls[0]);
      StepRanked(c, calls[0]);
      StepFair(c, calls[0], since, n);
      RunFair(Step(c, calls[0]), calls[1..], n + 1, Stamped(c, calls[0], n, since));
    }
  }

  lemma NobodyQueues()
    ensures AllFair(Plain(Initial()), map[], 0)
  {
    forall q: nat ensures FairFor(Plain(Initial()), map[], 0, q) {}
  }

  /** Whatever calls came before, the co-routines that wait for an event are in the order of priority
      and, for equal priorities, of the calls with which they delayed themselves; the event takes the
      first of them, before its time, and the next scheduling call makes it ready. */
  lemma EventReadiesLongestWaiting(calls: seq<Call>, q: nat, now: nat)
    requires (InitialInv(); ValidRun(Initial(), calls)) && now < WRAP
    requires (InitialInv(); At(Run(Initial(), calls).ev, Event(q)).items != [])
    ensures var d := (InitialInv(); Run(Initial(), calls)); var since := QueuedIn(Initial(), calls, 0, map[]);
            var items := At(d.ev, Event(q)).items; var d' := EventOccurs(d, q).0;
            && (forall x :: x in items && x != items[0] ==> Sooner(d.prio, since, items[0], x))
            && items[0] in d.prio && d'.ev.where == d.ev.where[items[0] := PendingReady]
            && Inv(d') && Settled(d') && items[0] in Schedule(d', now).0.st.where
            && Schedule(d', now).0.st.where[items[0]] == Ready(d.prio[items[0]])
  {
    hide Inv, Settled, Run, QueuedIn, Initial, ValidRun, EventOccurs, AllFair, Ranked, Sooner, At, Plain, Schedule;
    InitialInv();
    InitialRanked();
    NobodyQueues();
    RunFair(Initial(), calls, 0, map[]);
    EventReadiesHighest(calls, q, now);
    FirstIsLongest(Run(Initial(), calls), QueuedIn(Initial(), calls, 0, map[]), |calls|, q);
  }

  lemma FirstIsLongest(c: C, since: map<CoRoutine, nat>, n: nat, q: nat)
    requires AllFair(Plain(c), since, n) && At(c.ev, Event(q)).items != []
    ensures var items := At(c.ev, Event(q)).items;
            forall x :: x in items && x != items[0] ==> Sooner(c.prio, since, items[0], x)
  {
    var items := At(c.ev, Event(q)).items;
    assert FairFor(Plain(c), since, n, q);
    assert WaitingFor(Plain(c).waits, q) == items;
  }
}
