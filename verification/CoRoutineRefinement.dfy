/** The co-routine scheduler refines the plain scheduler too: a scheduling call readies those held and
    then, tick by tick, those due, and gives the next in turn of the highest priority its turn. */
module CoRoutineRefinement {
  import opened Options
  import opened Rings
  import opened TaskLists
  import opened PlainLists
  import opened PlainViews
  import opened PlainScheduler
  import opened CoRoutines

  // ---- Plain steps -------------------------------------------------------------------------

  ghost function CoCreated(a: P, t: CoRoutine, priority: nat): P {
    var p := if priority < MAX_CO_ROUTINE_PRIORITIES then priority else MAX_CO_ROUTINE_PRIORITIES - 1;
    a.(prio := a.prio[t := p], places := InTurn(a.places, t, p), current := if a.prio == map[] then t else a.current)
  }

  /** The first in the list for the event is held until the next scheduling call. */
  ghost function CoNotified(a: P, q: nat): P {
    var ts := WaitingFor(a.waits, q);
    if ts == [] then a else Held(a.(waits := Quit(a.waits, ts[0])), ts[0])
  }

  ghost function CoTicks(a: P, n: nat): P
    decreases n
  {
    if n == 0 then a else CoTicks(AfterTick(a), n - 1)
  }

  /** The next in turn of those ready at the highest priority, if anyone is ready. */
  ghost function CoNext(a: P): P {
    var p := TopReady(a.places, MAX_CO_ROUTINE_PRIORITIES - 1);
    var r := NextTurn(ReadyAt(a.places, p));
    if r.had == [] then a
    else a.(places := a.places.(ready := a.places.ready[p := r]), current := r.had[|r.had| - 1])
  }

  /** Ticks since the last scheduling call, when the 32-bit tick count is `now`. */
  ghost function Passed(a: P, now: nat): nat {
    (now + WRAP - a.now % WRAP) % WRAP
  }

  ghost function CoScheduled(a: P, now: nat): P {
    CoNext(CoTicks(MadeReadyAll(a, a.waits.held), Passed(a, now)))
  }

  ghost function CoStep(a: P, call: Call): P {
    match call
    case DoCreate(t, p) => CoCreated(a, t, p)
    case DoDelay(ticks, event) => Slept(a, ticks, false, event)
    case DoEvent(q) => CoNotified(a, q)
    case DoSchedule(now) => CoScheduled(a, now)
  }

  ghost function CoRun(a: P, calls: seq<Call>): P
    decreases |calls|
  {
    if calls == [] then a else CoRun(CoStep(a, calls[0]), calls[1..])
  }

  // ---- Moves -------------------------------------------------------------------------------

  /** The plain scheduler that a co-routine scheduler stands for; it has no idle task and no
      suspension. */
  ghost function Plain(c: C): P {
    P(c.prio, PlacesOf(c.st, c.wake, c.delayed, c.overflow, c.epoch), WaitsOf(c.ev), Now(c), c.current, 0,
      0, 0, false, false)
  }

  lemma Stores(c: C)
    requires Inv(c)
    ensures Ok(c.st) && Ok(c.ev) && c.st.where.Keys == c.prio.Keys && c.tick < WRAP
    ensures DelayLists(c.delayed, c.overflow) && WakeBounded(c.st, c.wake, c.delayed, c.overflow)
  {
    hide SortedBy, At;
  }

  lemma WakePlain(c: C, t: CoRoutine)
    requires Inv(c) && t in c.prio
    ensures t in c.st.where && Plain(Wake(c, t)) == MadeReady(Plain(c), t)
  {
    hide Inv, Ok, At, WakeBounded, Take, Relocate, PlacesOf, WaitsOf, Gone, InTurn, Quit;
    Stores(c);
    ReadyMove(c.st, c.wake, c.delayed, c.overflow, c.epoch, t, c.prio[t]);
    if t in c.ev.where {
      TakeWaits(c.ev, t);
    } else {
      QuitAbsent(c.ev, t);
    }
  }

  lemma NoneDue(c: C)
    requires Inv(c)
    requires var dl := At(c.st, c.delayed).items; dl != [] ==> dl[0] in c.wake && c.tick < c.wake[dl[0]]
    ensures DueTasks(Plain(c).places.sleeping, Now(c)) == []
  {
    hide Inv, At, WakeBounded, PlacesOf, WaitsOf, DueTasks;
    Stores(c);
    NobodyDue(c.st, c.wake, c.delayed, c.overflow, c.epoch, c.tick);
  }

  lemma {:induction false} WakeDuePlain(c: C)
    requires Inv(c)
    ensures Plain(WakeDue(c)) == MadeReadyAll(Plain(c), DueTasks(Plain(c).places.sleeping, Now(c)))
    decreases |At(c.st, c.delayed).items|
  {
    hide Inv, Ok, At, WakeBounded, Times, Homes, Wake, PlacesOf, WaitsOf, Roused, Gone, InTurn, Quit;
    var items := At(c.st, c.delayed).items;
    Stores(c);
    DelayedHead(c);
    if items != [] && c.wake[items[0]] <= c.tick {
      var t := items[0];
      var ts := DueTasks(Plain(c).places.sleeping, Now(c));
      FirstSleeper(c.st, c.wake, c.delayed, c.overflow, c.epoch);
      WakeKeeps(c, t);
      WakePlain(c, t);
      WakeDuePlain(Wake(c, t));
      assert ts == [t] + ts[1..];
      assert MadeReady(Plain(c), t).places.sleeping == Roused(Plain(c).places.sleeping, t) by { RestSleeps(c, t); }
    } else {
      NoneDue(c);
    }
  }

  lemma RestSleeps(c: C, t: CoRoutine)
    ensures MadeReady(Plain(c), t).places.sleeping == Roused(Plain(c).places.sleeping, t)
  {
  }

  lemma AdvancePlain(c: C)
    requires Inv(c) && Settled(c)
    ensures Plain(CoRoutines.Advance(c)) == Plain(c).(now := Now(c) + 1)
  {
    hide Ok, SortedBy, At, PlacesOf, WaitsOf, Homes;
    if c.tick + 1 == WRAP {
      SwapOnlyWhenEmpty(c);
      SwitchedPlaces(c.st, c.wake, c.delayed, c.overflow, c.epoch);
    }
  }

  lemma TickPlain(c: C)
    requires Inv(c) && Settled(c)
    ensures Plain(Tick(c)) == AfterTick(Plain(c))
  {
    hide Inv, Settled, At, WakeDue, PlacesOf, WaitsOf, DueTasks, MadeReadyAll, CoRoutines.Advance;
    AdvanceKeeps(c);
    AdvancePlain(c);
    WakeDuePlain(CoRoutines.Advance(c));
  }

  lemma {:induction false} CatchUpPlain(c: C, n: nat)
    requires Inv(c) && Settled(c)
    ensures Plain(CatchUp(c, n)) == CoTicks(Plain(c), n)
    decreases n
  {
    hide Inv, Settled, Ticked, Tick, Plain, AfterTick;
    if n > 0 {
      TickExact(c);
      TickPlain(c);
      CatchUpPlain(Tick(c), n - 1);
    }
  }

  lemma {:induction false} DrainPlain(c: C)
    requires Inv(c)
    ensures Plain(DrainPending(c)) == MadeReadyAll(Plain(c), Plain(c).waits.held)
    decreases |At(c.ev, PendingReady).items|
  {
    hide Inv, Ok, At, WakeBounded, Wake, PlacesOf, Gone, InTurn, Quit;
    Stores(c);
    PendingHead(c);
    var items := At(c.ev, PendingReady).items;
    if items != [] {
      WakeKeeps(c, items[0]);
      WakePlain(c, items[0]);
      FirstHeld(c.ev);
      DrainPlain(Wake(c, items[0]));
    }
  }

  // ---- The calls ---------------------------------------------------------------------------

  lemma PassedIs(c: C, now: nat)
    requires c.tick < WRAP && now < WRAP
    ensures Passed(Plain(c), now) == Minus(now, c.tick)
  {
    assert Now(c) % WRAP == c.tick;
    assert (now + WRAP - c.tick) % WRAP == Minus(now, c.tick);
  }

  lemma PreparedPlain(c: C, now: nat)
    requires Inv(c) && Settled(c) && now < WRAP
    ensures Plain(Prepared(c, now)) == CoTicks(MadeReadyAll(Plain(c), Plain(c).waits.held), Passed(Plain(c), now))
  {
    hide Inv, Settled, Drained, Ticked, CatchUp, DrainPending, Plain, Passed, CoTicks, MadeReadyAll;
    DrainPendingEffect(c);
    DrainedTick(c);
    DrainPlain(c);
    CatchUpPlain(DrainPending(c), Minus(now, c.tick));
    PassedIs(c, now);
  }

  lemma {:induction false} ScanPlain(c: C, p: nat)
    ensures TopReady(Plain(c).places, p) == ScanDown(c.st, p)
  {
    TurnsMembers(At(c.st, Ready(p)));
    if p > 0 {
      ScanPlain(c, p - 1);
    }
  }

  lemma HeadIn(st: Store, l: ListId)
    requires Ok(st) && At(st, l).items != []
    ensures At(st, l).items[0] in st.where && st.where[At(st, l).items[0]] == l
  {
    assert At(st, l).items[0] in At(st, l).items;
  }

  lemma AboveTop(c: C, p: nat)
    requires Inv(c) && c.top < p
    ensures At(c.st, Ready(p)).items == []
  {
    hide Ok, At, SortedBy;
    if At(c.st, Ready(p)).items != [] {
      HeadIn(c.st, Ready(p));
    }
  }

  /** The recorded top priority only saves scanning empty lists. */
  lemma {:induction false} ScanFromTop(c: C, p: nat)
    requires Inv(c) && c.top <= p
    ensures ScanDown(c.st, p) == ScanDown(c.st, c.top)
  {
    if p > c.top {
      AboveTop(c, p);
      ScanFromTop(c, p - 1);
    }
  }

  lemma NextPlain(c: C, now: nat)
    requires Inv(c) && Settled(c) && now < WRAP
    ensures Plain(Schedule(c, now).0) == CoNext(Plain(Prepared(c, now)))
  {
    hide Inv, Ok, Settled, Prepared, Ticked, At, PlacesOf, WaitsOf, WakeBounded, ScanDown, TopReady, NextTurn,
      Rings.Advance, Current;
    PreparedKeeps(c, now);
    var c1 := Prepared(c, now);
    var p := ScanDown(c1.st, c1.top);
    Stores(c1);
    TopBelow(c1);
    ScanFromTop(c1, MAX_CO_ROUTINE_PRIORITIES - 1);
    ScanPlain(c1, MAX_CO_ROUTINE_PRIORITIES - 1);
    if At(c1.st, Ready(p)).items == [] {
      NobodyNext(c1, p);
    } else {
      Walked(c1.st, p);
      WalkedPlaces(c1.st, Schedule(c, now).0.st, c1.wake, c1.delayed, c1.overflow, c1.epoch, p);
    }
  }

  lemma TopBelow(c: C)
    requires Inv(c)
    ensures c.top < MAX_CO_ROUTINE_PRIORITIES
  {
  }

  lemma NobodyNext(c: C, p: nat)
    requires At(c.st, Ready(p)).items == []
    ensures NextTurn(ReadyAt(Plain(c).places, p)).had == []
  {
  }

  lemma Walked(st: Store, p: nat)
    requires Ok(st) && At(st, Ready(p)).items != []
    ensures At(st, Ready(p)).index <= |At(st, Ready(p)).items|
    ensures var ring := Rings.Advance(At(st, Ready(p)));
            forall m :: At(st.(lists := st.lists[Ready(p) := ring]), m) == if m == Ready(p) then ring else At(st, m)
  {
    AllProper(st, Ready(p));
    hide Ok;
  }

  lemma SchedulePlain(c: C, now: nat)
    requires Inv(c) && Settled(c) && now < WRAP
    ensures Plain(Schedule(c, now).0) == CoScheduled(Plain(c), now)
  {
    hide Inv, Settled, Schedule, Prepared, Plain, CoNext, CoTicks, MadeReadyAll, Passed;
    PreparedPlain(c, now);
    NextPlain(c, now);
  }

  lemma CreatePlain(c: C, t: CoRoutine, priority: nat)
    requires Inv(c) && t !in c.prio
    ensures Plain(Create(c, t, priority)) == CoCreated(Plain(c), t, priority)
  {
    hide Inv, Ok, At, WakeBounded, PutEnd, PlacesOf, WaitsOf, InTurn;
    Stores(c);
    var p := if priority < MAX_CO_ROUTINE_PRIORITIES then priority else MAX_CO_ROUTINE_PRIORITIES - 1;
    ReadyPlaces(c.st, c.wake, c.delayed, c.overflow, c.epoch, t, p);
  }

  lemma WaitersRanked(c: C, t: CoRoutine)
    requires Inv(c) && Ranked(c) && t in c.prio
    ensures forall x :: x in c.ev.where || x == t ==>
              x in c.rank && x in c.prio && c.rank[x] + c.prio[x] == MAX_CO_ROUTINE_PRIORITIES
  {
    hide Ok, Times, EventsSorted;
  }

  lemma AddedPlain(c: C, t: CoRoutine, q: nat)
    requires Inv(c) && Ranked(c) && t in c.prio && c.st.where[t].Ready?
    ensures WaitsOf(EventAdded(c, t, q)) == QueuedFor(Plain(c), t, q)
  {
    assert t !in c.ev.where by { ReadyWaitsNot(c, t); }
    hide Inv, Ranked, Ok, PutSorted, PlacesOf, At, Queued, WakeBounded, SortedPos, Values, Placed, SortedBy;
    Stores(c);
    WaitersRanked(c, t);
    QueueWaits(c.ev, c.rank, c.prio, q, t, MAX_CO_ROUTINE_PRIORITIES);
  }

  lemma ReadyWaitsNot(c: C, t: CoRoutine)
    requires Inv(c) && t in c.prio && c.st.where[t].Ready?
    ensures t !in c.ev.where
  {
    hide Ok, Times;
  }

  lemma DelayPlain(c: C, ticks: nat, event: Option<nat>)
    requires Inv(c) && Ranked(c) && c.current in c.prio && c.st.where[c.current] == Ready(c.prio[c.current])
    requires 1 <= ticks <= MAX_DELAY
    ensures Plain(AddToDelayed(c, ticks, event)) == Slept(Plain(c), ticks, false, event)
  {
    hide Inv, Ok, Ranked, At, WakeBounded, SortedBy, RelocateSorted, EventAdded, PlacesOf, WaitsOf, Gone, Bedded,
      Queued;
    Stores(c);
    var t, w := c.current, Plus(c.tick, ticks);
    OthersSorted(c, t, w);
    SleepMove(c.st, c.wake, c.delayed, c.overflow, c.epoch, t, w, if w < c.tick then c.overflow else c.delayed);
    DueTime(c.epoch, c.tick, ticks);
    if event.Some? {
      AddedPlain(c, t, event.value);
    }
  }

  lemma EventPlain(c: C, q: nat)
    requires Inv(c) && At(c.ev, Event(q)).items != []
    ensures Plain(EventOccurs(c, q).0) == CoNotified(Plain(c), q)
  {
    var t := At(c.ev, Event(q)).items[0];
    assert t in At(c.ev, Event(q)).items;
    assert t in c.ev.where;
    hide Inv, Ok, At, Take, PutEnd, PlacesOf, WakeBounded, Quit;
    Stores(c);
    TakeWaits(c.ev, t);
    HoldWaits(Take(c.ev, t), t);
  }

  /** Every call is its plain step. */
  lemma StepRefines(c: C, call: Call)
    requires Inv(c) && Settled(c) && Allowed(c, call) && Ranked(c)
    ensures Plain(Step(c, call)) == CoStep(Plain(c), call)
  {
    hide Ok, Times, Settled, Ranked, At, Plain, Create, AddToDelayed, EventOccurs, Schedule, CoCreated, Slept,
      CoNotified, CoScheduled;
    match call
    case DoCreate(t, p) => CreatePlain(c, t, p);
    case DoDelay(ticks, event) => DelayPlain(c, ticks, event);
    case DoEvent(q) => EventPlain(c, q);
    case DoSchedule(now) => SchedulePlain(c, now);
  }

  lemma {:induction false} RunRefines(c: C, calls: seq<Call>)
    requires Inv(c) && Settled(c) && ValidRun(c, calls) && Ranked(c)
    ensures Plain(Run(c, calls)) == CoRun(Plain(c), calls)
    decreases |calls|
  {
    hide Inv, Settled, Ranked, Step, Plain, CoStep, Allowed;
    if calls != [] {
      StepKeeps(c, calls[0]);
      StepRanked(c, calls[0]);
      StepRefines(c, calls[0]);
      RunRefines(Step(c, calls[0]), calls[1..]);
    }
  }

  /** No co-routine has been created yet. */
  ghost function CoStart(): P {
    P(map[], Places(imap p: nat :: NoTurns(p), [], [], []), Waits(imap q: nat :: Nobody(q), []),
      0, 0, 0, 0, 0, false, false)
  }

  function NoTurns(p: nat): Turns {
    Turns([], [])
  }

  lemma CoStarted()
    ensures Plain(Initial()) == CoStart()
  {
    assert Plain(Initial()).places.ready == CoStart().places.ready;
    assert Plain(Initial()).waits.waiting == CoStart().waits.waiting;
  }

  /** Over every run of calls, the lists in all their order, the priorities, the time and the current
      co-routine are those of the plain scheduler. */
  lemma CoRoutinesArePlain(calls: seq<Call>)
    requires (InitialInv(); ValidRun(Initial(), calls))
    ensures (InitialInv(); Plain(Run(Initial(), calls))) == CoRun(CoStart(), calls)
  {
    InitialInv();
    InitialRanked();
    CoStarted();
    RunRefines(Initial(), calls);
  }
}
