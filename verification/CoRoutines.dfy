/** The co-routine scheduler of croutine.c: its lists and counters as a value, the functions
    that update them, and what one scheduling call does after any number of ticks. */
module CoRoutines {
  import opened Options
  import opened Rings
  import opened TaskLists

  const MAX_CO_ROUTINE_PRIORITIES: nat := 2

  type CoRoutine = Task

  datatype C = C(
    st: Store,                    // the lists holding every co-routine's xGenericListItem
    ev: Store,                    // the lists holding the xEventListItem of waiting co-routines
    wake: map<CoRoutine, nat>,    // item value of xGenericListItem: the 32-bit wake time
    rank: map<CoRoutine, nat>,    // item value of xEventListItem
    prio: map<CoRoutine, nat>,    // uxPriority; its keys are the co-routines
    top: nat,                     // uxTopCoRoutineReadyPriority
    tick: nat,                    // xCoRoutineTickCount, equal to xLastTickCount between calls
    epoch: nat,                   // number of wraps of the tick count
    delayed: ListId,              // pxDelayedCoRoutineList
    overflow: ListId,             // pxOverflowDelayedCoRoutineList
    current: CoRoutine
  )

  function Now(c: C): nat {
    Time(c.epoch, c.tick)
  }

  ghost predicate IsDelayed(c: C, t: CoRoutine) {
    t in c.st.where && (c.st.where[t] == c.delayed || c.st.where[t] == c.overflow) && t in c.wake
  }

  /** The unbounded time at which a delayed co-routine is due. */
  ghost function WakeTime(c: C, t: CoRoutine): nat
    requires IsDelayed(c, t)
  {
    Time(if c.st.where[t] == c.delayed then c.epoch else c.epoch + 1, c.wake[t])
  }

  // ---- The invariant -------------------------------------------------------------------------

  /** Every co-routine is in the ready list of its priority or in a delayed list; only a delayed
      one waits for an event; no ready co-routine is above the recorded top priority; and one is
      current from the first creation on. */
  ghost predicate Homes(c: C) {
    && c.st.where.Keys == c.prio.Keys
    && (forall t :: t in c.prio ==> c.prio[t] < MAX_CO_ROUTINE_PRIORITIES && t in c.rank)
    && (forall t :: t in c.prio ==>
          c.st.where[t] == Ready(c.prio[t]) || c.st.where[t] == c.delayed || c.st.where[t] == c.overflow)
    && (forall t :: t in c.ev.where ==> t in c.prio && !c.st.where[t].Ready?)
    && (forall t :: t in c.prio && c.st.where[t].Ready? ==> c.prio[t] <= c.top)
    && c.top < MAX_CO_ROUTINE_PRIORITIES
    && (c.prio != map[] ==> c.current in c.prio)
  }

  /** The delayed lists are in order of wake time, and the current one holds nothing overdue. */
  ghost predicate Times(c: C) {
    && c.tick < WRAP
    && ((c.delayed == DelayedA && c.overflow == DelayedB) || (c.delayed == DelayedB && c.overflow == DelayedA))
    && (forall t :: t in c.st.where && c.st.where[t] == c.delayed ==> t in c.wake && c.tick <= c.wake[t] < WRAP)
    && (forall t :: t in c.st.where && c.st.where[t] == c.overflow ==> t in c.wake && c.wake[t] < WRAP)
    && SortedBy(At(c.st, c.delayed).items, c.wake)
    && SortedBy(At(c.st, c.overflow).items, c.wake)
  }

  ghost predicate Inv(c: C) {
    Ok(c.st) && Ok(c.ev) && Homes(c) && Times(c)
  }

  /** Between ticks everything due has been woken. */
  ghost predicate Settled(c: C) {
    forall t :: t in c.st.where && c.st.where[t] == c.delayed ==> t in c.wake && c.tick < c.wake[t]
  }

  // ---- Waking --------------------------------------------------------------------------------

  /** prvAddCoRoutineToReadyQueue after the generic item, and the event item if it is in a list,
      have been removed. */
  function Wake(c: C, t: CoRoutine): C
    requires Ok(c.st) && Ok(c.ev) && t in c.st.where && t in c.prio
  {
    c.(st := Relocate(c.st, t, Ready(c.prio[t])),
       ev := if t in c.ev.where then Take(c.ev, t) else c.ev,
       top := if c.prio[t] > c.top then c.prio[t] else c.top)
  }

  /** What a wake-up does to the places of the items. */
  ghost predicate WokeOne(c: C, c': C, t: CoRoutine) {
    && t in c.prio
    && c' == c.(st := c'.st, ev := c'.ev, top := c'.top)
    && c'.st.where == c.st.where[t := Ready(c.prio[t])] && c'.ev.where == c.ev.where - {t}
  }

  lemma WakeKeeps(c: C, t: CoRoutine)
    requires Inv(c) && t in c.prio && !c.st.where[t].Ready?
    ensures Inv(Wake(c, t)) && WokeOne(c, Wake(c, t), t)
    ensures |At(Wake(c, t).st, c.st.where[t]).items| < |At(c.st, c.st.where[t]).items|
    ensures t in c.ev.where ==> |At(Wake(c, t).ev, c.ev.where[t]).items| < |At(c.ev, c.ev.where[t]).items|
  {
    hide Ok, At, Homes, Times, WokeOne;
    InLists(c, t);
    var c' := Wake(c, t);
    WakeTimes(c, c', t);
    WokeIt(c, t);
    WokeHomes(c, c', t);
  }

  lemma InLists(c: C, t: CoRoutine)
    requires Homes(c) && Times(c) && t in c.prio
    ensures t in c.st.where && c.tick < WRAP
  {
    hide SortedBy;
  }

  lemma WokeIt(c: C, t: CoRoutine)
    requires Ok(c.st) && Ok(c.ev) && t in c.st.where && t in c.prio
    ensures WokeOne(c, Wake(c, t), t) && Ok(Wake(c, t).st) && Ok(Wake(c, t).ev)
    ensures !c.st.where[t].Ready? ==> |At(Wake(c, t).st, c.st.where[t]).items| < |At(c.st, c.st.where[t]).items|
    ensures t in c.ev.where ==> |At(Wake(c, t).ev, c.ev.where[t]).items| < |At(c.ev, c.ev.where[t]).items|
  {
    hide Ok, SortedBy, Take, Relocate, At;
    assert t !in c.ev.where ==> c.ev.where - {t} == c.ev.where;
  }

  lemma WokeHomes(c: C, c': C, t: CoRoutine)
    requires Homes(c) && WokeOne(c, c', t) && c'.top == if c.prio[t] > c.top then c.prio[t] else c.top
    ensures Homes(c')
  {
  }

  lemma WakeTimes(c: C, c': C, t: CoRoutine)
    requires Ok(c.st) && Times(c) && t in c.st.where && !c.st.where[t].Ready? && t in c.prio
    requires c' == c.(st := c'.st, ev := c'.ev, top := c'.top) && c'.st == Relocate(c.st, t, Ready(c.prio[t]))
    ensures Times(c')
  {
    TakeKeepsSorted(c.st, t, c.wake, c.delayed);
    TakeKeepsSorted(c.st, t, c.wake, c.overflow);
    assert c.st.where[t] != Ready(c.prio[t]);
    assert Moved(c.st, c'.st, t, Ready(c.prio[t]));
    hide Ok, SortedBy, Take, Relocate, At;
  }

  lemma DelayedHead(c: C)
    requires Inv(c)
    ensures var items := At(c.st, c.delayed).items;
            && (items != [] ==> items[0] in c.st.where && c.st.where[items[0]] == c.delayed && items[0] in c.prio
                                && items[0] in c.wake && !c.st.where[items[0]].Ready?)
            && (forall t :: t in c.st.where && c.st.where[t] == c.delayed ==>
                  items != [] && t in c.wake && c.wake[items[0]] <= c.wake[t])
  {
    var items := At(c.st, c.delayed).items;
    if items != [] {
      assert items[0] in items;
    }
    forall t | t in c.st.where && c.st.where[t] == c.delayed
      ensures items != [] && t in c.wake && c.wake[items[0]] <= c.wake[t]
    {
      assert t in items;
      var i := IndexOf(items, t);
    }
  }

  /** The inner loop of prvCheckDelayedList. */
  function WakeDue(c: C): C
    requires Inv(c)
    decreases |At(c.st, c.delayed).items|
  {
    var items := At(c.st, c.delayed).items;
    DelayedHead(c);
    if items == [] || c.tick < c.wake[items[0]] then c
    else
      WakeKeeps(c, items[0]);
      WakeDue(Wake(c, items[0]))
  }

  ghost predicate Due(c: C, t: CoRoutine) {
    t in c.st.where && c.st.where[t] == c.delayed && t in c.wake && c.wake[t] <= c.tick
  }

  /** Exactly the due co-routines became ready and stopped waiting for an event. */
  ghost predicate Woken(c: C, c': C) {
    && c' == c.(st := c'.st, ev := c'.ev, top := c'.top)
    && c'.st.where.Keys == c.st.where.Keys
    && (forall t :: t in c.prio && t in c.st.where ==>
          c'.st.where[t] == if Due(c, t) then Ready(c.prio[t]) else c.st.where[t])
    && (forall t :: t in c'.ev.where <==> t in c.ev.where && !Due(c, t))
    && (forall t :: t in c'.ev.where ==> c'.ev.where[t] == c.ev.where[t])
  }

  lemma WokenStep(c: C, c1: C, c2: C, t: CoRoutine)
    requires WokeOne(c, c1, t) && Due(c, t) && Woken(c1, c2) && !c.delayed.Ready?
    ensures Woken(c, c2)
  {
    assert !Due(c1, t) && forall x :: x != t ==> (Due(c1, x) <==> Due(c, x));
  }

  lemma {:induction false} WakeDueEffect(c: C)
    requires Inv(c)
    ensures Inv(WakeDue(c)) && Woken(c, WakeDue(c)) && Settled(WakeDue(c))
    decreases |At(c.st, c.delayed).items|
  {
    hide Ok, SortedBy, Wake, Woken, At, Homes;
    var items := At(c.st, c.delayed).items;
    DelayedHead(c);
    if items == [] || c.tick < c.wake[items[0]] {
      NothingDue(c);
    } else {
      WakeKeeps(c, items[0]);
      WakeDueEffect(Wake(c, items[0]));
      WokenStep(c, Wake(c, items[0]), WakeDue(Wake(c, items[0])), items[0]);
    }
  }

  lemma NothingDue(c: C)
    requires forall t :: t in c.st.where && c.st.where[t] == c.delayed ==> t in c.wake && c.tick < c.wake[t]
    ensures Woken(c, c) && Settled(c)
  {
    assert forall t :: !Due(c, t);
  }

  // ---- Ticks ---------------------------------------------------------------------------------

  /** The tick count goes up by one and the delay lists change places when it wraps. */
  function Advance(c: C): C {
    if c.tick + 1 < WRAP then c.(tick := c.tick + 1)
    else c.(tick := 0, epoch := c.epoch + 1, delayed := c.overflow, overflow := c.delayed)
  }

  /** One round of the outer loop of prvCheckDelayedList. */
  function Tick(c: C): C
    requires Inv(c) && Settled(c)
  {
    AdvanceKeeps(c);
    WakeDue(Advance(c))
  }

  /** When the delay lists are swapped the current one is empty. */
  lemma SwapOnlyWhenEmpty(c: C)
    requires Inv(c) && Settled(c) && c.tick == MAX_DELAY
    ensures At(c.st, c.delayed).items == []
  {
    DelayedHead(c);
  }

  lemma AdvanceKeeps(c: C)
    requires Inv(c) && Settled(c)
    ensures Inv(Advance(c)) && Now(Advance(c)) == Now(c) + 1
    ensures forall t :: IsDelayed(c, t) ==> IsDelayed(Advance(c), t) && WakeTime(Advance(c), t) == WakeTime(c, t)
    ensures forall t :: Due(Advance(c), t) <==> IsDelayed(c, t) && WakeTime(c, t) == Now(c) + 1
  {
    hide Ok, SortedBy, At;
    if c.tick == MAX_DELAY {
      assert forall t :: t in c.st.where ==> c.st.where[t] != c.delayed;
    }
  }

  /** After `n` more ticks exactly the delayed co-routines whose unbounded wake time has come are
      ready and wait for no event; the others are where they were, with the same wake time. */
  ghost predicate Ticked(c: C, c': C, n: nat) {
    && Now(c') == Now(c) + n && c'.prio == c.prio && c'.wake == c.wake && c'.current == c.current
    && c'.st.where.Keys == c.st.where.Keys
    && (forall t :: t in c.prio && t in c.st.where ==>
          if IsDelayed(c, t) && WakeTime(c, t) <= Now(c) + n
          then c'.st.where[t] == Ready(c.prio[t]) && t !in c'.ev.where
          else c'.st.where[t] == c.st.where[t] && (t in c'.ev.where <==> t in c.ev.where)
               && (t in c.ev.where ==> c'.ev.where[t] == c.ev.where[t])
               && (IsDelayed(c, t) ==> IsDelayed(c', t) && WakeTime(c', t) == WakeTime(c, t)))
  }

  lemma TickExact(c: C)
    requires Inv(c) && Settled(c)
    ensures Inv(Tick(c)) && Settled(Tick(c)) && Ticked(c, Tick(c), 1)
  {
    hide Ok, SortedBy, At, Advance, WakeDue;
    AdvanceKeeps(c);
    WakeDueEffect(Advance(c));
    AdvanceFields(c);
    TickedOnce(c, Advance(c), Tick(c));
  }

  lemma AdvanceFields(c: C)
    ensures var a := Advance(c); a == c.(tick := a.tick, epoch := a.epoch, delayed := a.delayed, overflow := a.overflow)
  {
  }

  lemma TickedOnce(c: C, a: C, c': C)
    requires Inv(c) && Settled(c) && Times(a) && Times(c')
    requires a == c.(tick := a.tick, epoch := a.epoch, delayed := a.delayed, overflow := a.overflow)
    requires Now(a) == Now(c) + 1 && Woken(a, c')
    requires forall t :: IsDelayed(c, t) ==> IsDelayed(a, t) && WakeTime(a, t) == WakeTime(c, t)
    requires forall t :: Due(a, t) <==> IsDelayed(c, t) && WakeTime(c, t) == Now(c) + 1
    ensures Ticked(c, c', 1)
  {
    hide Ok, Homes, Times, Due, IsDelayed, WakeTime, Settled;
    NothingOverdue(c);
    forall t | t in c.prio && t in c.st.where && c'.st.where[t] == c.st.where[t] && IsDelayed(c, t)
      ensures IsDelayed(c', t) && WakeTime(c', t) == WakeTime(c, t)
    {
      SameWake(a, c', t);
    }
  }

  lemma NothingOverdue(c: C)
    requires Times(c) && Settled(c)
    ensures forall t :: IsDelayed(c, t) ==> WakeTime(c, t) > Now(c)
  {
    hide SortedBy, At;
  }

  lemma SameWake(c: C, c': C, t: CoRoutine)
    requires IsDelayed(c, t) && t in c'.st.where && c'.st.where[t] == c.st.where[t]
    requires c'.delayed == c.delayed && c'.overflow == c.overflow && c'.epoch == c.epoch && c'.wake == c.wake
    ensures IsDelayed(c', t) && WakeTime(c', t) == WakeTime(c, t)
  {
  }

  /** The outer loop of prvCheckDelayedList for `n` passed ticks. */
  function CatchUp(c: C, n: nat): C
    requires Inv(c) && Settled(c)
    decreases n
  {
    if n == 0 then c
    else
      TickExact(c);
      CatchUp(Tick(c), n - 1)
  }

  lemma TickedThenTicked(c: C, c1: C, c2: C, n: nat)
    requires Homes(c) && Homes(c1) && Times(c) && Times(c1) && Ticked(c, c1, 1) && Ticked(c1, c2, n)
    ensures Ticked(c, c2, n + 1)
  {
    hide SortedBy;
  }

  /** One scheduling call has the effect of the passed ticks one by one: it readies exactly the
      co-routines whose wake time has been reached, in unbounded time, across any wrap. */
  lemma {:induction false} CatchUpExact(c: C, n: nat)
    requires Inv(c) && Settled(c)
    ensures Inv(CatchUp(c, n)) && Settled(CatchUp(c, n)) && Ticked(c, CatchUp(c, n), n)
    decreases n
  {
    hide Ok, SortedBy, At, Tick, Ticked, Settled, Homes, Times;
    if n == 0 {
      NoTicks(c);
    } else {
      TickExact(c);
      CatchUpExact(Tick(c), n - 1);
      TickedThenTicked(c, Tick(c), CatchUp(c, n), n - 1);
    }
  }

  lemma NoTicks(c: C)
    requires Inv(c) && Settled(c)
    ensures Ticked(c, c, 0)
  {
    hide Ok, SortedBy, At;
    forall t | IsDelayed(c, t) ensures WakeTime(c, t) > Now(c) {
    }
  }

  // ---- vCoRoutineSchedule --------------------------------------------------------------------

  lemma PendingHead(c: C)
    requires Inv(c)
    ensures var items := At(c.ev, PendingReady).items;
            if items == [] then forall t :: t in c.ev.where ==> c.ev.where[t] != PendingReady
            else items[0] in c.ev.where && c.ev.where[items[0]] == PendingReady && items[0] in c.prio
                 && items[0] in c.st.where && !c.st.where[items[0]].Ready?
  {
    var items := At(c.ev, PendingReady).items;
    if items != [] {
      assert items[0] in items;
    }
  }

  /** prvCheckPendingReadyList */
  function DrainPending(c: C): C
    requires Inv(c)
    decreases |At(c.ev, PendingReady).items|
  {
    var items := At(c.ev, PendingReady).items;
    PendingHead(c);
    if items == [] then c
    else
      WakeKeeps(c, items[0]);
      DrainPending(Wake(c, items[0]))
  }

  /** Exactly the co-routines in the pending list became ready. */
  ghost predicate Drained(c: C, c': C) {
    && c' == c.(st := c'.st, ev := c'.ev, top := c'.top)
    && c'.st.where.Keys == c.st.where.Keys
    && (forall t :: t in c.prio && t in c.st.where ==>
          c'.st.where[t] == if Pending(c, t) then Ready(c.prio[t]) else c.st.where[t])
    && (forall t :: t in c'.ev.where <==> t in c.ev.where && !Pending(c, t))
    && (forall t :: t in c'.ev.where ==> c'.ev.where[t] == c.ev.where[t])
  }

  ghost predicate Pending(c: C, t: CoRoutine) {
    t in c.ev.where && c.ev.where[t] == PendingReady
  }

  lemma DrainedStep(c: C, c1: C, c2: C, t: CoRoutine)
    requires WokeOne(c, c1, t) && Pending(c, t) && t in c.st.where && Drained(c1, c2)
    ensures Drained(c, c2)
  {
    assert !Pending(c1, t) && forall x :: x != t ==> (Pending(c1, x) <==> Pending(c, x));
  }

  lemma {:induction false} DrainPendingEffect(c: C)
    requires Inv(c)
    ensures Inv(DrainPending(c)) && Drained(c, DrainPending(c)) && (Settled(c) ==> Settled(DrainPending(c)))
    decreases |At(c.ev, PendingReady).items|
  {
    hide Ok, SortedBy, Wake, Drained, WokeOne, At, Homes, Times;
    PendingHead(c);
    var items := At(c.ev, PendingReady).items;
    if items == [] {
      NonePending(c);
    } else {
      WakeKeeps(c, items[0]);
      if Settled(c) {
        WokeSettled(c, Wake(c, items[0]), items[0]);
      }
      DrainPendingEffect(Wake(c, items[0]));
      DrainedStep(c, Wake(c, items[0]), DrainPending(Wake(c, items[0])), items[0]);
    }
  }

  lemma NonePending(c: C)
    requires forall t :: t in c.ev.where ==> c.ev.where[t] != PendingReady
    ensures Drained(c, c)
  {
  }

  lemma WokeSettled(c: C, c': C, t: CoRoutine)
    requires Settled(c) && WokeOne(c, c', t) && Times(c)
    ensures Settled(c')
  {
    hide SortedBy;
  }

  /** The loop that finds the highest ready list that is not empty, from `p` down. */
  function ScanDown(st: Store, p: nat): nat {
    if p == 0 || At(st, Ready(p)).items != [] then p else ScanDown(st, p - 1)
  }

  lemma {:induction false} ScanFindsHighest(st: Store, p: nat)
    ensures var q := ScanDown(st, p);
            && q <= p && (forall r :: q < r <= p ==> At(st, Ready(r)).items == [])
            && (q > 0 ==> At(st, Ready(q)).items != [])
  {
    if p > 0 {
      ScanFindsHighest(st, p - 1);
    }
  }

  /** The state after the pending list and the passed ticks have been dealt with. `now` is the
      tick count of the kernel. */
  function Prepared(c: C, now: nat): C
    requires Inv(c) && Settled(c) && now < WRAP
  {
    DrainPendingEffect(c);
    var c1 := DrainPending(c);
    CatchUp(c1, Minus(now, c1.tick))
  }

  /** vCoRoutineSchedule, up to the call of the co-routine that it selects. */
  function Schedule(c: C, now: nat): (r: (C, bool))
    requires Inv(c) && Settled(c) && now < WRAP
  {
    PreparedKeeps(c, now);
    var c1 := Prepared(c, now);
    var p := ScanDown(c1.st, c1.top);
    var c2 := c1.(top := p);
    if At(c1.st, Ready(p)).items == [] then (c2, false)
    else
      assert Proper(c1.st, Ready(p));
      var ring := Rings.Advance(At(c1.st, Ready(p)));
      (c2.(st := c1.st.(lists := c1.st.lists[Ready(p) := ring]), current := Current(ring)), true)
  }

  lemma PreparedKeeps(c: C, now: nat)
    requires Inv(c) && Settled(c) && now < WRAP
    ensures Inv(Prepared(c, now)) && Settled(Prepared(c, now))
    ensures Ticked(DrainPending(c), Prepared(c, now), Minus(now, c.tick))
  {
    hide Ok, SortedBy, At, CatchUp, DrainPending, Settled, Homes, Ticked;
    DrainPendingEffect(c);
    CatchUpExact(DrainPending(c), Minus(now, c.tick));
  }

  lemma WalkedOk(st: Store, p: nat)
    requires Ok(st) && At(st, Ready(p)).items != []
    ensures At(st, Ready(p)).index <= |At(st, Ready(p)).items|
    ensures var ring := Rings.Advance(At(st, Ready(p))); var st' := st.(lists := st.lists[Ready(p) := ring]);
            && Ok(st') && st'.where == st.where && (forall m :: At(st', m).items == At(st, m).items)
            && Current(ring) in st.where && st.where[Current(ring)] == Ready(p)
  {
    assert Proper(st, Ready(p));
    var ring := Rings.Advance(At(st, Ready(p)));
    var st' := st.(lists := st.lists[Ready(p) := ring]);
    assert forall m :: At(st', m) == if m == Ready(p) then ring else At(st, m);
    forall m ensures Proper(st', m) { assert Proper(st, m); }
    assert Current(ring) in At(st, Ready(p)).items;
  }

  /** The next co-routine to run is a ready one of the highest ready priority, and there is none
      only if no co-routine is ready; the scheduler then stands at the kernel's tick count. */
  lemma ScheduleRunsHighest(c: C, now: nat)
    requires Inv(c) && Settled(c) && now < WRAP
    ensures var (c', runs) := Schedule(c, now); var c1 := Prepared(c, now);
            && Inv(c') && Settled(c') && c'.tick == now && c'.st.where == c1.st.where
            && (runs <==> exists t :: t in c1.prio && t in c1.st.where && c1.st.where[t].Ready?)
            && (runs ==> && c'.current in c1.prio && c'.current in c1.st.where
                         && c1.st.where[c'.current] == Ready(c1.prio[c'.current])
                         && forall t :: t in c1.prio && t in c1.st.where && c1.st.where[t].Ready? ==>
                              c1.prio[t] <= c1.prio[c'.current])
  {
    hide Ok, CatchUp, DrainPending, Prepared, Ticked, Homes, Times, Settled, ScanDown;
    PreparedKeeps(c, now);
    PreparedTime(c, now);
    var c1 := Prepared(c, now);
    ScanFindsHighest(c1.st, c1.top);
    var p := ScanDown(c1.st, c1.top);
    ReadyBelow(c1, p);
    if At(c1.st, Ready(p)).items != [] {
      WalkedOk(c1.st, p);
      SelectedInv(c1, Schedule(c, now).0, p);
      assert c1.st.where[Schedule(c, now).0.current].Ready?;
    } else {
      TopLowered(c1, p);
    }
  }

  lemma PreparedTime(c: C, now: nat)
    requires Inv(c) && Settled(c) && now < WRAP
    ensures Prepared(c, now).tick == now
  {
    PreparedKeeps(c, now);
    DrainPendingEffect(c);
    hide Ok, SortedBy, At, CatchUp, DrainPending, Prepared;
    var c1 := Prepared(c, now);
    assert c1.tick < WRAP && c.tick < WRAP;
    SameTick(c.epoch, c.tick, c1.epoch, c1.tick, now);
  }

  lemma SameTick(e: nat, t: nat, e1: nat, t1: nat, now: nat)
    requires t < WRAP && t1 < WRAP && now < WRAP && Time(e1, t1) == Time(e, t) + Minus(now, t)
    ensures t1 == now
  {
    assert e1 == e || e1 == e + 1;
  }

  /** All ready co-routines are at or below the list found, and at it if that is empty there are none. */
  lemma ReadyBelow(c: C, p: nat)
    requires Inv(c) && p <= c.top && (forall r :: p < r <= c.top ==> At(c.st, Ready(r)).items == [])
    requires p > 0 ==> At(c.st, Ready(p)).items != []
    ensures forall t :: t in c.prio && c.st.where[t].Ready? ==> c.prio[t] <= p
    ensures At(c.st, Ready(p)).items == [] ==> forall t :: t in c.prio ==> !c.st.where[t].Ready?
    ensures forall t :: t in c.st.where && c.st.where[t] == Ready(p) ==> t in c.prio && c.prio[t] == p
  {
    forall t | t in c.prio && c.st.where[t].Ready? ensures c.prio[t] <= p && At(c.st, Ready(p)).items != [] {
      assert t in At(c.st, Ready(c.prio[t])).items;
    }
  }

  lemma SelectedInv(c: C, c': C, p: nat)
    requires Inv(c) && Settled(c) && Ok(c'.st) && c'.st.where == c.st.where
    requires forall m :: At(c'.st, m).items == At(c.st, m).items
    requires c' == c.(st := c'.st, top := p, current := c'.current) && c'.current in c.prio
    requires p <= c.top && forall t :: t in c.prio && c.st.where[t].Ready? ==> c.prio[t] <= p
    ensures Inv(c') && Settled(c')
  {
    hide Ok, SortedBy, At;
  }

  lemma TopLowered(c: C, p: nat)
    requires Inv(c) && Settled(c) && p <= c.top && forall t :: t in c.prio && c.st.where[t].Ready? ==> c.prio[t] <= p
    ensures Inv(c.(top := p)) && Settled(c.(top := p))
  {
    hide Ok, SortedBy, At;
  }

  // ---- The other functions -------------------------------------------------------------------

  /** vCoRoutineAddToDelayedList of the running co-routine, for at least one tick and an event
      if one is given. */
  function AddToDelayed(c: C, ticks: nat, event: Option<nat>): C
    requires Inv(c) && c.current in c.prio && c.st.where[c.current] == Ready(c.prio[c.current])
    requires 1 <= ticks <= MAX_DELAY
  {
    var t := c.current;
    var w := Plus(c.tick, ticks);
    var wake := c.wake[t := w];
    var l := if w < c.tick then c.overflow else c.delayed;
    OthersSorted(c, t, w);
    var st := RelocateSorted(c.st, t, l, wake);
    c.(st := st, wake := wake, ev := if event.None? then c.ev else EventAdded(c, t, event.value))
  }

  function EventAdded(c: C, t: CoRoutine, q: nat): Store
    requires Inv(c) && t in c.prio && c.st.where[t].Ready?
  {
    assert forall x :: x in At(c.ev, Event(q)).items ==> x in c.ev.where;
    PutSorted(c.ev, Event(q), t, c.rank)
  }

  lemma OthersSorted(c: C, t: CoRoutine, w: nat)
    requires Inv(c) && t in c.prio && c.st.where[t].Ready?
    ensures SortedBy(At(c.st, c.delayed).items, c.wake[t := w]) && SortedBy(At(c.st, c.overflow).items, c.wake[t := w])
    ensures c.st.where[t] != c.delayed && c.st.where[t] != c.overflow && c.tick < WRAP
  {
    assert t !in At(c.st, c.delayed).items && t !in At(c.st, c.overflow).items;
  }

  /** A delayed co-routine is due exactly the given number of ticks later, and waits for the event if one is
      given; no other co-routine moves. */
  lemma AddToDelayedKeeps(c: C, ticks: nat, event: Option<nat>)
    requires Inv(c) && Settled(c) && c.current in c.prio && c.st.where[c.current] == Ready(c.prio[c.current])
    requires 1 <= ticks <= MAX_DELAY
    ensures c.tick < WRAP
    ensures var c' := AddToDelayed(c, ticks, event);
            && Inv(c') && Settled(c') && IsDelayed(c', c.current) && WakeTime(c', c.current) == Now(c) + ticks
            && c' == c.(st := c'.st, wake := c.wake[c.current := Plus(c.tick, ticks)], ev := c'.ev)
            && c'.st.where == c.st.where[c.current := if c.tick + ticks < WRAP then c.delayed else c.overflow]
            && (event.Some? ==> c'.ev.where == c.ev.where[c.current := Event(event.value)])
            && (event.None? ==> c'.ev == c.ev)
  {
    hide Ok, SortedBy, At, RelocateSorted, EventAdded, PutSorted, Take, Homes, Times, Settled, IsDelayed;
    InLists(c, c.current);
    var t, w := c.current, Plus(c.tick, ticks);
    OthersSorted(c, t, w);
    var c' := AddToDelayed(c, ticks, event);
    EventAddedOk(c, t, event);
    var l := if w < c.tick then c.overflow else c.delayed;
    DelayedTimes(c, c', t, w);
    DelayedHomes(c, c', t, l);
    DelayedSettled(c, c', t, ticks);
  }

  lemma DelayedHomes(c: C, c': C, t: CoRoutine, l: ListId)
    requires Homes(c) && t in c.prio && (l == c.delayed || l == c.overflow) && Times(c)
    requires c' == c.(st := c'.st, wake := c'.wake, ev := c'.ev) && c'.st.where == c.st.where[t := l]
    requires c'.ev.where == c.ev.where || exists q :: c'.ev.where == c.ev.where[t := Event(q)]
    ensures Homes(c')
  {
    hide SortedBy;
  }

  lemma DelayedSettled(c: C, c': C, t: CoRoutine, ticks: nat)
    requires Settled(c) && Times(c) && 1 <= ticks <= MAX_DELAY
    requires c' == c.(st := c'.st, wake := c.wake[t := Plus(c.tick, ticks)], ev := c'.ev)
    requires c'.st.where == c.st.where[t := if Plus(c.tick, ticks) < c.tick then c.overflow else c.delayed]
    ensures Settled(c') && IsDelayed(c', t) && WakeTime(c', t) == Now(c) + ticks
  {
    hide SortedBy;
  }

  lemma EventAddedOk(c: C, t: CoRoutine, event: Option<nat>)
    requires Inv(c) && t in c.prio && c.st.where[t].Ready?
    ensures event.Some? ==>
              && Ok(EventAdded(c, t, event.value))
              && EventAdded(c, t, event.value).where == c.ev.where[t := Event(event.value)]
  {
    hide SortedBy, Times;
  }

  lemma DelayedTimes(c: C, c': C, t: CoRoutine, w: nat)
    requires Inv(c) && t in c.prio && c.st.where[t] == Ready(c.prio[t]) && w < WRAP
    requires c' == c.(st := c'.st, wake := c.wake[t := w], ev := c'.ev)
    requires var l := if w < c.tick then c.overflow else c.delayed;
             Moved(c.st, c'.st, t, l) && SortedBy(At(c'.st, l).items, c'.wake)
    ensures Times(c')
  {
    hide Ok, SortedBy, Take, Homes, At;
    OthersSorted(c, t, w);
  }

  /** xCoRoutineRemoveFromEventList: the head of an event list goes to the pending list, and the
      flag says whether it is not below the current co-routine. */
  function EventOccurs(c: C, q: nat): (r: (C, bool))
    requires Inv(c) && At(c.ev, Event(q)).items != []
  {
    var t := At(c.ev, Event(q)).items[0];
    assert t in At(c.ev, Event(q)).items;
    (c.(ev := Relocate(c.ev, t, PendingReady)), c.prio[t] >= c.prio[c.current])
  }

  lemma EventOccursKeeps(c: C, q: nat)
    requires Inv(c) && Settled(c) && At(c.ev, Event(q)).items != []
    ensures Inv(EventOccurs(c, q).0) && Settled(EventOccurs(c, q).0)
  {
    assert At(c.ev, Event(q)).items[0] in At(c.ev, Event(q)).items;
    hide SortedBy, At, Times;
    EventsOnly(c, EventOccurs(c, q).0);
  }

  lemma EventsOnly(c: C, c': C)
    requires Times(c) && Settled(c) && c' == c.(ev := c'.ev)
    ensures Times(c') && Settled(c')
  {
  }

  /** xCoRoutineCreate: the new co-routine is ready, and current if it is the first. */
  function Create(c: C, t: CoRoutine, priority: nat): C
    requires Inv(c) && t !in c.prio
  {
    var p := if priority >= MAX_CO_ROUTINE_PRIORITIES then MAX_CO_ROUTINE_PRIORITIES - 1 else priority;
    c.(st := PutEnd(c.st, Ready(p), t), prio := c.prio[t := p], rank := c.rank[t := MAX_CO_ROUTINE_PRIORITIES - p],
       top := if p > c.top then p else c.top, current := if c.prio == map[] then t else c.current)
  }

  lemma CreateKeeps(c: C, t: CoRoutine, priority: nat)
    requires Inv(c) && Settled(c) && t !in c.prio
    ensures Inv(Create(c, t, priority)) && Settled(Create(c, t, priority))
  {
    hide Ok, SortedBy, At, PutEnd, Homes, Times, Settled;
    var c' := Create(c, t, priority);
    var p := if priority >= MAX_CO_ROUTINE_PRIORITIES then MAX_CO_ROUTINE_PRIORITIES - 1 else priority;
    assert t !in c.st.where by { NotInLists(c, t); }
    CreatedHomes(c, c', t, p);
    CreatedTimes(c, c', t, p);
  }

  lemma NotInLists(c: C, t: CoRoutine)
    requires Homes(c) && t !in c.prio
    ensures t !in c.st.where
  {
  }

  lemma CreatedHomes(c: C, c': C, t: CoRoutine, p: nat)
    requires Homes(c) && t !in c.prio && p < MAX_CO_ROUTINE_PRIORITIES
    requires c'.st.where == c.st.where[t := Ready(p)] && c'.prio == c.prio[t := p]
    requires c'.rank == c.rank[t := MAX_CO_ROUTINE_PRIORITIES - p]
    requires c'.top == (if p > c.top then p else c.top) && c'.ev == c.ev && c'.delayed == c.delayed
    requires c'.overflow == c.overflow
    requires c'.current == if c.prio == map[] then t else c.current
    ensures Homes(c')
  {
  }

  lemma CreatedTimes(c: C, c': C, t: CoRoutine, p: nat)
    requires Times(c) && Settled(c) && t !in c.st.where && c'.st.where == c.st.where[t := Ready(p)]
    requires forall l :: l != Ready(p) ==> At(c'.st, l) == At(c.st, l)
    requires c'.tick == c.tick && c'.delayed == c.delayed && c'.overflow == c.overflow && c'.wake == c.wake
    ensures Times(c') && Settled(c')
  {
    hide SortedBy, At;
  }

  // ---- Runs ----------------------------------------------------------------------------------

  datatype Call =
    | DoCreate(t: CoRoutine, priority: nat)
    | DoDelay(ticks: nat, event: Option<nat>)
    | DoEvent(q: nat)
    | DoSchedule(now: nat)

  /** A running co-routine delays itself for at least one tick. */
  ghost predicate Allowed(c: C, call: Call)
    requires Homes(c)
  {
    match call
    case DoCreate(t, _) => t !in c.prio
    case DoDelay(ticks, _) =>
      c.current in c.prio && c.st.where[c.current] == Ready(c.prio[c.current]) && 1 <= ticks <= MAX_DELAY
    case DoEvent(q) => At(c.ev, Event(q)).items != []
    case DoSchedule(now) => now < WRAP
  }

  function Step(c: C, call: Call): C
    requires Inv(c) && Settled(c) && Allowed(c, call)
  {
    match call
    case DoCreate(t, p) => Create(c, t, p)
    case DoDelay(ticks, event) => AddToDelayed(c, ticks, event)
    case DoEvent(q) => EventOccurs(c, q).0
    case DoSchedule(now) => Schedule(c, now).0
  }

  lemma StepKeeps(c: C, call: Call)
    requires Inv(c) && Settled(c) && Allowed(c, call)
    ensures Inv(Step(c, call)) && Settled(Step(c, call))
  {
    hide Ok, Times, SortedBy, Settled, Create, AddToDelayed, EventOccurs, Schedule;
    match call
    case DoCreate(t, p) => CreateKeeps(c, t, p);
    case DoDelay(ticks, event) => AddToDelayedKeeps(c, ticks, event);
    case DoEvent(q) => EventOccursKeeps(c, q);
    case DoSchedule(now) => ScheduleRunsHighest(c, now);
  }

  ghost predicate ValidRun(c: C, calls: seq<Call>)
    requires Inv(c) && Settled(c)
    decreases |calls|
  {
    calls == [] || (Allowed(c, calls[0]) && (StepKeeps(c, calls[0]); ValidRun(Step(c, calls[0]), calls[1..])))
  }

  ghost function Run(c: C, calls: seq<Call>): (c': C)
    requires Inv(c) && Settled(c) && ValidRun(c, calls)
    ensures Inv(c') && Settled(c')
    decreases |calls|
  {
    if calls == [] then c else (StepKeeps(c, calls[0]); Run(Step(c, calls[0]), calls[1..]))
  }

  /** Whatever calls came before, a scheduling call at tick count `now` readies exactly the
      co-routines that are pending or whose wake time falls within the passed ticks. */
  lemma SchedulingIsExact(calls: seq<Call>, now: nat)
    requires (InitialInv(); ValidRun(Initial(), calls)) && now < WRAP
    ensures var d := (InitialInv(); Run(Initial(), calls));
            && d.tick < WRAP && Drained(d, DrainPending(d))
            && Ticked(DrainPending(d), Prepared(d, now), Minus(now, d.tick))
            && Schedule(d, now).0.st.where == Prepared(d, now).st.where
  {
    hide Run, Schedule, DrainPending, Prepared, Ticked, Drained, Ok, SortedBy, Homes;
    InitialInv();
    var d := Run(Initial(), calls);
    DrainPendingEffect(d);
    PreparedKeeps(d, now);
    ScheduleRunsHighest(d, now);
  }

  /** No co-routine has been created yet. */
  function Initial(): C {
    C(Store(map[], map[]), Store(map[], map[]), map[], map[], map[], 0, 0, 0, DelayedA, DelayedB, 0)
  }

  lemma InitialInv()
    ensures Inv(Initial()) && Settled(Initial())
  {
    var c := Initial();
    forall l ensures Proper(c.st, l) && Proper(c.ev, l) {}
  }

  // ---- Event lists -----------------------------------------------------------------------------

  /** Event lists are in order of priority. */
  ghost predicate Ranked(c: C) {
    && (forall t :: t in c.prio ==> t in c.rank && c.rank[t] + c.prio[t] == MAX_CO_ROUTINE_PRIORITIES)
    && EventsSorted(c.ev, c.rank)
  }

  ghost predicate EventsSorted(ev: Store, rank: map<CoRoutine, nat>) {
    forall q :: EventSorted(ev, rank, q)
  }

  ghost predicate EventSorted(ev: Store, rank: map<CoRoutine, nat>, q: nat) {
    SortedBy(At(ev, Event(q)).items, rank)
  }

  lemma TakenSorted(ev: Store, rank: map<CoRoutine, nat>, t: CoRoutine)
    requires Ok(ev) && t in ev.where && EventsSorted(ev, rank)
    ensures EventsSorted(Take(ev, t), rank) && EventsSorted(Relocate(ev, t, PendingReady), rank)
  {
    hide Ok, At, SortedBy, Take, Relocate;
    forall q ensures EventSorted(Take(ev, t), rank, q) && EventSorted(Relocate(ev, t, PendingReady), rank, q) {
      assert EventSorted(ev, rank, q);
      TakeKeepsSorted(ev, t, rank, Event(q));
      assert Moved(ev, Relocate(ev, t, PendingReady), t, PendingReady);
    }
  }

  lemma WakeRanked(c: C, t: CoRoutine)
    requires Inv(c) && t in c.prio && Ranked(c)
    ensures Ranked(Wake(c, t))
  {
    hide Ok, At, SortedBy, Take, Relocate, EventsSorted, Times;
    if t in c.ev.where {
      TakenSorted(c.ev, c.rank, t);
    }
  }

  lemma {:induction false} WakeDueRanked(c: C)
    requires Inv(c) && Ranked(c)
    ensures Ranked(WakeDue(c))
    decreases |At(c.st, c.delayed).items|
  {
    hide Ok, Homes, Times, Ranked, Wake, At;
    var items := At(c.st, c.delayed).items;
    DelayedHead(c);
    if items != [] && c.wake[items[0]] <= c.tick {
      WakeKeeps(c, items[0]);
      WakeRanked(c, items[0]);
      WakeDueRanked(Wake(c, items[0]));
    }
  }

  lemma {:induction false} DrainPendingRanked(c: C)
    requires Inv(c) && Ranked(c)
    ensures Ranked(DrainPending(c))
    decreases |At(c.ev, PendingReady).items|
  {
    hide Ok, Homes, Times, Ranked, Wake, At;
    PendingHead(c);
    var items := At(c.ev, PendingReady).items;
    if items != [] {
      WakeKeeps(c, items[0]);
      WakeRanked(c, items[0]);
      DrainPendingRanked(Wake(c, items[0]));
    }
  }

  lemma {:induction false} CatchUpRanked(c: C, n: nat)
    requires Inv(c) && Settled(c) && Ranked(c)
    ensures Ranked(CatchUp(c, n))
    decreases n
  {
    hide Inv, Settled, WakeDue, EventsSorted, Ticked;
    if n > 0 {
      AdvanceKeeps(c);
      WakeDueRanked(Advance(c));
      TickExact(c);
      CatchUpRanked(Tick(c), n - 1);
    }
  }

  lemma ScheduleRanked(c: C, now: nat)
    requires Inv(c) && Settled(c) && now < WRAP && Ranked(c)
    ensures Ranked(Schedule(c, now).0)
  {
    hide Inv, Settled, CatchUp, DrainPending, EventsSorted, Drained, Ticked, At;
    DrainPendingEffect(c);
    DrainPendingRanked(c);
    DrainedTick(c);
    CatchUpRanked(DrainPending(c), Minus(now, DrainPending(c).tick));
    PreparedKeeps(c, now);
    SelectedRanked(c, now);
  }

  lemma DrainedTick(c: C)
    requires Inv(c)
    ensures DrainPending(c).tick == c.tick < WRAP
  {
    DrainPendingEffect(c);
    hide Ok, SortedBy, DrainPending;
  }

  lemma SelectedRanked(c: C, now: nat)
    requires Inv(c) && Settled(c) && now < WRAP
    ensures var c1, c2 := Prepared(c, now), Schedule(c, now).0;
            c2.ev == c1.ev && c2.rank == c1.rank && c2.prio == c1.prio
  {
    hide Inv, Settled, Prepared, Ticked, ScanDown;
    PreparedKeeps(c, now);
  }

  lemma DelayRanked(c: C, ticks: nat, event: Option<nat>)
    requires Inv(c) && c.current in c.prio && c.st.where[c.current] == Ready(c.prio[c.current])
    requires 1 <= ticks <= MAX_DELAY
    requires Ranked(c)
    ensures Ranked(AddToDelayed(c, ticks, event))
  {
    hide Ok, Homes, Times, RelocateSorted, EventAdded, EventsSorted, At;
    if event.Some? {
      EventAddedAll(c, c.current, event.value);
    }
  }

  lemma EventAddedAll(c: C, t: CoRoutine, q: nat)
    requires Inv(c) && Ranked(c) && t in c.prio && c.st.where[t].Ready?
    ensures EventsSorted(EventAdded(c, t, q), c.rank)
  {
    hide Inv, EventAdded, SortedBy, At;
    EventAddedSorted(c, t, q);
    forall r ensures EventSorted(EventAdded(c, t, q), c.rank, r) {
      assert EventSorted(c.ev, c.rank, r);
    }
  }

  lemma EventAddedSorted(c: C, t: CoRoutine, q: nat)
    requires Inv(c) && Ranked(c) && t in c.prio && c.st.where[t].Ready?
    ensures EventSorted(EventAdded(c, t, q), c.rank, q)
    ensures forall m :: m != Event(q) ==> At(EventAdded(c, t, q), m) == At(c.ev, m)
  {
    assert forall x :: x in At(c.ev, Event(q)).items ==> x in c.ev.where;
    assert EventSorted(c.ev, c.rank, q);
    hide SortedBy, Ok, Times, At;
  }

  lemma CreateRanked(c: C, t: CoRoutine, priority: nat)
    requires Inv(c) && t !in c.prio && Ranked(c)
    ensures Ranked(Create(c, t, priority))
  {
    hide Ok, Times, PutEnd, EventsSorted, At;
    OtherRank(c.ev, c.rank, t, Create(c, t, priority).rank[t]);
  }

  lemma OtherRank(ev: Store, rank: map<CoRoutine, nat>, t: CoRoutine, v: nat)
    requires Ok(ev) && t !in ev.where && EventsSorted(ev, rank)
    ensures EventsSorted(ev, rank[t := v])
  {
    var rank' := rank[t := v];
    forall q ensures EventSorted(ev, rank', q) {
      assert EventSorted(ev, rank, q);
      assert forall x :: x in At(ev, Event(q)).items ==> x in ev.where && x != t;
    }
  }

  lemma EventRanked(c: C, q: nat)
    requires Inv(c) && At(c.ev, Event(q)).items != [] && Ranked(c)
    ensures Ranked(EventOccurs(c, q).0)
  {
    var t := At(c.ev, Event(q)).items[0];
    assert t in At(c.ev, Event(q)).items;
    TakenSorted(c.ev, c.rank, t);
  }

  lemma StepRanked(c: C, call: Call)
    requires Inv(c) && Settled(c) && Allowed(c, call) && Ranked(c)
    ensures Ranked(Step(c, call))
  {
    hide Ok, Times, SortedBy, Settled, Create, AddToDelayed, EventOccurs, Schedule, Ranked;
    match call
    case DoCreate(t, p) => CreateRanked(c, t, p);
    case DoDelay(ticks, event) => DelayRanked(c, ticks, event);
    case DoEvent(q) => EventRanked(c, q);
    case DoSchedule(now) => ScheduleRanked(c, now);
  }

  lemma {:induction false} RunRanked(c: C, calls: seq<Call>)
    requires Inv(c) && Settled(c) && ValidRun(c, calls) && Ranked(c)
    ensures Ranked(Run(c, calls))
    decreases |calls|
  {
    hide Inv, Settled, Ranked, Step;
    if calls != [] {
      StepKeeps(c, calls[0]);
      StepRanked(c, calls[0]);
      RunRanked(Step(c, calls[0]), calls[1..]);
    }
  }

  /** Whatever calls came before, an event moves the first of the waiting co-routines of highest
      priority to the pending list and nothing else, and says whether it is not below the current
      one; the next scheduling call, whenever it comes, makes it ready. */
  lemma EventReadiesHighest(calls: seq<Call>, q: nat, now: nat)
    requires (InitialInv(); ValidRun(Initial(), calls)) && now < WRAP
    requires (InitialInv(); At(Run(Initial(), calls).ev, Event(q)).items != [])
    ensures var d := (InitialInv(); Run(Initial(), calls)); var (d', above) := EventOccurs(d, q);
            var t := At(d.ev, Event(q)).items[0];
            && t in d.prio && d.current in d.prio && (above <==> d.prio[t] >= d.prio[d.current])
            && (forall x :: x in d.ev.where && d.ev.where[x] == Event(q) ==> x in d.prio && d.prio[x] <= d.prio[t])
            && d' == d.(ev := d'.ev) && d'.ev.where == d.ev.where[t := PendingReady]
            && Inv(d') && Settled(d')
            && t in Schedule(d', now).0.st.where && Schedule(d', now).0.st.where[t] == Ready(d.prio[t])
  {
    InitialInv();
    RunRanked(Initial(), calls) by { InitialRanked(); }
    var d := Run(Initial(), calls);
    hide Run, ValidRun;
    EventOccursKeeps(d, q);
    HeadHighest(d, q);
    PendingBecomesReady(EventOccurs(d, q).0, At(d.ev, Event(q)).items[0], now);
  }

  lemma InitialRanked()
    ensures Ranked(Initial())
  {
    var c := Initial();
    assert forall q :: EventSorted(c.ev, c.rank, q);
  }

  lemma HeadHighest(c: C, q: nat)
    requires Inv(c) && Ranked(c) && At(c.ev, Event(q)).items != []
    ensures var (c', above) := EventOccurs(c, q); var t := At(c.ev, Event(q)).items[0];
            && t in c.prio && c.current in c.prio && (above <==> c.prio[t] >= c.prio[c.current])
            && (forall x :: x in c.ev.where && c.ev.where[x] == Event(q) ==> x in c.prio && c.prio[x] <= c.prio[t])
            && c' == c.(ev := c'.ev) && c'.ev.where == c.ev.where[t := PendingReady]
  {
    var items := At(c.ev, Event(q)).items;
    assert items[0] in items;
    assert EventSorted(c.ev, c.rank, q);
    forall x | x in c.ev.where && c.ev.where[x] == Event(q) ensures x in c.prio && c.prio[x] <= c.prio[items[0]] {
      assert x in items;
      var i := IndexOf(items, x);
    }
  }

  lemma PendingBecomesReady(c: C, t: CoRoutine, now: nat)
    requires Inv(c) && Settled(c) && now < WRAP && t in c.prio && t in c.ev.where && c.ev.where[t] == PendingReady
    ensures var c' := Schedule(c, now).0; t in c'.st.where && c'.st.where[t] == Ready(c.prio[t])
  {
    hide Schedule, DrainPending, Prepared, Ok, SortedBy, At;
    DrainPendingEffect(c);
    DrainedTick(c);
    PreparedKeeps(c, now);
    ScheduleRunsHighest(c, now);
    assert Pending(c, t);
  }
}
