/** The kernel calls of tasks.c as steps on the scheduler state. A step is what the
    source does inside one critical section or with the scheduler suspended. */
module Kernel {
  import opened Rings
  import opened TaskLists
  import opened Scheduler

  /** xNextTaskUnblockTime is not below the tick count and not above any wake time in
      the current delayed list, and nothing in that list is due. */
  ghost predicate Settled(k: K) {
    && (forall t :: t in k.st.where && k.st.where[t] == k.delayed ==>
          t in k.wake && k.tick < k.wake[t] && k.next <= k.wake[t])
    && k.tick <= k.next < WRAP
    && (k.next == k.tick ==> k.tick == MAX_DELAY)
    && (k.suspended == 0 ==> NoPending(k))
  }

  ghost predicate NoPending(k: K) {
    forall t :: t in k.ev.where ==> k.ev.where[t] != PendingReady
  }

  // ---- xTaskIncrementTick ------------------------------------------------------------

  /** prvResetNextTaskUnblockTime */
  function ResetNext(k: K): (k': K)
    requires Ok(k.st) && Times(k)
    ensures k' == k.(next := k'.next)
    ensures forall t :: t in k.st.where && k.st.where[t] == k.delayed ==> k'.next <= k.wake[t]
    ensures k.tick <= k'.next < WRAP
    ensures k'.next == MAX_DELAY || exists t :: t in k.st.where && k.st.where[t] == k.delayed && k'.next == k.wake[t]
  {
    var items := At(k.st, k.delayed).items;
    HeadIsEarliest(k);
    if items == [] then k.(next := MAX_DELAY) else k.(next := k.wake[items[0]])
  }

  lemma HeadIsEarliest(k: K)
    requires Ok(k.st) && Times(k)
    ensures var items := At(k.st, k.delayed).items;
            && (items != [] ==> items[0] in k.st.where && k.st.where[items[0]] == k.delayed)
            && (forall t :: t in k.st.where && k.st.where[t] == k.delayed ==>
                  items != [] && items[0] in k.wake && k.wake[items[0]] <= k.wake[t])
  {
    var items := At(k.st, k.delayed).items;
    if items != [] {
      assert items[0] in items;
    }
    forall t | t in k.st.where && k.st.where[t] == k.delayed
      ensures items != [] && items[0] in k.wake && k.wake[items[0]] <= k.wake[t]
    {
      assert t in items;
      var i := IndexOf(items, t);
    }
  }

  /** The tick count goes up by one; when it wraps the delayed lists change places. */
  function AdvanceTick(k: K): (k': K)
    requires Ok(k.st) && Times(k) && Settled(k)
    ensures k' == k.(tick := k'.tick, epoch := k'.epoch, next := k'.next, delayed := k'.delayed,
                     overflow := k'.overflow)
    ensures Times(k') && k'.next < WRAP
    ensures forall t :: t in k'.st.where && k'.st.where[t] == k'.delayed ==> k'.next <= k'.wake[t]
    ensures Now(k') == Now(k) + 1
    ensures forall t :: IsDelayed(k, t) ==> IsDelayed(k', t) && WakeTime(k', t) == WakeTime(k, t)
  {
    AdvancedOk(k);
    Advanced(k)
  }

  function Advanced(k: K): K
    requires Ok(k.st) && Times(k) && Settled(k)
  {
    if k.tick + 1 < WRAP then k.(tick := k.tick + 1)
    else
      SwitchedTimes(k);
      ResetNext(Switched(k))
  }

  lemma AdvancedOk(k: K)
    requires Ok(k.st) && Times(k) && Settled(k)
    ensures var k' := Advanced(k);
            && k' == k.(tick := k'.tick, epoch := k'.epoch, next := k'.next, delayed := k'.delayed,
                        overflow := k'.overflow)
            && Times(k') && k'.next < WRAP && Now(k') == Now(k) + 1
            && (forall t :: t in k'.st.where && k'.st.where[t] == k'.delayed ==> k'.next <= k'.wake[t])
            && (forall t :: IsDelayed(k, t) ==> IsDelayed(k', t) && WakeTime(k', t) == WakeTime(k, t))
  {
    hide Ok, SortedBy, At, ResetNext;
    if k.tick + 1 < WRAP {
      NextTick(k);
    } else {
      SwitchedTimes(k);
      hide Times;
      ResetTimes(Switched(k), Advanced(k));
    }
  }

  lemma ResetTimes(k: K, k': K)
    requires Times(k) && k' == k.(next := k'.next)
    ensures Times(k') && Now(k') == Now(k)
    ensures forall t :: IsDelayed(k, t) ==> IsDelayed(k', t) && WakeTime(k', t) == WakeTime(k, t)
  {
    hide SortedBy, At;
  }

  /** taskSWITCH_DELAYED_LISTS, up to the reset of the next unblock time. */
  function Switched(k: K): K {
    k.(tick := 0, delayed := k.overflow, overflow := k.delayed, epoch := k.epoch + 1)
  }

  lemma NextTick(k: K)
    requires Times(k) && Settled(k) && k.tick + 1 < WRAP
    ensures var k' := k.(tick := k.tick + 1);
            && Times(k') && Now(k') == Now(k) + 1
            && (forall t :: IsDelayed(k, t) ==> IsDelayed(k', t) && WakeTime(k', t) == WakeTime(k, t))
  {
    hide SortedBy, At;
  }

  lemma SwitchedTimes(k: K)
    requires Ok(k.st) && Times(k) && Settled(k) && k.tick == MAX_DELAY
    ensures var k' := Switched(k);
            && Times(k') && Now(k') == Now(k) + 1
            && (forall t :: IsDelayed(k, t) ==> IsDelayed(k', t) && WakeTime(k', t) == WakeTime(k, t))
  {
    hide Ok, SortedBy, At;
    assert forall t :: t in k.st.where ==> k.st.where[t] != k.delayed;
  }

  /** configASSERT in taskSWITCH_DELAYED_LISTS: the delayed list is empty at a switch. */
  lemma DelayedIsEmptyAtWrap(k: K)
    requires Ok(k.st) && Times(k) && Settled(k) && k.tick == MAX_DELAY
    ensures At(k.st, k.delayed).items == []
  {
    HeadIsEarliest(k);
  }

  ghost predicate IsDelayed(k: K, t: Task) {
    t in k.st.where && (k.st.where[t] == k.delayed || k.st.where[t] == k.overflow) && t in k.wake
  }

  /** Time in ticks since the start, without wrapping. */
  function Now(k: K): nat {
    k.epoch * WRAP + k.tick
  }

  /** The unbounded time at which a delayed task is due. */
  ghost function WakeTime(k: K, t: Task): nat
    requires IsDelayed(k, t)
  {
    (if k.st.where[t] == k.delayed then k.epoch else k.epoch + 1) * WRAP + k.wake[t]
  }

  ghost predicate Due(k: K, t: Task) {
    t in k.st.where && k.st.where[t] == k.delayed && t in k.wake && k.wake[t] <= k.tick
  }

  /** Take a blocked task off its event list and make it ready. */
  function Wake(k: K, t: Task): (k': K)
    requires Inv(k) && t in k.prio && Blocked(k.st.where[t])
    ensures Inv(k') && k' == k.(st := k'.st, ev := k'.ev, top := k'.top)
    ensures k'.st.where == k.st.where[t := Ready(k.prio[t])] && k'.ev.where == k.ev.where - {t}
    ensures |At(k'.st, k.st.where[t]).items| < |At(k.st, k.st.where[t]).items|
    ensures t in k.ev.where ==> |At(k'.ev, k.ev.where[t]).items| < |At(k.ev, k.ev.where[t]).items|
  {
    Unblock(DropEvent(k, t), t)
  }

  lemma WakeParts(k: K, t: Task)
    requires Inv(k) && t in k.prio && Blocked(k.st.where[t])
    ensures Wake(k, t) == k.(st := Relocate(k.st, t, Ready(k.prio[t])), top := k.top + {k.prio[t]},
                             ev := if t in k.ev.where then Take(k.ev, t) else k.ev)
  {
    hide Ok, Bits, Counts, Times, SortedBy, HomeOk, Take, Relocate;
  }

  /** The loop of xTaskIncrementTick: wake from the head of the delayed list while it
      is due. The flag says whether a woken task has at least the current priority. */
  function WakeExpired(k: K, sw: bool): (r: (K, bool))
    requires Inv(k)
    ensures Inv(r.0) && r.0 == k.(st := r.0.st, ev := r.0.ev, top := r.0.top, next := r.0.next)
    decreases |At(k.st, k.delayed).items|
  {
    var items := At(k.st, k.delayed).items;
    HeadIsEarliest(k);
    if items == [] then
      InvOfFlags(k, k.(next := MAX_DELAY));
      (k.(next := MAX_DELAY), sw)
    else
      var t := items[0];
      if k.tick < k.wake[t] then
        InvOfFlags(k, k.(next := k.wake[t]));
        (k.(next := k.wake[t]), sw)
      else WakeExpired(Wake(k, t), sw || k.prio[t] >= k.prio[k.current])
  }

  /** From `k` to `k'` exactly the due tasks became ready and left their event lists,
      and the next unblock time is at most the earliest remaining wake time. */
  ghost predicate Woken(k: K, k': K) {
    && k'.st.where.Keys == k.prio.Keys
    && (forall t :: t in k.prio && t in k.st.where ==>
          k'.st.where[t] == if Due(k, t) then Ready(k.prio[t]) else k.st.where[t])
    && (forall t :: t in k'.ev.where <==> t in k.ev.where && !Due(k, t))
    && (forall t :: t in k'.ev.where ==> k'.ev.where[t] == k.ev.where[t])
    && (forall t :: t in k'.st.where && k'.st.where[t] == k.delayed ==>
          t in k.wake && k.tick < k.wake[t] && k'.next <= k.wake[t])
    && k.tick <= k'.next < WRAP && (k'.next == k.tick ==> k.tick == MAX_DELAY)
  }

  ghost predicate DueAbove(k: K) {
    exists t :: t in k.prio && Due(k, t) && k.current in k.prio && k.prio[t] >= k.prio[k.current]
  }

  lemma WokenStep(k: K, k1: K, k2: K, t: Task)
    requires t in k.prio && Due(k, t) && k.st.where.Keys == k.prio.Keys && !k.delayed.Ready? && k.current in k.prio
    requires k1 == k.(st := k1.st, ev := k1.ev, top := k1.top)
    requires k1.st.where == k.st.where[t := Ready(k.prio[t])] && k1.ev.where == k.ev.where - {t}
    requires Woken(k1, k2)
    ensures Woken(k, k2)
    ensures DueAbove(k) <==> k.prio[t] >= k.prio[k.current] || DueAbove(k1)
  {
    assert !Due(k1, t) && forall x :: x != t ==> (Due(k1, x) <==> Due(k, x));
    hide Due;
    WokenWhere(k, k1, k2, t);
  }

  lemma WokenWhere(k: K, k1: K, k2: K, t: Task)
    requires t in k.prio && Due(k, t) && !Due(k1, t) && k.st.where.Keys == k.prio.Keys
    requires forall x :: x != t ==> (Due(k1, x) <==> Due(k, x))
    requires k1 == k.(st := k1.st, ev := k1.ev, top := k1.top)
    requires k1.st.where == k.st.where[t := Ready(k.prio[t])] && k1.ev.where == k.ev.where - {t}
    requires Woken(k1, k2)
    ensures Woken(k, k2)
  {
    hide Due;
  }

  lemma DelayedHead(k: K)
    requires Inv(k)
    ensures k.st.where.Keys == k.prio.Keys && !k.delayed.Ready? && k.current in k.prio
    ensures var items := At(k.st, k.delayed).items;
            items != [] ==> var t := items[0];
              t in k.prio && t in k.st.where && k.st.where[t] == k.delayed && Blocked(k.st.where[t]) && t in k.wake
  {
    hide Bits, Counts, HomeOk;
    HeadIsEarliest(k);
  }

  /** The loop wakes exactly the tasks that are due. */
  lemma {:induction false} WakeExpiredEffect(k: K, sw: bool)
    requires Inv(k)
    ensures Woken(k, WakeExpired(k, sw).0)
    ensures WakeExpired(k, sw).1 <==> sw || DueAbove(k)
    decreases |At(k.st, k.delayed).items|
  {
    hide Inv, Wake, Woken, DueAbove, At;
    var items := At(k.st, k.delayed).items;
    InvParts(k);
    DelayedHead(k);
    if items != [] && k.wake[items[0]] <= k.tick {
      var t := items[0];
      var sw1 := sw || k.prio[t] >= k.prio[k.current];
      WakeExpiredEffect(Wake(k, t), sw1);
      WokenStep(k, Wake(k, t), WakeExpired(Wake(k, t), sw1).0, t);
    } else {
      NothingDue(k, WakeExpired(k, sw).0);
    }
  }

  lemma NothingDue(k: K, k': K)
    requires Ok(k.st) && Times(k) && k.st.where.Keys == k.prio.Keys && k' == k.(next := k'.next)
    requires if At(k.st, k.delayed).items == [] then k'.next == MAX_DELAY
             else k.tick < k.wake[At(k.st, k.delayed).items[0]] && k'.next == k.wake[At(k.st, k.delayed).items[0]]
    ensures Woken(k, k') && !DueAbove(k)
  {
    HeadIsEarliest(k);
    assert forall t :: !Due(k, t);
  }

  /** The invariant says nothing about the request flags and counters. */
  lemma InvOfFlags(k: K, k1: K)
    requires Inv(k)
    requires k1 == k.(next := k1.next, suspended := k1.suspended, pended := k1.pended,
                      yieldPending := k1.yieldPending, request := k1.request)
    ensures Inv(k1)
  {
  }

  /** xTaskIncrementTick: with the scheduler suspended the tick is only counted. */
  function Tick(k: K): (r: (K, bool))
    requires Inv(k) && Settled(k)
    ensures Inv(r.0)
  {
    if k.suspended > 0 then
      InvOfFlags(k, k.(pended := k.pended + 1));
      (k.(pended := k.pended + 1), k.yieldPending)
    else
      var k1 := AdvanceTick(k);
      InvOfTimes(k, k1);
      var (k2, sw) := if k1.tick >= k1.next then WakeExpired(k1, false) else (k1, false);
      (k2, sw || |At(k2.st, Ready(k2.prio[k2.current])).items| > 1 || k2.yieldPending)
  }

  /** The tick interrupt pends a context switch when the kernel reports one. */
  function TickInterrupt(k: K): (k': K)
    requires Inv(k) && Settled(k)
    ensures Inv(k')
  {
    var (k1, sw) := Tick(k);
    k1.(request := k1.request || sw)
  }

  /** A tick wakes exactly the tasks whose unbounded wake time it reaches; every other
      delayed task stays delayed with the same wake time. */
  ghost predicate Ticked(k: K, k': K) {
    && k' == k.(st := k'.st, ev := k'.ev, top := k'.top, tick := k'.tick, epoch := k'.epoch, next := k'.next,
                delayed := k'.delayed, overflow := k'.overflow)
    && Now(k') == Now(k) + 1
    && k'.st.where.Keys == k.st.where.Keys
    && (forall t :: t in k.st.where && t in k.prio ==>
          if IsDelayed(k, t) && WakeTime(k, t) == Now(k')
          then k'.st.where[t] == Ready(k.prio[t])
          else && k'.st.where[t] == k.st.where[t]
               && (IsDelayed(k, t) ==> IsDelayed(k', t) && WakeTime(k', t) == WakeTime(k, t)))
    && (forall t :: t in k'.ev.where ==> t in k.ev.where && k'.ev.where[t] == k.ev.where[t])
  }

  /** After the tick count has advanced, being due in 32-bit terms is having reached
      the unbounded wake time. */
  lemma DueIsWakeTime(k: K, k1: K)
    requires Times(k) && Settled(k) && Times(k1) && k1.wake == k.wake && k1.st == k.st
    requires Now(k1) == Now(k) + 1
    requires forall t :: IsDelayed(k, t) ==> IsDelayed(k1, t) && WakeTime(k1, t) == WakeTime(k, t)
    ensures forall t :: Due(k1, t) <==> IsDelayed(k, t) && WakeTime(k, t) == Now(k1)
  {
  }

  lemma TickedByLoop(k: K, k1: K, k2: K)
    requires Homes(k) && Times(k) && Times(k1) && Times(k2)
    requires k1 == k.(tick := k1.tick, epoch := k1.epoch, next := k1.next, delayed := k1.delayed,
                      overflow := k1.overflow)
    requires Now(k1) == Now(k) + 1
    requires forall t :: IsDelayed(k, t) ==> IsDelayed(k1, t) && WakeTime(k1, t) == WakeTime(k, t)
    requires forall t :: Due(k1, t) <==> IsDelayed(k, t) && WakeTime(k, t) == Now(k1)
    requires k2 == k1.(st := k2.st, ev := k2.ev, top := k2.top, next := k2.next) && Woken(k1, k2)
    ensures Ticked(k, k2) && (NoPending(k) ==> Settled(k2))
  {
    hide Times, HomeOk, Settled, NoPending, Due, IsDelayed, WakeTime;
    assert NoPending(k) ==> NoPending(k1) by { SameEvents(k, k1); }
    LoopSettled(k1, k2);
    forall t | t in k.st.where && t in k.prio && k2.st.where[t] == k1.st.where[t] && IsDelayed(k, t)
      ensures IsDelayed(k2, t) && WakeTime(k2, t) == WakeTime(k, t)
    {
      SameWake(k1, k2, t);
    }
    forall t | Due(k1, t) ensures t in k.st.where {
      DueIsThere(k1, t);
    }
  }

  lemma SameEvents(k: K, k1: K)
    requires k1.ev == k.ev
    ensures NoPending(k) ==> NoPending(k1)
  {
  }

  lemma DueIsThere(k: K, t: Task)
    requires Due(k, t)
    ensures t in k.st.where
  {
  }

  lemma SameWake(k: K, k': K, t: Task)
    requires IsDelayed(k, t) && t in k'.st.where && k'.st.where[t] == k.st.where[t]
    requires k'.delayed == k.delayed && k'.overflow == k.overflow && k'.epoch == k.epoch && k'.wake == k.wake
    ensures IsDelayed(k', t) && WakeTime(k', t) == WakeTime(k, t)
  {
  }

  lemma LoopSettled(k1: K, k2: K)
    requires Times(k1) && k2 == k1.(st := k2.st, ev := k2.ev, top := k2.top, next := k2.next) && Woken(k1, k2)
    ensures NoPending(k1) ==> Settled(k2)
  {
    hide SortedBy, At, Due;
  }

  lemma TickedIdle(k: K, k1: K)
    requires Homes(k) && Settled(k) && Times(k1) && k1.tick < k1.next < WRAP
    requires k1 == k.(tick := k1.tick, epoch := k1.epoch, next := k1.next, delayed := k1.delayed,
                      overflow := k1.overflow)
    requires Now(k1) == Now(k) + 1
    requires forall t :: t in k1.st.where && k1.st.where[t] == k1.delayed ==> k1.next <= k1.wake[t]
    requires forall t :: IsDelayed(k, t) ==> IsDelayed(k1, t) && WakeTime(k1, t) == WakeTime(k, t)
    requires forall t :: Due(k1, t) <==> IsDelayed(k, t) && WakeTime(k, t) == Now(k1)
    ensures Ticked(k, k1) && Settled(k1)
  {
  }

  lemma InvOfTimes(k: K, k1: K)
    requires Inv(k) && Times(k1)
    requires k1.st == k.st && k1.ev == k.ev && k1.prio == k.prio && k1.rank == k.rank && k1.top == k.top
    requires k1.idle == k.idle && k1.current == k.current && k1.tasks == k.tasks && k1.deleted == k.deleted
    ensures Inv(k1)
  {
  }

  lemma TickExact(k: K)
    requires Inv(k) && Settled(k) && k.suspended == 0
    ensures Ticked(k, Tick(k).0) && Settled(Tick(k).0)
    ensures Tick(k).1 <==> k.yieldPending || |At(Tick(k).0.st, Ready(k.prio[k.current])).items| > 1
                           || exists t :: t in k.prio && IsDelayed(k, t) && WakeTime(k, t) == Now(k) + 1
                                          && k.prio[t] >= k.prio[k.current]
  {
    hide Ok, Bits, Counts, Times, HomeOk, AdvanceTick, WakeExpired, IsDelayed, WakeTime, Due, DueAbove, Woken, Ticked;
    var k1 := AdvanceTick(k);
    InvOfTimes(k, k1);
    DueIsWakeTime(k, k1);
    DueAboveIs(k, k1);
    if k1.tick >= k1.next {
      WakeExpiredEffect(k1, false);
      TickedByLoop(k, k1, WakeExpired(k1, false).0);
    } else {
      TickedIdle(k, k1);
      NoneAbove(k1);
    }
  }

  lemma DueAboveIs(k: K, k1: K)
    requires k1.prio == k.prio && k1.current == k.current && k.current in k.prio
    requires forall t :: Due(k1, t) <==> IsDelayed(k, t) && WakeTime(k, t) == Now(k1)
    ensures DueAbove(k1) <==>
              exists t :: t in k.prio && IsDelayed(k, t) && WakeTime(k, t) == Now(k1) && k.prio[t] >= k.prio[k.current]
  {
    hide Due, IsDelayed, WakeTime;
  }

  lemma NoneAbove(k: K)
    requires Times(k) && k.tick < k.next
    requires forall t :: t in k.st.where && k.st.where[t] == k.delayed ==> k.next <= k.wake[t]
    ensures !DueAbove(k)
  {
    hide SortedBy, At;
  }

  // ---- vTaskSuspendAll and xTaskResumeAll ------------------------------------------------

  function SuspendAll(k: K): (k': K)
    requires Inv(k) && Settled(k)
    ensures Inv(k') && Settled(k')
  {
    InvOfFlags(k, k.(suspended := k.suspended + 1));
    k.(suspended := k.suspended + 1)
  }

  /** One round of the first loop of xTaskResumeAll: a task readied while the scheduler
      was suspended moves to its ready list. */
  function DrainOne(k: K, t: Task): (k': K)
    requires Inv(k) && IsPending(k, t)
    ensures Inv(k') && k' == k.(st := k'.st, ev := k'.ev, top := k'.top, yieldPending := k'.yieldPending)
    ensures k'.st.where == k.st.where[t := Ready(k.prio[t])] && k'.ev.where == k.ev.where - {t}
    ensures k'.yieldPending <==> k.yieldPending || k.prio[t] >= k.prio[k.current]
    ensures |At(k'.ev, PendingReady).items| < |At(k.ev, PendingReady).items|
  {
    var k1 := Wake(k, t);
    var k2 := k1.(yieldPending := k1.yieldPending || k.prio[t] >= k.prio[k.current]);
    InvOfFlags(k1, k2);
    k2
  }

  function DrainPending(k: K): (k': K)
    requires Inv(k)
    ensures Inv(k') && k' == k.(st := k'.st, ev := k'.ev, top := k'.top, yieldPending := k'.yieldPending)
    decreases |At(k.ev, PendingReady).items|
  {
    var items := At(k.ev, PendingReady).items;
    PendingHead(k.ev);
    if items == [] then k else DrainPending(DrainOne(k, items[0]))
  }

  lemma PendingHead(ev: Store)
    requires Ok(ev)
    ensures var items := At(ev, PendingReady).items;
            && (items != [] ==> items[0] in ev.where && ev.where[items[0]] == PendingReady)
            && (items == [] ==> forall t :: t in ev.where ==> ev.where[t] != PendingReady)
  {
    var items := At(ev, PendingReady).items;
    if items != [] {
      assert items[0] in items;
    }
  }

  ghost predicate IsPending(k: K, t: Task) {
    t in k.ev.where && k.ev.where[t] == PendingReady
  }

  ghost predicate Drained(k: K, k': K) {
    && k'.st.where.Keys == k.st.where.Keys
    && (forall t :: t in k.st.where && t in k.prio ==>
          k'.st.where[t] == if IsPending(k, t) then Ready(k.prio[t]) else k.st.where[t])
    && (forall t :: t in k'.ev.where <==> t in k.ev.where && !IsPending(k, t))
    && (forall t :: t in k'.ev.where ==> k'.ev.where[t] == k.ev.where[t])
    && (k'.yieldPending <==> k.yieldPending || PendingAbove(k))
  }

  ghost predicate PendingAbove(k: K) {
    exists t :: IsPending(k, t) && t in k.prio && k.current in k.prio && k.prio[t] >= k.prio[k.current]
  }

  lemma DrainedStep(k: K, k1: K, k2: K, t: Task)
    requires IsPending(k, t) && t in k.prio && k.current in k.prio && k.st.where.Keys == k.prio.Keys
    requires k1.prio == k.prio && k1.current == k.current
    requires k1.st.where == k.st.where[t := Ready(k.prio[t])] && k1.ev.where == k.ev.where - {t}
    requires k1.yieldPending <==> k.yieldPending || k.prio[t] >= k.prio[k.current]
    requires Drained(k1, k2)
    ensures Drained(k, k2)
  {
    assert !IsPending(k1, t) && forall x :: x != t ==> (IsPending(k1, x) <==> IsPending(k, x));
    hide IsPending, PendingAbove;
    PendingAboveStep(k, k1, t);
  }

  lemma PendingAboveStep(k: K, k1: K, t: Task)
    requires IsPending(k, t) && !IsPending(k1, t) && t in k.prio && k.current in k.prio
    requires k1.prio == k.prio && k1.current == k.current
    requires forall x :: x != t ==> (IsPending(k1, x) <==> IsPending(k, x))
    ensures PendingAbove(k) <==> k.prio[t] >= k.prio[k.current] || PendingAbove(k1)
  {
    hide IsPending;
  }

  lemma {:induction false} DrainPendingEffect(k: K)
    requires Inv(k)
    ensures Drained(k, DrainPending(k))
    decreases |At(k.ev, PendingReady).items|
  {
    hide DrainOne, Ok, Bits, Counts, SortedBy, Times;
    var items := At(k.ev, PendingReady).items;
    PendingHead(k.ev);
    if items != [] {
      DrainPendingEffect(DrainOne(k, items[0]));
      DrainedStep(k, DrainOne(k, items[0]), DrainPending(DrainOne(k, items[0])), items[0]);
    }
  }

  /** One round of the second loop of xTaskResumeAll: a pended tick is processed. */
  function ReplayOne(k: K): (k': K)
    requires Inv(k) && Settled(k) && k.suspended == 0
    ensures Inv(k') && Settled(k')
    ensures k' == Tick(k).0.(yieldPending := k.yieldPending || Tick(k).1)
    ensures Now(k') == Now(k) + 1 && k'.prio == k.prio && k'.current == k.current && k'.suspended == 0
    ensures k'.request == k.request && k'.pended == k.pended
  {
    TickExact(k);
    var (k1, sw) := Tick(k);
    var k2 := k1.(yieldPending := k1.yieldPending || sw);
    InvOfFlags(k1, k2);
    k2
  }

  function Replay(k: K, n: nat): (k': K)
    requires Inv(k) && Settled(k) && k.suspended == 0
    ensures Inv(k') && Settled(k')
    ensures Now(k') == Now(k) + n && k'.prio == k.prio && k'.current == k.current && k'.suspended == 0
    ensures k'.request == k.request && k'.pended == k.pended
    decreases n
  {
    if n == 0 then k else Replay(ReplayOne(k), n - 1)
  }

  /** The first half of xTaskResumeAll: the pending list is emptied, and the next unblock
      time recomputed if that woke anyone. */
  function ResumeReady(k: K): (k': K)
    requires Inv(k)
    ensures Inv(k')
    ensures k' == k.(st := k'.st, ev := k'.ev, top := k'.top, yieldPending := k'.yieldPending, next := k'.next)
  {
    var k1 := DrainPending(k);
    var k2 := if At(k.ev, PendingReady).items != [] then ResetNext(k1) else k1;
    InvOfFlags(k1, k2);
    k2
  }

  lemma ResumeReadySettled(k: K)
    requires Inv(k) && Settled(k.(suspended := 1)) && k.suspended == 0
    ensures Settled(ResumeReady(k)) && ResumeReady(k).suspended == 0
    ensures Drained(k, ResumeReady(k))
  {
    hide Ok, Bits, Counts, SortedBy, DrainPending, ResetNext, Inv, Drained, Settled, Times, Homes;
    var k1 := DrainPending(k);
    DrainPendingEffect(k);
    assert Homes(k) && Times(k) && Ok(k1.st) && Times(k1) by { InvParts(k); InvParts(k1); }
    DrainedAnyNext(k, k1, ResumeReady(k));
    ResumedSettled(k, k1, ResumeReady(k));
  }

  lemma DrainedAnyNext(k: K, k1: K, k2: K)
    requires Drained(k, k1) && k2 == k1.(next := k2.next)
    ensures Drained(k, k2)
  {
  }

  lemma InvParts(k: K)
    requires Inv(k)
    ensures Ok(k.st) && Ok(k.ev) && Homes(k) && Times(k)
  {
  }

  lemma ResumeLastReady(k: K)
    requires Inv(k) && Settled(k) && k.suspended == 1
    ensures var k1 := k.(suspended := 0);
            Inv(k1) && Settled(ResumeReady(k1)) && ResumeReady(k1).suspended == 0 && Drained(k1, ResumeReady(k1))
  {
    hide Inv, Settled, ResumeReady, Drained;
    var k1 := k.(suspended := 0);
    InvOfFlags(k, k1);
    assert k1.(suspended := 1) == k;
    ResumeReadySettled(k1);
  }

  /** xTaskResumeAll, and the yield its caller adds after having blocked. */
  function ResumeAll(k: K, yieldAfter: bool): (k': K)
    requires Inv(k) && Settled(k) && k.suspended > 0
    ensures Inv(k')
  {
    var k1 := k.(suspended := k.suspended - 1);
    InvOfFlags(k, k1.(request := k.request || yieldAfter));
    if k1.suspended > 0 then k1.(request := k.request || yieldAfter) else ResumeLast(k, yieldAfter)
  }

  function ResumeLast(k: K, yieldAfter: bool): (k': K)
    requires Inv(k) && Settled(k) && k.suspended == 1
    ensures Inv(k')
  {
    ResumeLastReady(k);
    var k2 := Replay(ResumeReady(k.(suspended := 0)), k.pended);
    var k3 := k2.(pended := 0, request := k2.request || k2.yieldPending || yieldAfter);
    InvOfFlags(k2, k3);
    k3
  }

  lemma ResumedSettled(k: K, k2: K, k3: K)
    requires Homes(k) && Times(k) && Settled(k.(suspended := 1)) && k.suspended == 0 && Drained(k, k2)
    requires k2 == k.(st := k2.st, ev := k2.ev, top := k2.top, yieldPending := k2.yieldPending)
    requires Ok(k2.st) && Times(k2) && (k3 == k2 || k3 == ResetNext(k2))
    ensures Settled(k3)
  {
    hide SortedBy, At, Homes, ResetNext, Ok, Drained;
    StillDelayed(k, k2);
  }

  lemma StillDelayed(k: K, k2: K)
    requires Homes(k) && Times(k) && Drained(k, k2)
    ensures forall t :: t in k2.st.where && k2.st.where[t] == k.delayed ==>
              t in k.st.where && k.st.where[t] == k.delayed
    ensures NoPending(k2)
  {
    hide SortedBy, At, HomeOk, EventHome, Blocked;
  }
}
