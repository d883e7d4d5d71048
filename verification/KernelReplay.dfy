/** Ticks pended while the scheduler is suspended and replayed by xTaskResumeAll have the
    effect of the same ticks taken with the scheduler running. */
module KernelReplay {
  import opened Rings
  import opened TaskLists
  import opened Scheduler
  import opened Kernel

  /** The state with other yield flags and another count of pended ticks. */
  function Flagged(k: K, yieldPending: bool, request: bool, pended: nat): K {
    k.(yieldPending := yieldPending, request := request, pended := pended)
  }

  lemma FlaggedInv(k: K, y: bool, r: bool, n: nat)
    requires Inv(k)
    ensures Inv(Flagged(k, y, r, n))
    ensures Settled(k) ==> Settled(Flagged(k, y, r, n))
  {
    InvOfFlags(k, Flagged(k, y, r, n));
  }

  lemma {:induction false} WakeExpiredFlagged(k: K, sw: bool, y: bool, r: bool, n: nat)
    requires Inv(k) && Inv(Flagged(k, y, r, n))
    ensures WakeExpired(Flagged(k, y, r, n), sw)
         == (Flagged(WakeExpired(k, sw).0, y, r, n), WakeExpired(k, sw).1)
    decreases |At(k.st, k.delayed).items|
  {
    hide Inv, Wake;
    var items := At(k.st, k.delayed).items;
    DelayedHead(k);
    if items != [] && k.wake[items[0]] <= k.tick {
      var t := items[0];
      WakeFlagged(k, t, y, r, n);
      WakeExpiredFlagged(Wake(k, t), sw || k.prio[t] >= k.prio[k.current], y, r, n);
    }
  }

  lemma WakeFlagged(k: K, t: Task, y: bool, r: bool, n: nat)
    requires Inv(k) && Inv(Flagged(k, y, r, n)) && t in k.prio && Blocked(k.st.where[t])
    ensures Wake(Flagged(k, y, r, n), t) == Flagged(Wake(k, t), y, r, n)
  {
    hide Ok, Bits, Counts, Times, SortedBy, HomeOk, Take, Relocate;
  }

  lemma AdvanceTickFlagged(k: K, y: bool, r: bool, n: nat)
    requires Ok(k.st) && Times(k) && Settled(k)
    requires Times(Flagged(k, y, r, n)) && Settled(Flagged(k, y, r, n))
    ensures AdvanceTick(Flagged(k, y, r, n)) == Flagged(AdvanceTick(k), y, r, n)
  {
    hide Settled, Times, Ok, IsDelayed, WakeTime, ResetNext;
    if k.tick == MAX_DELAY {
      SwitchedTimes(k);
      SwitchedTimes(Flagged(k, y, r, n));
      ResetFlagged(Switched(k), y, r, n);
      assert Switched(Flagged(k, y, r, n)) == Flagged(Switched(k), y, r, n);
    } else {
      TickBelow(k);
    }
  }

  lemma TickBelow(k: K)
    requires Times(k)
    ensures k.tick < WRAP
  {
    hide SortedBy, At;
  }

  lemma ResetFlagged(k: K, y: bool, r: bool, n: nat)
    requires Ok(k.st) && Times(k) && Times(Flagged(k, y, r, n))
    ensures ResetNext(Flagged(k, y, r, n)) == Flagged(ResetNext(k), y, r, n)
  {
    hide Ok, Times, At;
  }

  /** A tick does not depend on the flags, except that a pending yield is reported. */
  lemma TickFlagged(k: K, y: bool, r: bool, n: nat)
    requires Inv(k) && Settled(k) && k.suspended == 0 && Inv(Flagged(k, y, r, n)) && Settled(Flagged(k, y, r, n))
    requires k.yieldPending ==> y
    ensures k.yieldPending ==> Tick(k).1
    ensures Tick(Flagged(k, y, r, n)) == (Flagged(Tick(k).0, y, r, n), Tick(k).1 || y)
  {
    hide Inv, Settled, AdvanceTick, WakeExpired;
    InvParts(k);
    InvParts(Flagged(k, y, r, n));
    AdvanceTickFlagged(k, y, r, n);
    var k1 := AdvanceTick(k);
    InvOfTimes(k, k1);
    FlaggedInv(k1, y, r, n);
    WakeExpiredFlagged(k1, false, y, r, n);
  }

  // ---- n ticks ------------------------------------------------------------------------------

  /** `n` tick interrupts with nothing between them. */
  function TickInterrupts(k: K, n: nat): (k': K)
    requires Inv(k) && Settled(k)
    ensures Inv(k') && Settled(k')
    decreases n
  {
    if n == 0 then k
    else
      TickInterruptSettled(k);
      TickInterrupts(TickInterrupt(k), n - 1)
  }

  lemma TickInterruptSettled(k: K)
    requires Inv(k) && Settled(k)
    ensures Settled(TickInterrupt(k))
  {
    hide Inv, AdvanceTick, WakeExpired, Ticked;
    if k.suspended == 0 {
      TickExact(k);
    }
  }

  lemma {:induction false} PendingTicksOnlyCount(k: K, n: nat)
    requires Inv(k) && Settled(k) && k.suspended > 0
    ensures TickInterrupts(k, n) == k.(pended := k.pended + n, request := k.request || (n > 0 && k.yieldPending))
    decreases n
  {
    hide Inv, Settled;
    if n > 0 {
      TickInterruptSettled(k);
      PendingTicksOnlyCount(TickInterrupt(k), n - 1);
    }
  }

  /** Replaying from `k` with flags `y`, `r` and count `m` goes through the same states as
      ticking from `k`, up to the flags. */
  lemma {:induction false} ReplayFollowsTicks(k: K, n: nat, y: bool, r: bool, m: nat)
    requires Inv(k) && Settled(k) && k.suspended == 0 && (k.yieldPending ==> y)
    requires Inv(Flagged(k, y, r, m)) && Settled(Flagged(k, y, r, m))
    ensures var u := TickInterrupts(k, n); var v := Replay(Flagged(k, y, r, m), n);
            && v == Flagged(u, v.yieldPending, r, m)
            && (v.yieldPending || k.request <==> y || u.request)
            && (k.request ==> u.request) && (n > 0 && k.yieldPending ==> u.request) && (y ==> v.yieldPending)
            && u.yieldPending == k.yieldPending && u.pended == k.pended
    decreases n
  {
    hide Inv, Settled, Tick, Ticked;
    if n > 0 {
      TickFlagged(k, y, r, m);
      TickExact(k);
      TickInterruptSettled(k);
      var (k1, sw) := Tick(k);
      TickedFlags(k, k1);
      FlaggedInv(TickInterrupt(k), y || sw, r, m);
      ReplayFollowsTicks(TickInterrupt(k), n - 1, y || sw, r, m);
    }
  }

  /** `n` ticks taken with the scheduler suspended and then xTaskResumeAll give the state
      that `n` ticks give with the scheduler running and no other event between them: the
      same tick and overflow counts, delayed and ready lists, next unblock time and switch
      request. Only xYieldPending, which stays latched until the switch, may differ. */
  lemma PendedTicksReplayExactly(k: K, n: nat)
    requires Inv(k) && Settled(k) && k.suspended == 0 && k.pended == 0 && n > 0
    ensures var s := TickInterrupts(SuspendAll(k), n);
            && s == k.(suspended := 1, pended := n, request := k.request || k.yieldPending)
            && var v := ResumeAll(s, false); var u := TickInterrupts(k, n);
               v == u.(yieldPending := v.yieldPending) && (u.yieldPending ==> v.yieldPending)
  {
    hide Inv, Settled;
    var r := k.request || k.yieldPending;
    PendingTicksOnlyCount(SuspendAll(k), n);
    var k1 := Flagged(k, k.yieldPending, r, n);
    FlaggedInv(k, k.yieldPending, r, n);
    assert TickInterrupts(SuspendAll(k), n).(suspended := 0) == k1;
    NothingPending(k1);
    ReplayFollowsTicks(k, n, k.yieldPending, r, n);
  }

  lemma NothingPending(k: K)
    requires Inv(k) && Settled(k) && k.suspended == 0
    ensures ResumeReady(k) == k
  {
    var items := At(k.ev, PendingReady).items;
    PendingHead(k.ev);
    assert items == [];
  }

  lemma TickedFlags(k: K, k1: K)
    requires Ticked(k, k1)
    ensures k1.yieldPending == k.yieldPending && k1.suspended == k.suspended && k1.request == k.request
    ensures k1.pended == k.pended
  {
  }
}
