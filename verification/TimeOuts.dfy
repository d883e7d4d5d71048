/** Block times that survive retries (xTaskCheckForTimeOut) and periodic delays
    (vTaskDelayUntil), on 32-bit tick counts and in unbounded time. */
module TimeOuts {
  import opened Options
  import opened Rings
  import opened TaskLists
  import opened Scheduler
  import opened Kernel
  import opened KernelCalls
  import opened KernelRuns
  import opened KernelEffects
  import opened KernelTheorems

  /** A tick count and the number of its wraps so far. */
  datatype Instant = Instant(epoch: nat, low: nat) {
    function At(): nat {
      Time(epoch, low)
    }
  }

  // ---- xTaskCheckForTimeOut ------------------------------------------------------------------

  /** A TimeOut_t and the ticks that remain to wait. */
  datatype Wait = Wait(entry: Instant, ticks: nat) {
    function Deadline(): nat {
      entry.At() + ticks
    }
  }

  /** xTaskCheckForTimeOut at instant `now`, with vTaskSuspend included. */
  function Check(w: Wait, now: Instant): (r: (Wait, bool))
    requires w.entry.low < WRAP && now.low < WRAP
  {
    var elapsed := Minus(now.low, w.entry.low);
    if w.ticks == MAX_DELAY then (w, false)
    else if now.epoch != w.entry.epoch && now.low >= w.entry.low then (w, true)
    else if elapsed < w.ticks then (Wait(now, w.ticks - elapsed), false)
    else (w.(ticks := 0), true)
  }

  /** TimeOut_t with the ticks to wait that its caller keeps. */
  class TimeOut {
    var overflowCount: nat
    var timeOnEntering: nat
    var ticksToWait: nat

    ghost function Value(): Wait
      reads this
    {
      Wait(Instant(overflowCount, timeOnEntering), ticksToWait)
    }

    /** vTaskInternalSetTimeOutState */
    method SetTimeOutState(overflows: nat, tickCount: nat)
      modifies this`overflowCount, this`timeOnEntering
      ensures Value() == Wait(Instant(overflows, tickCount), old(ticksToWait))
    {
      overflowCount, timeOnEntering := overflows, tickCount;
    }

    /** xTaskCheckForTimeOut */
    method CheckForTimeOut(overflows: nat, tickCount: nat) returns (timedOut: bool)
      requires timeOnEntering < WRAP && tickCount < WRAP
      modifies this
      ensures (Value(), timedOut) == Check(old(Value()), Instant(overflows, tickCount))
    {
      var elapsed := Minus(tickCount, timeOnEntering);
      if ticksToWait == MAX_DELAY {
        timedOut := false;
      } else if overflows != overflowCount && tickCount >= timeOnEntering {
        timedOut := true;
      } else if elapsed < ticksToWait {
        ticksToWait := ticksToWait - elapsed;
        SetTimeOutState(overflows, tickCount);
        timedOut := false;
      } else {
        ticksToWait := 0;
        timedOut := true;
      }
    }
  }

  /** A check says timed out exactly when the deadline has passed, if the tick count has
      wrapped at most once since the last check, or it is not below the entry time, or the
      wrapped difference already reaches the wait. */
  lemma CheckIsRightIff(w: Wait, now: Instant)
    requires w.entry.low < WRAP && now.low < WRAP && w.ticks < MAX_DELAY && w.entry.At() <= now.At()
    ensures (Check(w, now).1 <==> w.Deadline() <= now.At())
       <==> now.epoch <= w.entry.epoch + 1 || now.low >= w.entry.low || Minus(now.low, w.entry.low) >= w.ticks
  {
    var d := now.epoch - w.entry.epoch;
    assert now.At() - w.entry.At() == d * WRAP + now.low - w.entry.low;
    if now.low >= w.entry.low {
      assert d >= 1 ==> d * WRAP >= WRAP;
    } else {
      assert d >= 1;
      assert d >= 2 ==> d * WRAP >= 2 * WRAP;
    }
  }

  /** After two wraps a long wait can be reported as not timed out. */
  lemma TwoWrapsGoUnnoticed()
    ensures var w := Wait(Instant(0, 10), WRAP - 2);
            w.Deadline() <= Instant(2, 5).At() && !Check(w, Instant(2, 5)).1
  {
  }

  /** A check that does not time out moves the entry time but not the deadline. */
  lemma CheckKeepsDeadline(w: Wait, now: Instant)
    requires w.entry.low < WRAP && now.low < WRAP && w.ticks < MAX_DELAY && w.entry.At() <= now.At()
    requires now.epoch <= w.entry.epoch + 1 && !Check(w, now).1
    ensures var w' := Check(w, now).0;
            w'.Deadline() == w.Deadline() && w'.ticks > 0 && w'.ticks < MAX_DELAY && w'.entry == now
  {
  }

  /** A check that times out leaves the entry time alone, and nothing to wait for, unless it has seen the
      tick count wrap and come past the entry time; then what was to wait remains. */
  lemma NothingLeftIff(w: Wait, now: Instant)
    requires w.entry.low < WRAP && now.low < WRAP && Check(w, now).1
    ensures var w' := Check(w, now).0;
            && w'.entry == w.entry && (w'.ticks == 0 || w'.ticks == w.ticks)
            && (w'.ticks == 0 <==> w.ticks == 0 || now.epoch == w.entry.epoch || now.low < w.entry.low)
  {
  }

  /** The checks come in order of time, with at most one wrap between one and the next. */
  ghost predicate InTime(entry: Instant, nows: seq<Instant>)
    decreases |nows|
  {
    nows == [] || (nows[0].low < WRAP && entry.At() <= nows[0].At() && nows[0].epoch <= entry.epoch + 1
                   && InTime(nows[0], nows[1..]))
  }

  /** The number of checks, at instants `nows`, that return false before the first true. */
  function FalseChecks(w: Wait, nows: seq<Instant>): nat
    requires w.entry.low < WRAP && forall x :: x in nows ==> x.low < WRAP
    decreases |nows|
  {
    if nows == [] || Check(w, nows[0]).1 then 0
    else if w.ticks == MAX_DELAY then 1 + FalseChecks(w, nows[1..])
    else 1 + FalseChecks(Check(w, nows[0]).0, nows[1..])
  }

  lemma {:induction false} InTimeLow(entry: Instant, nows: seq<Instant>)
    requires InTime(entry, nows)
    ensures forall x :: x in nows ==> x.low < WRAP
    decreases |nows|
  {
    if nows != [] {
      InTimeLow(nows[0], nows[1..]);
    }
  }

  /** Over any chain of checks the deadline is that of the first entry: a check times out
      exactly if the deadline has passed and no earlier one has timed out. */
  lemma {:induction false} ConstantDeadline(w: Wait, nows: seq<Instant>)
    requires w.entry.low < WRAP && w.ticks < MAX_DELAY && InTime(w.entry, nows)
    ensures forall x :: x in nows ==> x.low < WRAP
    ensures var n := FalseChecks(w, nows);
            && n <= |nows|
            && (forall i :: 0 <= i < n ==> nows[i].At() < w.Deadline())
            && (n < |nows| ==> w.Deadline() <= nows[n].At())
    decreases |nows|
  {
    InTimeLow(w.entry, nows);
    if nows != [] {
      CheckIsRightIff(w, nows[0]);
      if !Check(w, nows[0]).1 {
        CheckKeepsDeadline(w, nows[0]);
        ConstantDeadline(Check(w, nows[0]).0, nows[1..]);
      }
    }
  }

  /** A wait of portMAX_DELAY never times out, and no check changes it. */
  lemma {:induction false} ForeverNeverTimesOut(w: Wait, nows: seq<Instant>)
    requires w.entry.low < WRAP && w.ticks == MAX_DELAY && forall x :: x in nows ==> x.low < WRAP
    ensures FalseChecks(w, nows) == |nows|
    ensures forall x :: x in nows ==> Check(w, x).0 == w
  {
    if nows != [] {
      ForeverNeverTimesOut(w, nows[1..]);
    }
  }

  // ---- vTaskDelayUntil -----------------------------------------------------------------------

  /** Whether vTaskDelayUntil delays, from the 32-bit previous wake time, time to wake and tick. */
  predicate ShouldDelay(previous: nat, wake: nat, tick: nat) {
    if tick < previous then wake < previous && wake > tick else wake < previous || wake > tick
  }

  /** If the previous wake time is at most now and less than 2^32 ticks ago, the task is
      delayed exactly when its next wake time is in the future, and by the difference. */
  lemma DelayDecisionIsRight(pe: nat, previous: nat, increment: nat, ne: nat, tick: nat)
    requires previous < WRAP && tick < WRAP && 1 <= increment < WRAP
    requires Time(pe, previous) <= Time(ne, tick) < Time(pe, previous) + WRAP
    ensures var wake := Plus(previous, increment);
            && (ShouldDelay(previous, wake, tick) <==> Time(pe, previous) + increment > Time(ne, tick))
            && (ShouldDelay(previous, wake, tick) ==>
                  && Minus(wake, tick) == Time(pe, previous) + increment - Time(ne, tick)
                  && 1 <= Minus(wake, tick) <= MAX_DELAY)
  {
    assert ne == pe || ne == pe + 1;
  }

  /** vTaskDelayUntil up to xTaskResumeAll; the new previous wake time is the second result. */
  function DelayUntil(k: K, previous: nat, increment: nat): (r: (K, nat))
    requires Inv(k) && k.current != k.idle && Running(k) && previous < WRAP && 1 <= increment < WRAP
  {
    var wake := Plus(previous, increment);
    if ShouldDelay(previous, wake, k.tick) then
      BlockTicks(k, wake);
      (Block(k, Minus(wake, k.tick), false, None), wake)
    else (k, wake)
  }

  lemma BlockTicks(k: K, wake: nat)
    requires Inv(k) && wake < WRAP
    ensures k.tick < WRAP && Minus(wake, k.tick) <= MAX_DELAY && (wake != k.tick ==> Minus(wake, k.tick) >= 1)
  {
  }

  /** The task sleeps until exactly the previous wake time plus the increment, in unbounded
      time, or is not delayed because that time has passed. */
  lemma DelayUntilWakesOnTime(k: K, pe: nat, previous: nat, increment: nat)
    requires Inv(k) && k.current != k.idle && Running(k) && previous < WRAP && 1 <= increment < WRAP
    requires Time(pe, previous) <= Now(k) < Time(pe, previous) + WRAP
    ensures var (k', wake) := DelayUntil(k, previous, increment); var due := Time(pe, previous) + increment;
            && (due > Now(k) ==> Sleeping(k', k.current, due))
            && (due <= Now(k) ==> k' == k)
            && wake < WRAP && due == Time(if previous + increment < WRAP then pe else pe + 1, wake)
  {
    hide Ok, Bits, Counts, HomeOk, SortedBy, At, Block, Sleeping;
    DelayDecisionIsRight(pe, previous, increment, k.epoch, k.tick);
    var wake := Plus(previous, increment);
    if ShouldDelay(previous, wake, k.tick) {
      BlockSleeps(k, Minus(wake, k.tick), false, None);
    }
  }

  // ---- A periodic task -----------------------------------------------------------------------

  /** The previous wake time after a call, with the wraps of its unbounded value. */
  function NextWake(previous: Instant, increment: nat): (wake: Instant)
    requires previous.low < WRAP && 1 <= increment < WRAP
    ensures wake.low < WRAP && wake.At() == previous.At() + increment
  {
    var epoch := if previous.low + increment < WRAP then previous.epoch else previous.epoch + 1;
    Instant(epoch, Plus(previous.low, increment))
  }

  /** Task `t` runs in vTaskDelayUntil with the scheduler suspended; its previous wake time is less
      than 2^32 ticks ago. */
  ghost predicate Calls(k: K, t: Task, previous: Instant)
    requires Homes(k)
  {
    k.current == t && t != k.idle && Running(k) && k.suspended == 1 && Now(k) < previous.At() + WRAP
  }

  lemma DelayUntilGood(k: K, previous: nat, increment: nat)
    requires Good(k) && k.current != k.idle && Running(k) && k.suspended == 1 && previous < WRAP
    requires 1 <= increment < WRAP
    ensures Good(DelayUntil(k, previous, increment).0)
  {
    hide Ok, Bits, Counts, SortedBy, Settled, Preempted, Block;
    var wake := Plus(previous, increment);
    if ShouldDelay(previous, wake, k.tick) {
      BlockTicks(k, wake);
      BlockGood(k, Minus(wake, k.tick), false, None);
    }
  }

  /** Until time `w` no step of the run wakes, suspends or deletes `t`. */
  ghost predicate LeftAsleep(k: K, cs: seq<Call>, t: Task, w: nat)
    requires Good(k) && ValidRun(k, cs)
    decreases |cs|
  {
    cs == [] || ((Now(k) < w ==> LeavesAlone(k, cs[0], t))
                 && (StepGood(k, cs[0]); LeftAsleep(Step(k, cs[0]), cs[1..], t, w)))
  }

  /** In every state of the run before time `w` the task sleeps, and in the first state at or after
      it the task is ready. */
  ghost predicate WakesAt(k: K, cs: seq<Call>, t: Task, w: nat)
    requires Good(k) && ValidRun(k, cs)
    decreases |cs|
  {
    OnTime(k, t, w) && (cs == [] || w <= Now(k) || (StepGood(k, cs[0]); WakesAt(Step(k, cs[0]), cs[1..], t, w)))
  }

  /** Only a tick that is processed, at once or when the scheduler resumes, moves the time, and it
      moves it forward. */
  lemma TimeMovesForward(k: K, c: Call)
    requires Good(k) && Allowed(k, c)
    ensures Now(k) <= Now(Step(k, c))
    ensures !c.IsrTick? && !c.CallResumeAll? ==> Now(Step(k, c)) == Now(k)
  {
    hide Ok, Bits, Counts, Times, HomeOk, Settled, Preempted, Subject;
    if AboutMany(c) {
      hide ResumeAll, TickInterrupt, SwitchContext;
      match c
      case CallResumeAll(y) => ResumeMovesForward(k, y);
      case IsrTick => TickMovesForward(k);
      case ContextSwitch => SwitchKeepsTime(k);
    } else {
      hide Step;
      StepTouchesOnly(k, c);
      TouchedNow(k, Step(k, c), Subject(k, c));
    }
  }

  lemma TouchedNow(k: K, k': K, t: Task)
    requires OnlyTouches(k, k', t)
    ensures Now(k') == Now(k)
  {
  }

  lemma SwitchKeepsTime(k: K)
    requires Inv(k)
    ensures Now(SwitchContext(k)) == Now(k)
  {
    hide Inv;
  }

  lemma TickMovesForward(k: K)
    requires Good(k)
    ensures Now(k) <= Now(TickInterrupt(k))
  {
    hide Ok, Bits, Counts, SortedBy, Times, Settled, Preempted, WakeExpired;
    if k.suspended == 0 {
      TickExact(k);
    }
  }

  lemma ResumeMovesForward(k: K, yieldAfter: bool)
    requires Good(k) && k.suspended > 0
    ensures Now(k) <= Now(ResumeAll(k, yieldAfter))
  {
    hide Inv, Settled, Replay, ResumeReady;
    if k.suspended == 1 {
      var k1 := k.(suspended := 0);
      InvOfFlags(k, k1);
    }
  }

  lemma {:induction false} RunMovesForward(k: K, cs: seq<Call>)
    requires Good(k) && ValidRun(k, cs)
    ensures Now(k) <= Now(Run(k, cs))
    decreases |cs|
  {
    hide Inv, Settled, Preempted, Step, Allowed;
    if cs != [] {
      StepGood(k, cs[0]);
      TimeMovesForward(k, cs[0]);
      RunMovesForward(Step(k, cs[0]), cs[1..]);
    }
  }

  lemma {:induction false} SleeperWakes(k: K, cs: seq<Call>, t: Task, w: nat)
    requires Good(k) && ValidRun(k, cs) && LeftAsleep(k, cs, t, w) && OnTime(k, t, w)
    ensures WakesAt(k, cs, t, w)
    ensures Now(Run(k, cs)) < w ==> OnTime(Run(k, cs), t, w)
    decreases |cs|
  {
    hide Inv, Settled, Preempted, Step, Allowed, LeavesAlone;
    if Now(k) >= w {
      RunMovesForward(k, cs);
    } else if cs != [] {
      StepGood(k, cs[0]);
      StepOnTime(k, cs[0], t, w);
      SleeperWakes(Step(k, cs[0]), cs[1..], t, w);
    }
  }

  /** The task calls vTaskDelayUntil at `k`, and again after each of the runs of kernel steps. */
  ghost predicate Periodic(k: K, t: Task, previous: Instant, increment: nat, rounds: seq<seq<Call>>)
    requires Good(k) && previous.low < WRAP && 1 <= increment < WRAP
    decreases |rounds|
  {
    && Calls(k, t, previous)
    && (rounds == [] ||
        var k1 := (DelayUntilGood(k, previous.low, increment); DelayUntil(k, previous.low, increment).0);
        && ValidRun(k1, rounds[0]) && LeftAsleep(k1, rounds[0], t, previous.At() + increment)
        && Periodic(Run(k1, rounds[0]), t, NextWake(previous, increment), increment, rounds[1..]))
  }

  /** In call `n`, counted from 0, the task sleeps until exactly start + (n + 1) * increment and is
      then ready, or goes on at once if that time has passed; the call records the low 32 bits of
      that time; and the next call is not made before it. And so on for the later calls. */
  ghost predicate AllOnTime(k: K, t: Task, previous: Instant, increment: nat, start: nat, n: nat,
                            rounds: seq<seq<Call>>)
    requires Good(k) && previous.low < WRAP && 1 <= increment < WRAP && Periodic(k, t, previous, increment, rounds)
    decreases |rounds|
  {
    rounds == [] ||
    var (k1, wake) := (DelayUntilGood(k, previous.low, increment); DelayUntil(k, previous.low, increment));
    var due, k2 := start + (n + 1) * increment, Run(k1, rounds[0]);
    && (due > Now(k) ==> WakesAt(k1, rounds[0], t, due)) && (due <= Now(k) ==> k1 == k)
    && wake == NextWake(previous, increment).low && NextWake(previous, increment).At() == due <= Now(k2)
    && AllOnTime(k2, t, NextWake(previous, increment), increment, start, n + 1, rounds[1..])
  }

  lemma RoundOnTime(k: K, t: Task, previous: Instant, increment: nat, cs: seq<Call>)
    requires Good(k) && previous.low < WRAP && 1 <= increment < WRAP && Calls(k, t, previous) && previous.At() <= Now(k)
    requires Good(DelayUntil(k, previous.low, increment).0) && ValidRun(DelayUntil(k, previous.low, increment).0, cs)
    requires LeftAsleep(DelayUntil(k, previous.low, increment).0, cs, t, previous.At() + increment)
    ensures var (k1, wake) := DelayUntil(k, previous.low, increment); var due := previous.At() + increment;
            && (due > Now(k) ==> WakesAt(k1, cs, t, due)) && (due <= Now(k) ==> k1 == k)
            && wake == NextWake(previous, increment).low
            && (Now(Run(k1, cs)) < due ==> Sleeping(Run(k1, cs), t, due))
  {
    hide Ok, Bits, Counts, Times, HomeOk, Settled, Preempted, DelayUntil, Run, ValidRun, LeftAsleep, WakesAt, Sleeping;
    var k1, due := DelayUntil(k, previous.low, increment).0, previous.At() + increment;
    DelayUntilWakesOnTime(k, previous.epoch, previous.low, increment);
    if due > Now(k) {
      SleepingOnTime(k1, t, due);
      SleeperWakes(k1, cs, t, due);
    } else {
      RunMovesForward(k, cs);
    }
  }

  lemma SleepingOnTime(k: K, t: Task, w: nat)
    requires Good(k) && Sleeping(k, t, w)
    ensures OnTime(k, t, w)
  {
    hide Ok, Bits, Counts, SortedBy, Preempted, Homes;
    SleepingIsEarly(k, t, w);
  }

  lemma {:induction false} RoundsOnTime(k: K, t: Task, previous: Instant, increment: nat, start: nat, n: nat,
                                        rounds: seq<seq<Call>>)
    requires Good(k) && previous.low < WRAP && 1 <= increment < WRAP && Periodic(k, t, previous, increment, rounds)
    requires previous.At() == start + n * increment && previous.At() <= Now(k)
    ensures AllOnTime(k, t, previous, increment, start, n, rounds)
    decreases |rounds|
  {
    hide Ok, Bits, Counts, Times, SortedBy, HomeOk, Settled, Preempted, DelayUntil, Run, ValidRun, LeftAsleep, WakesAt,
      Sleeping;
    if rounds != [] {
      DelayUntilGood(k, previous.low, increment);
      var k1 := DelayUntil(k, previous.low, increment).0;
      RoundOnTime(k, t, previous, increment, rounds[0]);
      var k2, next := Run(k1, rounds[0]), NextWake(previous, increment);
      assert next.At() == start + (n + 1) * increment;
      NotAsleep(k2, t, next.At());
      RoundsOnTime(k2, t, next, increment, start, n + 1, rounds[1..]);
    }
  }

  lemma NotAsleep(k: K, t: Task, w: nat)
    requires Inv(k) && k.current == t && Running(k)
    ensures !Sleeping(k, t, w)
  {
    hide Ok, Bits, Counts, SortedBy;
  }

  /** A periodic task that calls vTaskDelayUntil in a loop, whatever the kernel and the other tasks
      do between the calls: call n lets it sleep until exactly start + (n + 1) * increment in
      unbounded time, so neither late calls nor tick wraps make it drift. */
  lemma PeriodicTaskWakesOnTime(k: K, t: Task, start: Instant, increment: nat, rounds: seq<seq<Call>>)
    requires Good(k) && start.low < WRAP && 1 <= increment < WRAP && start.At() <= Now(k)
    requires Periodic(k, t, start, increment, rounds)
    ensures AllOnTime(k, t, start, increment, start.At(), 0, rounds)
  {
    hide Inv, Settled, Preempted, Periodic, AllOnTime;
    RoundsOnTime(k, t, start, increment, start.At(), 0, rounds);
  }
}
