/** Timers whose period is changed, one-shot timers that are started again, and the times at which
    callbacks are made. */
module TimerChanges {
  import opened Rings
  import opened SortedLists
  import opened Timers
  import opened TimerRuns

  // ---- xTimerChangePeriod ------------------------------------------------------------------

  /** The timer has the new period and is filed for that many ticks from now; it is not called yet. */
  lemma ExecuteChange(d: Daemon, c: Command, now: nat)
    requires Inv(d) && CommandOk(d, c) && now == Sampled(d) && c.op.ChangePeriod? && InFlight(d, c.t)
    ensures var d' := Execute(d, c, now);
            && d'.period == d.period[c.t := c.value] && d'.auto == d.auto && d'.log == d.log
            && Listed(d', c.t) && Armed(d', c.t, now + c.value)
  {
    hide InOrder, Insert, Decide, Commands;
    NewPeriodInv(d, c.t, c.value);
    InsertKeeps(d.(period := d.period[c.t := c.value]), c.t, d.epoch, d.last);
  }

  /** Taking the only command for the timer from the queue and sampling the time. */
  lemma TakenUp(d: Daemon, now: nat, t: Timer)
    requires Inv(d) && Allowed(d, Handle(now)) && d.queue[0].t == t && |Commands(d.queue, t)| == 1
    ensures Inv(Detach(d)) && SampleInTime(Detach(d), now)
    ensures var d1 := Sample(Detach(d), now).0;
            && Inv(d1) && now == Sampled(d1) && d1.period == d.period && d1.auto == d.auto
            && InFlight(d1, t) && Calls(d1.log, t) == Calls(d.log, t) && CommandOk(d1, d.queue[0])
            && Receive(d, now) == Execute(d1, d.queue[0], now)
  {
    hide Inv, Calls, Commands, Sample, Execute;
    DetachKeeps(d);
    DetachParts(d, t);
    SampleKeeps(Detach(d), now);
    SampleInFlight(Detach(d), now, t);
  }

  lemma ChangedOnSchedule(d: Daemon, now: nat, t: Timer)
    requires Inv(d) && Allowed(d, Handle(now)) && t in d.auto
    requires d.queue[0].t == t && d.queue[0].op.ChangePeriod? && |Commands(d.queue, t)| == 1
    ensures var d' := Receive(d, now);
            && OnSchedule(d', t, Calls(d.log, t), now) && d'.period == d.period[t := d.queue[0].value]
            && Calls(d'.log, t) == Calls(d.log, t)
  {
    hide Inv, Calls, Commands, Sample, Execute, Armed;
    TakenUp(d, now, t);
    ExecuteChange(Sample(Detach(d), now).0, d.queue[0], now);
    FirstTwo(now, d.queue[0].value);
  }

  /** A step changes no period but that of a timer whose change of period it handles. */
  lemma StepPeriod(d: Daemon, e: Event, t: Timer)
    requires Inv(d) && Allowed(d, e) && t in d.period
    requires e.Handle? && d.queue[0].t == t ==> !d.queue[0].op.ChangePeriod?
    ensures t in Step(d, e).period && Step(d, e).period[t] == d.period[t]
  {
    hide Inv, Sample, Execute, ProcessExpired, Low;
    match e
    case Post(_) =>
    case Process(now) => ProcessPeriod(d, now);
    case Handle(now) =>
      DetachKeeps(d);
      SampleKeeps(Detach(d), now);
      ExecutePeriod(Sample(Detach(d), now).0, d.queue[0], now, t);
  }

  lemma ProcessPeriod(d: Daemon, now: nat)
    requires Inv(d) && SampleInTime(d, now)
    ensures ProcessTimer(d, now).period == d.period
  {
    hide InOrder, Sample, ProcessExpired, Low;
    SampleKeeps(d, now);
    var (d1, switched) := Sample(d, now);
    if !switched && d.current != [] && d.value[d.current[0]] <= Low(now) {
      ProcessExpiredOwn(d1, d.value[d.current[0]], now, d.current[0]);
    }
  }

  lemma ExecutePeriod(d: Daemon, c: Command, now: nat, t: Timer)
    requires Inv(d) && CommandOk(d, c) && now == Sampled(d) && t in d.period
    requires c.t == t ==> !c.op.ChangePeriod?
    ensures t in Execute(d, c, now).period && Execute(d, c, now).period[t] == d.period[t]
  {
    hide InOrder, Inserted, Decide;
  }

  lemma {:induction false} PeriodStays(d: Daemon, es: seq<Event>, t: Timer, before: seq<nat>, c0: nat)
    requires Inv(d) && ValidRun(d, es) && LeftAlone(es, t) && OnSchedule(d, t, before, c0)
    ensures t in d.period && t in Run(d, es).period && Run(d, es).period[t] == d.period[t]
    decreases |es|
  {
    hide Inv, Step, Calls;
    if es != [] {
      StepKeeps(d, es[0]);
      assert es[0] in es;
      assert forall e :: e in es[1..] ==> e in es;
      OneStep(d, es[0]);
      StaysOnSchedule(d, [es[0]], t, before, c0);
      StartsOnly(d, es[0], t, before, c0);
      StepPeriod(d, es[0], t);
      PeriodStays(Step(d, es[0]), es[1..], t, before, c0);
    }
  }

  /** The only command for a timer on schedule starts it. */
  lemma StartsOnly(d: Daemon, e: Event, t: Timer, before: seq<nat>, c0: nat)
    requires Inv(d) && Allowed(d, e) && OnSchedule(d, t, before, c0)
    ensures e.Handle? && d.queue[0].t == t ==> d.queue[0].op.Start?
  {
    hide Inv, Calls;
    if e.Handle? && d.queue[0].t == t {
      CommandsHead(d.queue, t);
    }
  }

  lemma OneStep(d: Daemon, e: Event)
    requires Inv(d) && Allowed(d, e)
    ensures ValidRun(d, [e]) && Run(d, [e]) == Step(d, e)
  {
    hide Inv, Step, Allowed;
    StepKeeps(d, e);
    assert [e][1..] == [];
  }

  /** From the moment the daemon handles a change of the period to v, at time c0, an auto-reload timer is
      called exactly for c0 + v, c0 + 2v, ..., one each, never early, and whenever the daemon blocks every
      expiry so far has been called; it is not called while the command is handled, and nothing of the
      earlier schedule is left. */
  lemma ChangeRestartsSchedule(d: Daemon, now: nat, t: Timer, es: seq<Event>)
    requires Inv(d) && Allowed(d, Handle(now)) && t in d.auto && LeftAlone(es, t)
    requires d.queue[0].t == t && d.queue[0].op.ChangePeriod? && |Commands(d.queue, t)| == 1
    requires (ReceiveKeeps(d, now); ValidRun(Receive(d, now), es))
    ensures var d' := (ReceiveKeeps(d, now); Run(Receive(d, now), es));
            && t in d'.period && d'.period[t] == d.queue[0].value
            && Punctual(d', t, Calls(d.log, t), now) && Calls(Receive(d, now).log, t) == Calls(d.log, t)
  {
    hide Inv, Run, ValidRun, Calls, Commands, Receive, OnSchedule, Punctual, LeftAlone;
    ReceiveKeeps(d, now);
    ChangedOnSchedule(d, now, t);
    StaysOnSchedule(Receive(d, now), es, t, Calls(d.log, t), now);
    PeriodStays(Receive(d, now), es, t, Calls(d.log, t), now);
    Schedule(Run(Receive(d, now), es), t, Calls(d.log, t), now);
  }

  // ---- One-shot timers, running or not -----------------------------------------------------

  /** The call that is due when the daemon handles a command: a start or reset counts from the time of
      the command, a change of the period from now. */
  function DueBy(d: Daemon, c: Command, now: nat): nat
    requires c.t in d.period
  {
    if c.op.Start? then Time(c.epoch, c.value) + d.period[c.t] else now + c.value
  }

  lemma RestartedOnce(d: Daemon, now: nat, t: Timer)
    requires Inv(d) && Allowed(d, Handle(now)) && t in d.period && t !in d.auto
    requires d.queue[0].t == t && (d.queue[0].op.Start? || d.queue[0].op.ChangePeriod?) && |Commands(d.queue, t)| == 1
    ensures Once(Receive(d, now), t, Calls(d.log, t), DueBy(d, d.queue[0], now))
    ensures d.queue[0].op.ChangePeriod? ==> Calls(Receive(d, now).log, t) == Calls(d.log, t)
  {
    hide Inv, Calls, Commands, Sample, Execute, Armed;
    TakenUp(d, now, t);
    var d1, c := Sample(Detach(d), now).0, d.queue[0];
    if c.op.Start? {
      ExecuteOwnOnce(d1, c, now, t, Calls(d.log, t));
    } else {
      ExecuteChange(d1, c, now);
    }
  }

  /** A one-shot timer that is started, reset or given a new period, running or not, is called at most
      once from the moment the daemon handles the command: for the time of the command plus the period,
      or for now plus the new period, and not before; and once the daemon has blocked at or after that
      time it has been called. */
  lemma OneShotRestarts(d: Daemon, now: nat, t: Timer, es: seq<Event>)
    requires Inv(d) && Allowed(d, Handle(now)) && t in d.period && t !in d.auto && LeftAlone(es, t)
    requires d.queue[0].t == t && (d.queue[0].op.Start? || d.queue[0].op.ChangePeriod?) && |Commands(d.queue, t)| == 1
    requires (ReceiveKeeps(d, now); ValidRun(Receive(d, now), es))
    ensures var d' := (ReceiveKeeps(d, now); Run(Receive(d, now), es)); var due := DueBy(d, d.queue[0], now);
            && (Calls(d'.log, t) == Calls(d.log, t) || Calls(d'.log, t) == Calls(d.log, t) + [due])
            && (forall x :: x in d'.log ==> x.due <= x.at)
            && (Idle(d') && due <= Sampled(d') ==> Calls(d'.log, t) == Calls(d.log, t) + [due])
            && (d.queue[0].op.ChangePeriod? ==> Calls(Receive(d, now).log, t) == Calls(d.log, t))
  {
    hide Inv, Run, ValidRun, Calls, Commands, Receive, Once, LeftAlone, DueBy, Idle;
    ReceiveKeeps(d, now);
    RestartedOnce(d, now, t);
    StaysOnce(Receive(d, now), es, t, Calls(d.log, t), DueBy(d, d.queue[0], now));
    OnceEnds(Run(Receive(d, now), es), t, Calls(d.log, t), DueBy(d, d.queue[0], now));
  }

  // ---- The times of the callbacks ----------------------------------------------------------

  /** The log has only grown, by calls made at time `now`. */
  ghost predicate LoggedAt(d: Daemon, d': Daemon, now: nat) {
    d.log <= d'.log && forall k :: |d.log| <= k < |d'.log| ==> d'.log[k].at == now
  }

  lemma LoggedTwice(d: Daemon, d1: Daemon, d2: Daemon, now: nat)
    requires LoggedAt(d, d1, now) && LoggedAt(d1, d2, now)
    ensures LoggedAt(d, d2, now)
  {
    assert forall k :: 0 <= k < |d.log| ==> d2.log[k] == d1.log[k] == d.log[k];
  }

  lemma FlushOneLogs(d: Daemon, now: nat)
    requires Inv(d) && d.current != []
    ensures LoggedAt(d, FlushOne(d, now), now)
  {
    HeadGone(d);
    hide Inv, InOrder, Inserted;
  }

  lemma {:induction false} FlushLogs(d: Daemon, now: nat)
    requires Inv(d) && d.epoch * WRAP + MAX_DELAY < now
    ensures LoggedAt(d, Flush(d, now), now)
    decreases Left(d.current, d.value)
  {
    hide Inv, FlushOne;
    if d.current != [] {
      FlushOneKeeps(d, now);
      FlushOneLogs(d, now);
      FlushLogs(FlushOne(d, now), now);
      hide LoggedAt;
      LoggedTwice(d, FlushOne(d, now), Flush(d, now), now);
    }
  }

  lemma SampleLogs(d: Daemon, now: nat)
    requires Inv(d) && SampleInTime(d, now)
    ensures LoggedAt(d, Sample(d, now).0, now)
  {
    WrapIsSeen(d, now);
    hide Inv, Flush, Low;
    if Low(now) < d.last {
      FlushLogs(d, now);
    }
  }

  lemma ExpiredLogs(d: Daemon, e: nat, now: nat)
    requires Inv(d) && d.current != [] && e == d.value[d.current[0]]
    ensures LoggedAt(d, ProcessExpired(d, e, now), now)
  {
    HeadGone(d);
    InvBounds(d);
    hide Inv, InOrder, Inserted, Decide;
  }

  lemma ExecuteLogs(d: Daemon, c: Command, now: nat)
    requires Inv(d) && CommandOk(d, c) && now == Sampled(d)
    ensures LoggedAt(d, Execute(d, c, now), now)
  {
    InvBounds(d);
    hide Inv, InOrder, Inserted, Decide;
  }

  /** Every callback a step makes is made at the time of the step; posting a command makes none. */
  lemma CallsAreMadeNow(d: Daemon, e: Event)
    requires Inv(d) && Allowed(d, e)
    ensures match e
            case Post(_) => Step(d, e).log == d.log
            case Process(now) => LoggedAt(d, Step(d, e), now)
            case Handle(now) => LoggedAt(d, Step(d, e), now)
  {
    hide Inv, Sample, Execute, ProcessExpired, Low, LoggedAt;
    match e
    case Post(_) =>
    case Process(now) => ProcessLogs(d, now);
    case Handle(now) =>
      DetachKeeps(d);
      SampleKeeps(Detach(d), now);
      SampleLogs(Detach(d), now);
      var d1 := Sample(Detach(d), now).0;
      ExecuteLogs(d1, d.queue[0], now);
      SameLog(d, Detach(d), d1, now);
      LoggedTwice(d, d1, Step(d, e), now);
  }

  lemma SameLog(d: Daemon, d1: Daemon, d2: Daemon, now: nat)
    requires d1.log == d.log && LoggedAt(d1, d2, now)
    ensures LoggedAt(d, d2, now)
  {
  }

  lemma ProcessLogs(d: Daemon, now: nat)
    requires Inv(d) && SampleInTime(d, now)
    ensures LoggedAt(d, ProcessTimer(d, now), now)
  {
    hide InOrder, Sample, ProcessExpired, Low, LoggedAt;
    SampleKeeps(d, now);
    SampleLogs(d, now);
    var (d1, switched) := Sample(d, now);
    if !switched && d.current != [] && d.value[d.current[0]] <= Low(now) {
      ExpiredLogs(d1, d.value[d.current[0]], now);
      LoggedTwice(d, d1, ProcessTimer(d, now), now);
    }
  }

  /** The daemon gets on with its work: a round makes the call that is due first, if one is, and
      otherwise none. */
  lemma ProcessCallsFirst(d: Daemon, now: nat)
    requires Inv(d) && SampleInTime(d, now)
    ensures d.current != [] ==> d.current[0] in d.due
    ensures var log := ProcessTimer(d, now).log;
            if d.current != [] && d.due[d.current[0]] <= now
            then |d.log| < |log| && d.log <= log && log[|d.log|] == Call(d.current[0], d.due[d.current[0]], now)
            else log == d.log
  {
    if d.current != [] {
      HeadGone(d);
    }
    WrapIsSeen(d, now);
    SampleKeeps(d, now);
    hide Inv, Flush, ProcessExpired, Low, LoggedAt;
    if d.current != [] {
      if Low(now) < d.last {
        FlushCallsFirst(d, now);
      } else if d.value[d.current[0]] <= Low(now) {
        ExpiredCallsFirst(Sample(d, now).0, d.value[d.current[0]], now);
      }
    } else if Low(now) < d.last {
      NothingToFlush(d, now);
    }
  }

  lemma NothingToFlush(d: Daemon, now: nat)
    requires Inv(d) && d.epoch * WRAP + MAX_DELAY < now && d.current == []
    ensures Flush(d, now) == d
  {
    hide Inv;
  }

  lemma FlushCallsFirst(d: Daemon, now: nat)
    requires Inv(d) && d.epoch * WRAP + MAX_DELAY < now && d.current != []
    ensures d.current[0] in d.due
    ensures var log := Flush(d, now).log;
            |d.log| < |log| && d.log <= log && log[|d.log|] == Call(d.current[0], d.due[d.current[0]], now)
  {
    HeadGone(d);
    FlushOneKeeps(d, now);
    hide Inv, InOrder, Inserted;
    FlushLogs(FlushOne(d, now), now);
    assert FlushOne(d, now).log == d.log + [Call(d.current[0], d.due[d.current[0]], now)];
  }

  lemma ExpiredCallsFirst(d: Daemon, e: nat, now: nat)
    requires Inv(d) && d.current != [] && e == d.value[d.current[0]]
    ensures d.current[0] in d.due
    ensures ProcessExpired(d, e, now).log == d.log + [Call(d.current[0], d.due[d.current[0]], now)]
  {
    HeadGone(d);
    InvBounds(d);
    hide Inv, InOrder, Inserted, Decide;
  }
}
