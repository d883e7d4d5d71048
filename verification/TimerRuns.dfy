/** Runs of the timer daemon: auto-reload timers do not drift. */
module TimerRuns {
  import opened Rings
  import opened SortedLists
  import opened Timers

  datatype Event =
    | Post(c: Command)       // a task or interrupt sends a command
    | Process(now: nat)      // prvProcessTimerOrBlockTask at time `now`
    | Handle(now: nat)       // the first command in the queue is handled at time `now`

  /** Each tick wrap is sampled and each start command handled within 2^32 ticks. */
  ghost predicate Allowed(d: Daemon, e: Event) {
    match e
    case Post(c) => CommandOk(d, c)
    case Process(now) => SampleInTime(d, now)
    case Handle(now) => SampleInTime(d, now) && d.queue != [] && HandledInTime(d.queue[0], now)
  }

  function Step(d: Daemon, e: Event): Daemon
    requires Inv(d) && Allowed(d, e)
  {
    match e
    case Post(c) => Send(d, c)
    case Process(now) => ProcessTimer(d, now)
    case Handle(now) => Receive(d, now)
  }

  lemma StepKeeps(d: Daemon, e: Event)
    requires Inv(d) && Allowed(d, e)
    ensures Inv(Step(d, e))
  {
    hide Inv, ProcessTimer, Receive;
    match e
    case Post(c) => SentInv(d, c);
    case Process(now) => ProcessTimerKeeps(d, now);
    case Handle(now) => ReceiveKeeps(d, now);
  }

  ghost predicate ValidRun(d: Daemon, es: seq<Event>)
    requires Inv(d)
    decreases |es|
  {
    es == [] || (Allowed(d, es[0]) && (StepKeeps(d, es[0]); ValidRun(Step(d, es[0]), es[1..])))
  }

  ghost function Run(d: Daemon, es: seq<Event>): (d': Daemon)
    requires Inv(d) && ValidRun(d, es)
    ensures Inv(d')
    decreases |es|
  {
    if es == [] then d else (StepKeeps(d, es[0]); Run(Step(d, es[0]), es[1..]))
  }

  // ---- The schedule of one timer -------------------------------------------------------------

  /** The expiry times for which timer `t` was called, in order. */
  ghost function Calls(log: seq<Call>, t: Timer): seq<nat> {
    if log == [] then []
    else Calls(log[..|log| - 1], t) + (if log[|log| - 1].t == t then [log[|log| - 1].due] else [])
  }

  ghost function Commands(queue: seq<Command>, t: Timer): seq<Command> {
    if queue == [] then []
    else Commands(queue[..|queue| - 1], t) + (if queue[|queue| - 1].t == t then [queue[|queue| - 1]] else [])
  }

  lemma CallsAppend(d: Daemon, x: Timer, due: nat, now: nat, t: Timer)
    ensures Calls(Called(d, x, due, now).log, t) == Calls(d.log, t) + if x == t then [due] else []
  {
    assert (d.log + [Call(x, due, now)])[..|d.log|] == d.log;
  }

  lemma CommandsAppend(d: Daemon, c: Command, t: Timer)
    ensures Commands(Send(d, c).queue, t) == Commands(d.queue, t) + if c.t == t then [c] else []
  {
    assert (d.queue + [c])[..|d.queue|] == d.queue;
  }

  lemma {:induction false} CommandsHead(queue: seq<Command>, t: Timer)
    requires queue != []
    ensures Commands(queue, t) == (if queue[0].t == t then [queue[0]] else []) + Commands(queue[1..], t)
  {
    if |queue| > 1 {
      var front := queue[..|queue| - 1];
      CommandsHead(front, t);
      assert front[1..] == queue[1..][..|queue| - 2];
    } else {
      assert queue[..0] == [] && queue[1..] == [];
    }
  }

  ghost predicate Listed(d: Daemon, t: Timer) {
    t in d.current || t in d.overflow
  }

  /** The next callback of auto-reload timer `t` will be for time `next`. */
  ghost predicate Awaits(d: Daemon, t: Timer, next: nat) {
    t in d.auto && Armed(d, t, next)
  }

  /** Timer `t` is in a list with expiry time `next`, or is being started for it by the one
      command for it. */
  ghost predicate Armed(d: Daemon, t: Timer, next: nat) {
    && t in d.period
    && if Listed(d, t) then t in d.due && d.due[t] == next && Commands(d.queue, t) == []
       else |Commands(d.queue, t)| == 1 && Commands(d.queue, t)[0].op.Start?
            && Time(Commands(d.queue, t)[0].epoch, Commands(d.queue, t)[0].value) + d.period[t] == next
  }

  /** The time `n` periods after `c0`. */
  ghost function Nth(c0: nat, p: nat, n: nat): nat {
    if n == 0 then c0 else Nth(c0, p, n - 1) + p
  }

  lemma {:induction false} NthIsProduct(c0: nat, p: nat, n: nat)
    ensures Nth(c0, p, n) == c0 + n * p
  {
    if n > 0 {
      NthIsProduct(c0, p, n - 1);
    }
  }

  /** The calls since those in `before` were for the first expiries after `c0`, one each, and the
      next one is awaited. */
  ghost predicate OnSchedule(d: Daemon, t: Timer, before: seq<nat>, c0: nat) {
    && t in d.period && before <= Calls(d.log, t)
    && (forall k :: |before| <= k < |Calls(d.log, t)| ==>
          Calls(d.log, t)[k] == Nth(c0, d.period[t], k - |before| + 1))
    && Awaits(d, t, Next(d, t, before, c0))
  }

  ghost function Next(d: Daemon, t: Timer, before: seq<nat>, c0: nat): nat
    requires t in d.period && before <= Calls(d.log, t)
  {
    Nth(c0, d.period[t], |Calls(d.log, t)| - |before| + 1)
  }

  /** Between being taken from the queue and being inserted, timer `t` is nowhere. */
  ghost predicate InFlight(d: Daemon, t: Timer) {
    !Listed(d, t) && Commands(d.queue, t) == []
  }

  /** A step that calls `t` for the awaited time and then awaits the next one, or does neither. */
  lemma Advances(d: Daemon, d': Daemon, t: Timer, before: seq<nat>, c0: nat)
    requires OnSchedule(d, t, before, c0) && t in d'.period && d'.period[t] == d.period[t]
    requires || (Calls(d'.log, t) == Calls(d.log, t) && Awaits(d', t, Next(d, t, before, c0)))
             || (Calls(d'.log, t) == Calls(d.log, t) + [Next(d, t, before, c0)]
                 && Awaits(d', t, Next(d, t, before, c0) + d.period[t]))
    ensures OnSchedule(d', t, before, c0)
  {
  }

  // ---- Steps keep the schedule ---------------------------------------------------------------

  lemma FlushOneCommands(d: Daemon, now: nat, t: Timer)
    requires Inv(d) && d.current != []
    ensures var x := d.current[0]; var d' := FlushOne(d, now);
            && d'.period == d.period && d'.auto == d.auto && d'.overflow == d.overflow
            && Calls(d'.log, t) == Calls(d.log, t) + (if x == t then [d.due[t]] else [])
            && (x != t ==> Commands(d'.queue, t) == Commands(d.queue, t))
            && (x == t && t in d.auto ==>
                  if t in d'.current then t in d'.due && d'.due[t] == d.due[t] + d.period[t] && d'.queue == d.queue
                  else Commands(d'.queue, t) == Commands(d.queue, t) + [Command(t, Start, d.value[t], d.epoch)])
            && (x == t && t !in d.auto ==> !Listed(d', t) && d'.queue == d.queue)
  {
    HeadGone(d);
    hide Inv, InOrder, Reload, Calls, Commands;
    var x := d.current[0];
    var d1 := d.(current := d.current[1..]);
    CallsAppend(d1, x, d.due[x], now, t);
    var e, p := d.value[x], d.period[x];
    if x in d.auto {
      if Plus(e, p) > e {
        FlushOneReloads(d, now);
      } else {
        CommandsAppend(Called(d1, x, d.due[x], now), Command(x, Start, e, d.epoch), t);
      }
    }
  }

  lemma FlushOneOnSchedule(d: Daemon, now: nat, t: Timer, before: seq<nat>, c0: nat)
    requires Inv(d) && d.current != [] && OnSchedule(d, t, before, c0)
    ensures OnSchedule(FlushOne(d, now), t, before, c0)
  {
    HeadGone(d);
    hide Inv, InOrder, FlushOne, Calls, Commands;
    FlushOneCommands(d, now, t);
    FlushOneMembers(d, now);
    Advances(d, FlushOne(d, now), t, before, c0);
  }

  lemma {:induction false} FlushOnSchedule(d: Daemon, now: nat, t: Timer, before: seq<nat>, c0: nat)
    requires Inv(d) && d.epoch * WRAP + MAX_DELAY < now && OnSchedule(d, t, before, c0)
    ensures OnSchedule(Flush(d, now), t, before, c0)
    decreases Left(d.current, d.value)
  {
    hide Inv, FlushOne, OnSchedule;
    if d.current != [] {
      FlushOneKeeps(d, now);
      FlushOneOnSchedule(d, now, t, before, c0);
      FlushOnSchedule(FlushOne(d, now), now, t, before, c0);
    }
  }

  lemma {:induction false} FlushInFlight(d: Daemon, now: nat, t: Timer)
    requires Inv(d) && d.epoch * WRAP + MAX_DELAY < now && InFlight(d, t)
    ensures InFlight(Flush(d, now), t) && Calls(Flush(d, now).log, t) == Calls(d.log, t)
    decreases Left(d.current, d.value)
  {
    hide Inv, FlushOne, Calls, Commands;
    if d.current != [] {
      FlushOneKeeps(d, now);
      FlushOneCommands(d, now, t);
      FlushOneMembers(d, now);
      FlushInFlight(FlushOne(d, now), now, t);
    }
  }

  lemma SwappedOnSchedule(d: Daemon, d': Daemon, t: Timer, before: seq<nat>, c0: nat)
    requires OnSchedule(d, t, before, c0)
    requires d' == d.(current := d'.current, overflow := d'.overflow, epoch := d'.epoch, last := d'.last)
    requires Listed(d', t) <==> Listed(d, t)
    ensures OnSchedule(d', t, before, c0)
  {
  }

  lemma SampleOnSchedule(d: Daemon, now: nat, t: Timer, before: seq<nat>, c0: nat)
    requires Inv(d) && SampleInTime(d, now) && OnSchedule(d, t, before, c0)
    ensures OnSchedule(Sample(d, now).0, t, before, c0)
  {
    WrapIsSeen(d, now);
    hide Inv, OnSchedule, Flush, Low;
    if Low(now) < d.last {
      FlushOnSchedule(d, now, t, before, c0);
      FlushKeeps(d, now);
      SwappedOnSchedule(Flush(d, now), Sample(d, now).0, t, before, c0);
    } else {
      SwappedOnSchedule(d, Sample(d, now).0, t, before, c0);
    }
  }

  lemma SampleInFlight(d: Daemon, now: nat, t: Timer)
    requires Inv(d) && SampleInTime(d, now) && InFlight(d, t)
    ensures InFlight(Sample(d, now).0, t) && Calls(Sample(d, now).0.log, t) == Calls(d.log, t)
  {
    WrapIsSeen(d, now);
    hide Inv, Flush, Calls, Commands, Low;
    if Low(now) < d.last {
      FlushInFlight(d, now, t);
      FlushKeeps(d, now);
    }
  }

  lemma ProcessExpiredOther(d: Daemon, e: nat, now: nat, t: Timer)
    requires Inv(d) && d.current != [] && e == d.value[d.current[0]] && e <= d.last && now == Sampled(d)
    requires d.current[0] != t
    ensures var d' := ProcessExpired(d, e, now);
            && d'.period == d.period && d'.auto == d.auto
            && Calls(d'.log, t) == Calls(d.log, t) && Commands(d'.queue, t) == Commands(d.queue, t)
            && (Listed(d', t) <==> Listed(d, t)) && (t in d.due ==> t in d'.due && d'.due[t] == d.due[t])
  {
    hide Inv, Insert, Calls, Commands;
    HeadGone(d);
    InvBounds(d);
    var x := d.current[0];
    var d1 := d.(current := d.current[1..]);
    InvBounds(d1);
    if x !in d.auto {
      CallsAppend(d1, x, d.due[x], now, t);
    } else {
      InsertKeeps(d1, x, d.epoch, e);
      var (d2, processNow) := Insert(d1, x, Plus(e, d.period[x]), d.last, e, d.due[x] + d.period[x]);
      CommandsAppend(d2, Command(x, Start, e, d.epoch), t);
      CallsAppend(if processNow then Send(d2, Command(x, Start, e, d.epoch)) else d2, x, d.due[x], now, t);
    }
  }

  lemma ProcessExpiredOwn(d: Daemon, e: nat, now: nat, t: Timer)
    requires Inv(d) && d.current != [] && e == d.value[d.current[0]] && e <= d.last && now == Sampled(d)
    requires d.current[0] == t
    ensures var d' := ProcessExpired(d, e, now);
            && d'.period == d.period && d'.auto == d.auto
            && Calls(d'.log, t) == Calls(d.log, t) + [d.due[t]]
            && (t !in d.auto ==> !Listed(d', t) && d'.queue == d.queue)
            && (t in d.auto ==>
                  if Listed(d', t) then t in d'.due && d'.due[t] == d.due[t] + d.period[t] && d'.queue == d.queue
                  else Commands(d'.queue, t) == Commands(d.queue, t) + [Command(t, Start, e, d.epoch)])
  {
    hide Inv, Insert, Calls, Commands;
    HeadGone(d);
    InvBounds(d);
    var x := d.current[0];
    var d1 := d.(current := d.current[1..]);
    InvBounds(d1);
    if x !in d.auto {
      CallsAppend(d1, x, d.due[x], now, t);
    } else {
      InsertKeeps(d1, x, d.epoch, e);
      var (d2, processNow) := Insert(d1, x, Plus(e, d.period[x]), d.last, e, d.due[x] + d.period[x]);
      CommandsAppend(d2, Command(x, Start, e, d.epoch), t);
      CallsAppend(if processNow then Send(d2, Command(x, Start, e, d.epoch)) else d2, x, d.due[x], now, t);
    }
  }

  lemma ProcessExpiredOnSchedule(d: Daemon, e: nat, now: nat, t: Timer, before: seq<nat>, c0: nat)
    requires Inv(d) && d.current != [] && e == d.value[d.current[0]] && e <= d.last && now == Sampled(d)
    requires OnSchedule(d, t, before, c0)
    ensures OnSchedule(ProcessExpired(d, e, now), t, before, c0)
  {
    HeadGone(d);
    hide Inv, ProcessExpired, Calls, Commands;
    if d.current[0] == t {
      ProcessExpiredOwn(d, e, now, t);
    } else {
      ProcessExpiredOther(d, e, now, t);
    }
    Advances(d, ProcessExpired(d, e, now), t, before, c0);
  }

  lemma ProcessOnSchedule(d: Daemon, now: nat, t: Timer, before: seq<nat>, c0: nat)
    requires Inv(d) && SampleInTime(d, now) && OnSchedule(d, t, before, c0)
    ensures OnSchedule(ProcessTimer(d, now), t, before, c0)
  {
    SampleKeeps(d, now);
    SampleOnSchedule(d, now, t, before, c0);
    hide InOrder, OnSchedule, Sample, ProcessExpired, Low;
    var (d1, switched) := Sample(d, now);
    if !switched && d.current != [] && d.value[d.current[0]] <= Low(now) {
      ProcessExpiredOnSchedule(d1, d.value[d.current[0]], now, t, before, c0);
    }
  }

  /** Handling the command that timer `t` was waiting for. */
  lemma ExecuteOwn(d: Daemon, c: Command, now: nat, t: Timer)
    requires Inv(d) && CommandOk(d, c) && now == Sampled(d) && HandledInTime(c, now)
    requires c.t == t && c.op.Start? && InFlight(d, t) && t in d.auto
    ensures var next := Time(c.epoch, c.value) + d.period[t]; var d' := Execute(d, c, now);
            && d'.period == d.period
            && (|| (Calls(d'.log, t) == Calls(d.log, t) && Awaits(d', t, next))
                || (Calls(d'.log, t) == Calls(d.log, t) + [next] && Awaits(d', t, next + d.period[t])))
  {
    hide InOrder, Insert, Calls, Commands;
    InsertKeeps(d, t, c.epoch, c.value);
    var p := d.period[t];
    var next := Time(c.epoch, c.value) + p;
    var (d1, processNow) := Insert(d, t, Plus(c.value, p), d.last, c.value, next);
    if processNow {
      CallsAppend(d1, t, next, now, t);
      var c' := Command(t, Start, Plus(c.value, p), if c.value + p < WRAP then c.epoch else c.epoch + 1);
      PlusIsTime(c.epoch, c.value, p);
      CommandsAppend(Called(d1, t, next, now), c', t);
    }
  }

  /** Handling a command for another timer does not touch `t`. */
  lemma ExecuteOtherParts(d: Daemon, c: Command, now: nat, t: Timer)
    requires Inv(d) && CommandOk(d, c) && now == Sampled(d) && HandledInTime(c, now)
    requires c.t != t && c.t !in d.current && c.t !in d.overflow
    ensures var d' := Execute(d, c, now);
            && Calls(d'.log, t) == Calls(d.log, t) && Commands(d'.queue, t) == Commands(d.queue, t)
            && (Listed(d', t) <==> Listed(d, t)) && (t in d.due ==> t in d'.due && d'.due[t] == d.due[t])
            && d'.auto == d.auto && (t in d.period ==> t in d'.period && d'.period[t] == d.period[t])
  {
    hide ListOk, Insert, Calls, Commands;
    match c.op
    case Start => StartOtherParts(d, c, now, t);
    case Stop =>
    case Delete =>
    case ChangePeriod =>
      NewPeriodInv(d, c.t, c.value);
      InsertKeeps(d.(period := d.period[c.t := c.value]), c.t, d.epoch, d.last);
  }

  lemma StartOtherParts(d: Daemon, c: Command, now: nat, t: Timer)
    requires Inv(d) && CommandOk(d, c) && now == Sampled(d) && HandledInTime(c, now) && c.op.Start?
    requires c.t != t && c.t !in d.current && c.t !in d.overflow
    ensures var d' := Execute(d, c, now);
            && Calls(d'.log, t) == Calls(d.log, t) && Commands(d'.queue, t) == Commands(d.queue, t)
            && (Listed(d', t) <==> Listed(d, t)) && (t in d.due ==> t in d'.due && d'.due[t] == d.due[t])
            && d'.auto == d.auto && d'.period == d.period
  {
    hide Inv, Insert, Calls, Commands, Time;
    InvBounds(d);
    InsertKeeps(d, c.t, c.epoch, c.value);
    var p := d.period[c.t];
    var due := Time(c.epoch, c.value) + p;
    var d1 := Insert(d, c.t, Plus(c.value, p), d.last, c.value, due).0;
    CallsAppend(d1, c.t, due, now, t);
    CommandsAppend(Called(d1, c.t, due, now),
                   Command(c.t, Start, Plus(c.value, p), if c.value + p < WRAP then c.epoch else c.epoch + 1), t);
  }

  lemma ExecuteOther(d: Daemon, c: Command, now: nat, t: Timer, before: seq<nat>, c0: nat)
    requires Inv(d) && CommandOk(d, c) && now == Sampled(d) && HandledInTime(c, now)
    requires c.t != t && c.t !in d.current && c.t !in d.overflow && OnSchedule(d, t, before, c0)
    ensures OnSchedule(Execute(d, c, now), t, before, c0)
  {
    hide Inv, Execute, Calls, Commands;
    ExecuteOtherParts(d, c, now, t);
    Advances(d, Execute(d, c, now), t, before, c0);
  }

  lemma HandleOther(d: Daemon, now: nat, t: Timer, before: seq<nat>, c0: nat)
    requires Inv(d) && Allowed(d, Handle(now)) && OnSchedule(d, t, before, c0) && d.queue[0].t != t
    ensures OnSchedule(Receive(d, now), t, before, c0)
  {
    hide Inv, Calls, Commands, Sample, Execute;
    DetachKeeps(d);
    DetachOther(d, t, before, c0);
    SampleKeeps(Detach(d), now);
    SampleOnSchedule(Detach(d), now, t, before, c0);
    FlushLeavesOut(Detach(d), now, d.queue[0].t);
    ExecuteOther(Sample(Detach(d), now).0, d.queue[0], now, t, before, c0);
  }

  lemma DetachOther(d: Daemon, t: Timer, before: seq<nat>, c0: nat)
    requires Inv(d) && d.queue != [] && OnSchedule(d, t, before, c0) && d.queue[0].t != t
    ensures OnSchedule(Detach(d), t, before, c0)
  {
    CommandsHead(d.queue, t);
    WithoutInOrder(d.current, d.value, d.queue[0].t);
    WithoutInOrder(d.overflow, d.value, d.queue[0].t);
    hide Inv, InOrder, Without, Calls, Commands;
    Advances(d, Detach(d), t, before, c0);
  }

  lemma HandleOwn(d: Daemon, now: nat, t: Timer, before: seq<nat>, c0: nat)
    requires Inv(d) && Allowed(d, Handle(now)) && OnSchedule(d, t, before, c0) && d.queue[0].t == t
    ensures OnSchedule(Receive(d, now), t, before, c0)
  {
    hide Inv, Calls, Commands, Sample, Execute;
    DetachKeeps(d);
    CommandsHead(d.queue, t);
    SampleKeeps(Detach(d), now);
    SampleInFlight(Detach(d), now, t);
    ExecuteOwn(Sample(Detach(d), now).0, d.queue[0], now, t);
    Advances(d, Receive(d, now), t, before, c0);
  }

  lemma PostOther(d: Daemon, c: Command, t: Timer, before: seq<nat>, c0: nat)
    requires OnSchedule(d, t, before, c0) && c.t != t
    ensures OnSchedule(Send(d, c), t, before, c0)
  {
    hide Calls, Commands;
    CommandsAppend(d, c, t);
    Advances(d, Send(d, c), t, before, c0);
  }

  // ---- One-shot and stopped timers -----------------------------------------------------------

  /** One-shot timer `t` is armed for time `next`, or has been called for it and is dormant.
      `before` are the calls made earlier. */
  ghost predicate Once(d: Daemon, t: Timer, before: seq<nat>, next: nat) {
    && t in d.period && t !in d.auto
    && ((Calls(d.log, t) == before && Armed(d, t, next)) || (Calls(d.log, t) == before + [next] && InFlight(d, t)))
  }

  /** Timer `t` is in no list and in no command, and has not been called since. */
  ghost predicate Silent(d: Daemon, t: Timer, before: seq<nat>) {
    InFlight(d, t) && Calls(d.log, t) == before
  }

  lemma FlushOneOnce(d: Daemon, now: nat, t: Timer, before: seq<nat>, next: nat)
    requires Inv(d) && d.current != [] && Once(d, t, before, next)
    ensures Once(FlushOne(d, now), t, before, next)
  {
    HeadGone(d);
    hide Inv, InOrder, FlushOne, Calls, Commands, Once;
    FlushOneCommands(d, now, t);
    FlushOneMembers(d, now);
    if d.current[0] == t {
      OnceFires(d, FlushOne(d, now), t, before, next);
    } else {
      assert Calls(d.log, t) + [] == Calls(d.log, t);
      OnceWaits(d, FlushOne(d, now), t, before, next);
    }
  }

  lemma OnceFires(d: Daemon, d': Daemon, t: Timer, before: seq<nat>, next: nat)
    requires Once(d, t, before, next) && Listed(d, t) && t in d.due && t in d'.period && t !in d'.auto
    requires Calls(d'.log, t) == Calls(d.log, t) + [d.due[t]] && !Listed(d', t)
    requires Commands(d'.queue, t) == Commands(d.queue, t)
    ensures Once(d', t, before, next)
  {
  }

  lemma OnceWaits(d: Daemon, d': Daemon, t: Timer, before: seq<nat>, next: nat)
    requires Once(d, t, before, next) && t in d'.period && d'.period[t] == d.period[t] && t !in d'.auto
    requires Calls(d'.log, t) == Calls(d.log, t) && Commands(d'.queue, t) == Commands(d.queue, t)
    requires (Listed(d', t) <==> Listed(d, t)) && (t in d.due ==> t in d'.due && d'.due[t] == d.due[t])
    ensures Once(d', t, before, next)
  {
  }

  lemma {:induction false} FlushOnce(d: Daemon, now: nat, t: Timer, before: seq<nat>, next: nat)
    requires Inv(d) && d.epoch * WRAP + MAX_DELAY < now && Once(d, t, before, next)
    ensures Once(Flush(d, now), t, before, next)
    decreases Left(d.current, d.value)
  {
    hide Inv, FlushOne, Once;
    if d.current != [] {
      FlushOneKeeps(d, now);
      FlushOneOnce(d, now, t, before, next);
      FlushOnce(FlushOne(d, now), now, t, before, next);
    }
  }

  lemma SwappedOnce(d: Daemon, d': Daemon, t: Timer, before: seq<nat>, next: nat)
    requires Once(d, t, before, next)
    requires d' == d.(current := d'.current, overflow := d'.overflow, epoch := d'.epoch, last := d'.last)
    requires Listed(d', t) <==> Listed(d, t)
    ensures Once(d', t, before, next)
  {
  }

  lemma SampleOnce(d: Daemon, now: nat, t: Timer, before: seq<nat>, next: nat)
    requires Inv(d) && SampleInTime(d, now) && Once(d, t, before, next)
    ensures Once(Sample(d, now).0, t, before, next)
  {
    WrapIsSeen(d, now);
    hide Inv, Once, Flush, Low;
    if Low(now) < d.last {
      FlushOnce(d, now, t, before, next);
      FlushKeeps(d, now);
      SwappedOnce(Flush(d, now), Sample(d, now).0, t, before, next);
    } else {
      SwappedOnce(d, Sample(d, now).0, t, before, next);
    }
  }

  lemma ProcessOnce(d: Daemon, now: nat, t: Timer, before: seq<nat>, next: nat)
    requires Inv(d) && SampleInTime(d, now) && Once(d, t, before, next)
    ensures Once(ProcessTimer(d, now), t, before, next)
  {
    SampleKeeps(d, now);
    SampleOnce(d, now, t, before, next);
    hide InOrder, Sample, ProcessExpired, Low, Calls, Commands, Once;
    var (d1, switched) := Sample(d, now);
    if !switched && d.current != [] && d.value[d.current[0]] <= Low(now) {
      HeadGone(d1);
      if d1.current[0] == t {
        ProcessExpiredOwn(d1, d.value[d.current[0]], now, t);
        OnceFires(d1, ProcessTimer(d, now), t, before, next);
      } else {
        ProcessExpiredOther(d1, d.value[d.current[0]], now, t);
        OnceWaits(d1, ProcessTimer(d, now), t, before, next);
      }
    }
  }

  lemma ExecuteOwnOnce(d: Daemon, c: Command, now: nat, t: Timer, before: seq<nat>)
    requires Inv(d) && CommandOk(d, c) && now == Sampled(d) && HandledInTime(c, now)
    requires c.t == t && c.op.Start? && Silent(d, t, before) && t !in d.auto
    ensures Once(Execute(d, c, now), t, before, Time(c.epoch, c.value) + d.period[t])
  {
    hide InOrder, Insert, Calls, Commands;
    InsertKeeps(d, t, c.epoch, c.value);
    var next := Time(c.epoch, c.value) + d.period[t];
    var d1 := Insert(d, t, Plus(c.value, d.period[t]), d.last, c.value, next).0;
    CallsAppend(d1, t, next, now, t);
  }

  lemma DetachParts(d: Daemon, t: Timer)
    requires Inv(d) && d.queue != []
    ensures d.queue[0].t != t ==>
              Commands(Detach(d).queue, t) == Commands(d.queue, t) && (Listed(Detach(d), t) <==> Listed(d, t))
    ensures d.queue[0].t == t ==>
              Commands(d.queue, t) == [d.queue[0]] + Commands(Detach(d).queue, t) && !Listed(Detach(d), t)
  {
    CommandsHead(d.queue, t);
    WithoutInOrder(d.current, d.value, d.queue[0].t);
    WithoutInOrder(d.overflow, d.value, d.queue[0].t);
    hide Inv, InOrder, Without, Calls, Commands;
  }

  lemma HandleOnce(d: Daemon, now: nat, t: Timer, before: seq<nat>, next: nat)
    requires Inv(d) && Allowed(d, Handle(now)) && Once(d, t, before, next)
    ensures Once(Receive(d, now), t, before, next)
  {
    hide Inv, Calls, Commands, Sample, Execute;
    DetachKeeps(d);
    DetachParts(d, t);
    SampleKeeps(Detach(d), now);
    if d.queue[0].t == t {
      SampleInFlight(Detach(d), now, t);
      ExecuteOwnOnce(Sample(Detach(d), now).0, d.queue[0], now, t, before);
    } else {
      SampleOnce(Detach(d), now, t, before, next);
      FlushLeavesOut(Detach(d), now, d.queue[0].t);
      ExecuteOtherParts(Sample(Detach(d), now).0, d.queue[0], now, t);
    }
  }

  lemma PostOnce(d: Daemon, c: Command, t: Timer, before: seq<nat>, next: nat)
    requires Once(d, t, before, next) && c.t != t
    ensures Once(Send(d, c), t, before, next)
  {
    hide Calls, Commands;
    CommandsAppend(d, c, t);
  }

  lemma StepSilent(d: Daemon, e: Event, t: Timer, before: seq<nat>)
    requires Inv(d) && Allowed(d, e) && Silent(d, t, before) && (e.Post? ==> e.c.t != t)
    ensures Silent(Step(d, e), t, before)
  {
    hide Calls, Commands, Sample, Execute, ProcessExpired, InOrder, Low;
    match e
    case Post(c) => CommandsAppend(d, c, t);
    case Process(now) =>
      SampleKeeps(d, now);
      SampleInFlight(d, now, t);
      var (d1, switched) := Sample(d, now);
      if !switched && d.current != [] && d.value[d.current[0]] <= Low(now) {
        assert d.current[0] in d.current;
        ProcessExpiredOther(d1, d.value[d.current[0]], now, t);
      }
    case Handle(now) =>
      DetachKeeps(d);
      DetachParts(d, t);
      SampleKeeps(Detach(d), now);
      SampleInFlight(Detach(d), now, t);
      FlushLeavesOut(Detach(d), now, d.queue[0].t);
      ExecuteOtherParts(Sample(Detach(d), now).0, d.queue[0], now, t);
  }

  // ---- The theorems --------------------------------------------------------------------------

  /** No other command is sent for timer `t`. */
  ghost predicate LeftAlone(es: seq<Event>, t: Timer) {
    forall e :: e in es && e.Post? ==> e.c.t != t
  }

  lemma {:induction false} StaysOnSchedule(d: Daemon, es: seq<Event>, t: Timer, before: seq<nat>, c0: nat)
    requires Inv(d) && ValidRun(d, es) && LeftAlone(es, t) && OnSchedule(d, t, before, c0)
    ensures OnSchedule(Run(d, es), t, before, c0)
    decreases |es|
  {
    hide Inv, OnSchedule, ProcessTimer, Receive;
    if es != [] {
      StepKeeps(d, es[0]);
      assert es[0] in es;
      match es[0] {
        case Post(c) => PostOther(d, c, t, before, c0);
        case Process(now) => ProcessOnSchedule(d, now, t, before, c0);
        case Handle(now) =>
          if d.queue[0].t == t { HandleOwn(d, now, t, before, c0); } else { HandleOther(d, now, t, before, c0); }
      }
      assert forall e :: e in es[1..] ==> e in es;
      StaysOnSchedule(Step(d, es[0]), es[1..], t, before, c0);
    }
  }

  lemma StartsOnSchedule(d: Daemon, t: Timer, epoch: nat, value: nat)
    requires t in d.auto && t in d.period && InFlight(d, t)
    ensures OnSchedule(Send(d, Command(t, Start, value, epoch)), t, Calls(d.log, t), Time(epoch, value))
  {
    CommandsAppend(d, Command(t, Start, value, epoch), t);
    FirstTwo(Time(epoch, value), d.period[t]);
  }

  lemma FirstTwo(c0: nat, p: nat)
    ensures Nth(c0, p, 1) == c0 + p && Nth(c0, p, 2) == c0 + p + p
  {
    assert Nth(c0, p, 0) == c0;
  }

  /** The daemon has nothing left to do at its last sampled time and blocks. */
  ghost predicate Idle(d: Daemon)
    requires Inv(d)
  {
    d.queue == [] && (d.current == [] || d.last < d.value[d.current[0]])
  }

  /** The calls of timer `t` after those in `before` are for c0 + p, c0 + 2p, ..., one each in this
      order; no call of any timer was early; and if the daemon is blocked, every expiry up to then
      has been called. */
  ghost predicate Punctual(d: Daemon, t: Timer, before: seq<nat>, c0: nat)
    requires Inv(d)
  {
    && t in d.period && before <= Calls(d.log, t)
    && var n, p := |Calls(d.log, t)| - |before|, d.period[t];
       && (forall k :: |before| <= k < |before| + n ==> Calls(d.log, t)[k] == c0 + (k - |before| + 1) * p)
       && (forall x :: x in d.log ==> x.due <= x.at)
       && (Idle(d) ==> Sampled(d) < c0 + (n + 1) * p)
  }

  /** An auto-reload timer started by a command at time c0 does not drift, through late processing,
      immediate processing, list switches and tick wraps. */
  lemma NoDrift(d: Daemon, t: Timer, epoch: nat, value: nat, es: seq<Event>)
    requires Inv(d) && t in d.auto && t in d.period && value < WRAP && InFlight(d, t)
    requires LeftAlone(es, t)
    requires var c := Command(t, Start, value, epoch); (SentInv(d, c); ValidRun(Send(d, c), es))
    ensures var c := Command(t, Start, value, epoch);
            (SentInv(d, c); Punctual(Run(Send(d, c), es), t, Calls(d.log, t), Time(epoch, value)))
  {
    var c := Command(t, Start, value, epoch);
    SentInv(d, c);
    StartsOnSchedule(d, t, epoch, value);
    StaysOnSchedule(Send(d, c), es, t, Calls(d.log, t), Time(epoch, value));
    Schedule(Run(Send(d, c), es), t, Calls(d.log, t), Time(epoch, value));
  }

  /** A start or reset of an auto-reload timer, running or not: from the moment the daemon handles
      the command, the schedule is the one counted from the command's time and nothing of an earlier
      schedule is left. */
  lemma ResetRestartsSchedule(d: Daemon, now: nat, t: Timer, es: seq<Event>)
    requires Inv(d) && Allowed(d, Handle(now)) && t in d.auto && LeftAlone(es, t)
    requires d.queue[0].t == t && d.queue[0].op.Start? && |Commands(d.queue, t)| == 1
    requires (ReceiveKeeps(d, now); ValidRun(Receive(d, now), es))
    ensures var c := d.queue[0];
            (ReceiveKeeps(d, now); Punctual(Run(Receive(d, now), es), t, Calls(d.log, t), Time(c.epoch, c.value)))
  {
    var c, before := d.queue[0], Calls(d.log, t);
    ReceiveKeeps(d, now);
    RestartedOnSchedule(d, now, t);
    StaysOnSchedule(Receive(d, now), es, t, before, Time(c.epoch, c.value));
    Schedule(Run(Receive(d, now), es), t, before, Time(c.epoch, c.value));
  }

  lemma RestartedOnSchedule(d: Daemon, now: nat, t: Timer)
    requires Inv(d) && Allowed(d, Handle(now)) && t in d.auto
    requires d.queue[0].t == t && d.queue[0].op.Start? && |Commands(d.queue, t)| == 1
    ensures OnSchedule(Receive(d, now), t, Calls(d.log, t), Time(d.queue[0].epoch, d.queue[0].value))
  {
    hide Inv, Calls, Commands, Sample, Execute;
    DetachKeeps(d);
    DetachParts(d, t);
    SampleKeeps(Detach(d), now);
    SampleInFlight(Detach(d), now, t);
    var d1, c := Sample(Detach(d), now).0, d.queue[0];
    ExecuteOwn(d1, c, now, t);
    FirstTwo(Time(c.epoch, c.value), d1.period[t]);
  }

  lemma Schedule(d: Daemon, t: Timer, before: seq<nat>, c0: nat)
    requires Inv(d) && OnSchedule(d, t, before, c0)
    ensures Punctual(d, t, before, c0)
  {
    var n, p := |Calls(d.log, t)| - |before|, d.period[t];
    forall k | |before| <= k < |before| + n ensures Calls(d.log, t)[k] == c0 + (k - |before| + 1) * p {
      NthIsProduct(c0, p, k - |before| + 1);
    }
    NthIsProduct(c0, p, n + 1);
    IdleArmed(d, t, Nth(c0, p, n + 1));
  }

  lemma {:induction false} StaysOnce(d: Daemon, es: seq<Event>, t: Timer, before: seq<nat>, next: nat)
    requires Inv(d) && ValidRun(d, es) && LeftAlone(es, t) && Once(d, t, before, next)
    ensures Once(Run(d, es), t, before, next)
    decreases |es|
  {
    hide Inv, Once, ProcessTimer, Receive;
    if es != [] {
      StepKeeps(d, es[0]);
      assert es[0] in es;
      match es[0] {
        case Post(c) => PostOnce(d, c, t, before, next);
        case Process(now) => ProcessOnce(d, now, t, before, next);
        case Handle(now) => HandleOnce(d, now, t, before, next);
      }
      assert forall e :: e in es[1..] ==> e in es;
      StaysOnce(Step(d, es[0]), es[1..], t, before, next);
    }
  }

  /** A one-shot timer of period p started by a command at time c0 is called at most once, for
      time c0 + p and not before it; and once the daemon has blocked at or after that time it has
      been called. */
  lemma OneShotFiresOnce(d: Daemon, t: Timer, epoch: nat, value: nat, es: seq<Event>)
    requires Inv(d) && t !in d.auto && t in d.period && value < WRAP && InFlight(d, t)
    requires LeftAlone(es, t)
    requires var c := Command(t, Start, value, epoch); (SentInv(d, c); ValidRun(Send(d, c), es))
    ensures var c := Command(t, Start, value, epoch);
            var d' := (SentInv(d, c); Run(Send(d, c), es));
            var due := Time(epoch, value) + d.period[t];
            && (Calls(d'.log, t) == Calls(d.log, t) || Calls(d'.log, t) == Calls(d.log, t) + [due])
            && (forall x :: x in d'.log ==> x.due <= x.at)
            && (Idle(d') && due <= Sampled(d') ==> Calls(d'.log, t) == Calls(d.log, t) + [due])
  {
    hide Inv, Run, ValidRun, Calls, Commands, LeftAlone;
    var d1 := Send(d, Command(t, Start, value, epoch));
    var due := Time(epoch, value) + d.period[t];
    SentInv(d, Command(t, Start, value, epoch));
    CommandsAppend(d, Command(t, Start, value, epoch), t);
    StaysOnce(d1, es, t, Calls(d.log, t), due);
    OnceEnds(Run(d1, es), t, Calls(d.log, t), due);
  }

  lemma OnceEnds(d: Daemon, t: Timer, before: seq<nat>, due: nat)
    requires Inv(d) && Once(d, t, before, due)
    ensures Calls(d.log, t) == before || Calls(d.log, t) == before + [due]
    ensures forall x :: x in d.log ==> x.due <= x.at
    ensures Idle(d) && due <= Sampled(d) ==> Calls(d.log, t) == before + [due]
  {
    hide Calls, Commands, ListOk, Armed, InFlight, Idle;
    if Armed(d, t, due) {
      IdleArmed(d, t, due);
    }
  }

  lemma IdleArmed(d: Daemon, t: Timer, next: nat)
    requires Inv(d) && Armed(d, t, next)
    ensures Idle(d) ==> Sampled(d) < next
  {
    if d.queue == [] && d.current != [] {
      TailInOrder(d.current, d.value);
    }
  }

  lemma {:induction false} StaysSilent(d: Daemon, es: seq<Event>, t: Timer, before: seq<nat>)
    requires Inv(d) && ValidRun(d, es) && LeftAlone(es, t) && Silent(d, t, before)
    ensures Silent(Run(d, es), t, before)
    decreases |es|
  {
    hide Inv, Silent, Step;
    if es != [] {
      StepKeeps(d, es[0]);
      assert es[0] in es;
      StepSilent(d, es[0], t, before);
      assert forall e :: e in es[1..] ==> e in es;
      StaysSilent(Step(d, es[0]), es[1..], t, before);
    }
  }

  /** Once the daemon has handled a stop command for a timer, the timer is not called again until
      it is started. */
  lemma StoppedTimerIsSilent(d: Daemon, now: nat, t: Timer, es: seq<Event>)
    requires Inv(d) && Allowed(d, Handle(now)) && d.queue[0].t == t && (d.queue[0].op.Stop? || d.queue[0].op.Delete?)
    requires |Commands(d.queue, t)| == 1
    requires LeftAlone(es, t) && (ReceiveKeeps(d, now); ValidRun(Receive(d, now), es))
    ensures (ReceiveKeeps(d, now); Calls(Run(Receive(d, now), es).log, t) == Calls(d.log, t))
  {
    hide Inv, Calls, Commands, Sample;
    DetachKeeps(d);
    DetachParts(d, t);
    SampleKeeps(Detach(d), now);
    SampleInFlight(Detach(d), now, t);
    ReceiveKeeps(d, now);
    StaysSilent(Receive(d, now), es, t, Calls(d.log, t));
  }
}
