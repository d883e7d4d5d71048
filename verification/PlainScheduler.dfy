/** The scheduler as its users see it: who is ready in what turns, who sleeps until when, who is
    suspended, ended or waits for what; with no bitmap, no tick wraps, no next unblock time and no
    item values. Every kernel call has a plain step here, to which `KernelRefinement` ties it. */
module PlainScheduler {
  import opened Options
  import opened Rings
  import opened TaskLists
  import opened PlainLists
  import opened Scheduler
  import opened KernelCalls

  datatype P = P(
    prio: map<Task, nat>,
    places: Places,
    waits: Waits,
    now: nat,             // ticks since the start
    current: Task,
    idle: Task,
    suspended: nat,       // how often the scheduler has been suspended and not resumed
    pended: nat,          // ticks not yet processed
    yieldPending: bool,
    request: bool
  )

  ghost function Priority(a: P, t: Task): nat {
    PriorityOf(a.prio, t)
  }

  ghost predicate Reaches(a: P, t: Task) {
    Priority(a, t) >= Priority(a, a.current)
  }

  ghost predicate IsReady(a: P, t: Task) {
    t in Everyone(ReadyAt(a.places, Priority(a, t)))
  }

  ghost predicate IsWaiting(a: P, t: Task) {
    t in a.waits.held || exists q: nat :: t in WaitingFor(a.waits, q)
  }

  /** Suspended by a call, and not for an indefinite wait for an event. */
  ghost predicate IsParked(a: P, t: Task) {
    t in a.places.parked && !IsWaiting(a, t)
  }

  function Clamped(p: nat): nat {
    if p >= MAX_PRIORITIES then MAX_PRIORITIES - 1 else p
  }

  /** The task waits for nothing any more and is ready, behind those ready before it. */
  ghost function MadeReady(a: P, t: Task): P {
    a.(places := InTurn(Gone(a.places, t), t, Priority(a, t)), waits := Quit(a.waits, t))
  }

  // ---- Ticks -------------------------------------------------------------------------------

  ghost function MadeReadyAll(a: P, ts: seq<Task>): P
    decreases |ts|
  {
    if ts == [] then a else MadeReadyAll(MadeReady(a, ts[0]), ts[1..])
  }

  /** Those who are due become ready, in the order of their wake times. */
  ghost function AfterTick(a: P): P {
    MadeReadyAll(a.(now := a.now + 1), DueTasks(a.places.sleeping, a.now + 1))
  }

  /** Whether a tick calls for a switch: one that became ready reaches the running task, another
      task of the running task's priority is ready, or a switch was missed. */
  ghost predicate TickSwitches(a: P) {
    || a.yieldPending
    || |Everyone(ReadyAt(AfterTick(a).places, Priority(a, a.current)))| > 1
    || exists t :: t in DueTasks(a.places.sleeping, a.now + 1) && Reaches(a, t)
  }

  ghost function TickNow(a: P): P {
    AfterTick(a).(yieldPending := TickSwitches(a))
  }

  ghost function TicksNow(a: P, n: nat): P
    decreases n
  {
    if n == 0 then a else TicksNow(TickNow(a), n - 1)
  }

  // ---- Calls -------------------------------------------------------------------------------

  ghost function Created(a: P, t: Task, p: nat): P {
    a.(prio := a.prio[t := Clamped(p)], places := InTurn(a.places, t, Clamped(p)),
       request := a.request || Clamped(p) > Priority(a, a.current))
  }

  /** The running task is freed later, by the idle task. */
  ghost function Deleted(a: P, t: Task): P {
    var places := Gone(a.places, t);
    var b := a.(waits := Quit(a.waits, t));
    if t == a.current then b.(places := places.(ended := places.ended + [t]), request := true)
    else b.(places := places, prio := a.prio - {t})
  }

  ghost function Freed(a: P): P {
    if a.places.ended == [] then a
    else a.(places := Gone(a.places, a.places.ended[0]), prio := a.prio - {a.places.ended[0]})
  }

  /** The running task sleeps, or is parked for an indefinite wait, and queues for the event. */
  ghost function Slept(a: P, ticks: nat, forever: bool, event: Option<nat>): P {
    var t, places := a.current, Gone(a.places, a.current);
    a.(places := if forever && ticks == MAX_DELAY then places.(parked := places.parked + [t])
                 else places.(sleeping := Bedded(places.sleeping, Sleeper(t, a.now + ticks))),
       waits := if event.None? then a.waits else QueuedFor(a, t, event.value))
  }

  ghost function QueuedFor(a: P, t: Task, q: nat): Waits {
    a.waits.(waiting := a.waits.waiting[q := Queued(WaitingFor(a.waits, q), a.prio, t)])
  }

  /** A ready task goes behind those ready at its new priority; any other stays where it is. */
  ghost function Regraded(a: P, t: Task, p: nat): P {
    a.(prio := a.prio[t := p], places := if IsReady(a, t) then InTurn(Gone(a.places, t), t, p) else a.places)
  }

  /** When another task is raised to the running task's priority or above, or the running task is
      lowered, a switch is asked for. */
  ghost function Reprioritised(a: P, t: Task, p: nat): P {
    var was, q := Priority(a, t), Clamped(p);
    if q == was then a
    else Regraded(a, t, q).(request := || a.request || (q < was && t == a.current)
                                       || (q > was && t != a.current && q >= Priority(a, a.current)))
  }

  ghost function Parked(a: P, t: Task): P {
    var places := Gone(a.places, t);
    a.(places := places.(parked := places.parked + [t]), waits := Quit(a.waits, t),
       request := a.request || t == a.current)
  }

  ghost function Unparked(a: P, t: Task): P {
    a.(places := InTurn(Gone(a.places, t), t, Priority(a, t)), request := a.request || Reaches(a, t))
  }

  ghost function Held(a: P, t: Task): P {
    a.(waits := a.waits.(held := a.waits.held + [t]))
  }

  /** The task that has waited longest of those of the highest priority is woken, or held while the
      scheduler is suspended. */
  ghost function Notified(a: P, q: nat): P {
    var ts := WaitingFor(a.waits, q);
    if ts == [] then a
    else
      var b := if a.suspended == 0 then MadeReady(a, ts[0]) else Held(a.(waits := Quit(a.waits, ts[0])), ts[0]);
      b.(yieldPending := a.yieldPending || Priority(a, ts[0]) > Priority(a, a.current))
  }

  ghost function Released(a: P, ts: seq<Task>): P
    decreases |ts|
  {
    if ts == [] then a
    else Released(MadeReady(a, ts[0]).(yieldPending := a.yieldPending || Reaches(a, ts[0])), ts[1..])
  }

  /** Those held become ready, in the order in which they were woken, and then the ticks that came
      meanwhile take effect one by one. */
  ghost function Resumed(a: P, yieldAfter: bool): P {
    if a.suspended != 1 then a.(suspended := if a.suspended == 0 then 0 else a.suspended - 1,
                                request := a.request || yieldAfter)
    else
      var b := TicksNow(Released(a.(suspended := 0), a.waits.held), a.pended);
      b.(pended := 0, request := b.request || b.yieldPending || yieldAfter)
  }

  ghost function TopReady(a: Places, p: nat): nat {
    if p == 0 || Everyone(ReadyAt(a, p)) != [] then p else TopReady(a, p - 1)
  }

  /** The next in turn of those ready at the highest priority. */
  ghost function NextOne(a: P): P {
    if a.suspended > 0 then a.(yieldPending := true, request := false)
    else
      var p := TopReady(a.places, MAX_PRIORITIES - 1);
      var r := NextTurn(ReadyAt(a.places, p));
      a.(places := a.places.(ready := a.places.ready[p := r]), yieldPending := false, request := false,
         current := if r.had == [] then a.current else r.had[|r.had| - 1])
  }

  ghost function PlainStep(a: P, c: Call): P {
    match c
    case CallCreate(t, p) => Created(a, t, p)
    case CallDelete(t) => Deleted(a, t)
    case CallBlock(ticks, forever, event) => Slept(a, ticks, forever, event)
    case CallPrioritySet(t, p) => Reprioritised(a, t, p)
    case CallSuspend(t) => Parked(a, t)
    case CallResetUnblockTime => a
    case CallResume(t) => if t != a.current && IsParked(a, t) then Unparked(a, t) else a
    case CallSuspendAll => a.(suspended := a.suspended + 1)
    case CallResumeAll(yieldAfter) => Resumed(a, yieldAfter)
    case CallYield => a.(request := true)
    case CallCleanUp => Freed(a)
    case IsrResume(t) => if !IsParked(a, t) then a else if a.suspended == 0 then Unparked(a, t) else Held(a, t)
    case AnyEvent(q) => Notified(a, q)
    case IsrTick =>
      if a.suspended > 0 then a.(pended := a.pended + 1, request := a.request || a.yieldPending)
      else AfterTick(a).(request := a.request || TickSwitches(a))
    case ContextSwitch => NextOne(a)
  }

  ghost function PlainRun(a: P, cs: seq<Call>): P
    decreases |cs|
  {
    if cs == [] then a else PlainRun(PlainStep(a, cs[0]), cs[1..])
  }
}
