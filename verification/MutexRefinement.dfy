/** What the mutex calls do to the scheduler, as plain steps: the holder goes behind those ready at its
    new priority, and giving wakes the first waiter. */
module MutexRefinement {
  import opened Options
  import opened Rings
  import opened TaskLists
  import opened PlainLists
  import opened PlainViews
  import opened PlainScheduler
  import opened Scheduler
  import opened Kernel
  import opened KernelCalls
  import opened KernelRuns
  import opened KernelEvents
  import opened KernelRefinement
  import opened Inheritance
  import opened MutexRuns

  /** The holder inherits the running task's priority if that is higher. */
  ghost function Inherited(a: P, h: Task): P {
    if Priority(a, h) < Priority(a, a.current) then Regraded(a, h, Priority(a, a.current)) else a
  }

  /** With its last mutex the running task goes back to its base priority. The first waiter is woken;
      only if nobody waits, a change of priority asks for a switch. */
  ghost function Given(a: P, q: nat, base: nat, last: bool): P {
    var drops := last && Priority(a, a.current) != base;
    var b := if drops then Regraded(a, a.current, base) else a;
    if WaitingFor(a.waits, q) != [] then Notified(b, q) else b.(request := a.request || drops)
  }

  ghost function PlainMutexStep(a: P, c: MutexCall): P {
    match c
    case Kernel(c) => PlainStep(a, c)
    case Inherits(h) => Inherited(a, h)
    case Gives(q, base, last) => Given(a, q, base, last)
    case GivesUp(h, p) => Regraded(a, h, p)
  }

  lemma MovePlain(k: K, t: Task, p: nat)
    requires Inv(k) && t in k.prio && p < MAX_PRIORITIES && p != k.prio[t]
    ensures Plain(Reprioritise(k, t, p)) == Regraded(Plain(k), t, p)
  {
    hide Inv, Reprioritise, IsReady, PlacesOf, WaitsOf, Gone, InTurn, WakeBounded;
    Stores(k);
    ReadyIs(k, t);
    ReprioritisePlain(k, t, p);
  }

  /** Whatever it does to the bitmap, the time-out moves the holder as any change of priority does. */
  lemma TimeoutPlain(k: K, h: Task, p: nat)
    requires Inv(k) && h in k.prio && p < MAX_PRIORITIES && p != k.prio[h]
    ensures Plain(TimeoutMove(k, h, p)) == Regraded(Plain(k), h, p)
  {
    hide Inv, Ok, At, IsReady, PlacesOf, WaitsOf, Gone, InTurn, WakeBounded, Take, PutEnd;
    Stores(k);
    ReadyIs(k, h);
    OwnList(k, h);
    ReadyMove(k.st, k.wake, k.delayed, k.overflow, k.epoch, h, p);
  }

  lemma GivePlain(k: K, q: nat, base: nat, last: bool)
    requires Inv(k) && base < MAX_PRIORITIES
    ensures Plain(GiveMove(k, q, base, last)) == Given(Plain(k), q, base, last)
  {
    hide Inv, Reprioritise, EventOccurs, Regraded, Notified, At, PlacesOf, WaitsOf, WakeBounded;
    Stores(k);
    if last && k.prio[k.current] != base {
      MovePlain(k, k.current, base);
    }
    var k1 := if last then DisinheritMove(k, k.current, base) else k;
    WaitersAre(k1, q);
    WaitersAre(k, q);
    if At(k1.ev, Event(q)).items != [] {
      EventPlain(k1, q);
    }
  }

  lemma WaitersAre(k: K, q: nat)
    ensures WaitingFor(Plain(k).waits, q) == At(k.ev, Event(q)).items
  {
  }

  /** Every mutex call, also one that breaks the bitmap or misses a switch, is its plain step. */
  lemma MutexStepRefines(k: K, c: MutexCall)
    requires Good(k) && CanMake(k, c) && Ranked(k)
    ensures Plain(MutexStep(k, c)) == PlainMutexStep(Plain(k), c)
  {
    hide Ok, Bits, Counts, Times, HomeOk, Settled, Preempted, Ranked, Step, PlainStep, InheritMove, GiveMove,
      TimeoutMove, Regraded, Given, Inherited, Plain;
    match c
    case Kernel(c) => StepRefines(k, c);
    case Inherits(h) => InheritPlain(k, h);
    case Gives(q, base, last) => GivePlain(k, q, base, last);
    case GivesUp(h, p) => TimeoutPlain(k, h, p);
  }

  lemma InheritPlain(k: K, h: Task)
    requires Inv(k) && h in k.prio
    ensures Plain(InheritMove(k, h)) == Inherited(Plain(k), h)
  {
    hide Inv, Reprioritise, Regraded, PlacesOf, WaitsOf, WakeBounded;
    Stores(k);
    if k.prio[h] < k.prio[k.current] {
      CurrentPrio(k);
      MovePlain(k, h, k.prio[k.current]);
    }
  }
}
