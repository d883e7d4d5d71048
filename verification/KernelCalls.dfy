/** The remaining kernel calls of tasks.c, and the step function over all of them. */
module KernelCalls {
  import opened Options
  import opened Rings
  import opened TaskLists
  import opened Scheduler
  import opened Kernel

  // ---- vTaskSwitchContext --------------------------------------------------------------

  /** portGET_HIGHEST_PRIORITY: the highest set bit at or below `p`. */
  function TopBit(bits: set<nat>, p: nat): nat {
    if p == 0 || p in bits then p else TopBit(bits, p - 1)
  }

  /** The generic selection: scan downwards for a ready list that is not empty. */
  function ScanDown(st: Store, p: nat): nat {
    if p == 0 || At(st, Ready(p)).items != [] then p else ScanDown(st, p - 1)
  }

  lemma {:induction false} SelectionsAgree(k: K, p: nat)
    requires Bits(k)
    ensures TopBit(k.top, p) == ScanDown(k.st, p)
  {
    assert BitOk(k.st, k.top, p);
    if p > 0 {
      SelectionsAgree(k, p - 1);
    }
  }

  lemma {:induction false} TopBitIsHighest(k: K, p: nat, f: nat)
    requires Bits(k) && f <= p && At(k.st, Ready(f)).items != []
    ensures TopBit(k.top, p) <= p && At(k.st, Ready(TopBit(k.top, p))).items != []
    ensures forall q :: TopBit(k.top, p) < q <= p ==> At(k.st, Ready(q)).items == []
  {
    assert BitOk(k.st, k.top, p);
    if p > f {
      TopBitIsHighest(k, p - 1, f);
    }
  }

  /** The selected list is the highest that is not empty. */
  lemma HighestReady(k: K)
    requires Inv(k)
    ensures var p := TopBit(k.top, MAX_PRIORITIES - 1);
            && p == ScanDown(k.st, MAX_PRIORITIES - 1)
            && p < MAX_PRIORITIES && At(k.st, Ready(p)).items != []
            && forall t :: t in k.prio && k.st.where[t].Ready? ==> k.prio[t] <= p
  {
    hide Ok, Bits, Times, Counts, SortedBy, At;
    var p := TopBit(k.top, MAX_PRIORITIES - 1);
    SelectionsAgree(k, MAX_PRIORITIES - 1);
    InReadyList(k, k.idle);
    TopBitIsHighest(k, MAX_PRIORITIES - 1, k.prio[k.idle]);
    forall t | t in k.prio && k.st.where[t].Ready? ensures k.prio[t] <= p {
      InReadyList(k, t);
    }
  }

  lemma InReadyList(k: K, t: Task)
    requires Ok(k.st) && Homes(k) && t in k.prio && k.st.where[t].Ready?
    ensures k.prio[t] < MAX_PRIORITIES && At(k.st, Ready(k.prio[t])).items != []
  {
    assert t in At(k.st, Ready(k.prio[t])).items;
  }

  /** listGET_OWNER_OF_NEXT_ENTRY on one list of the store. */
  function WalkList(st: Store, l: ListId): (r: (Store, Task))
    requires Ok(st) && l.Ready? && At(st, l).items != []
    ensures Ok(r.0) && r.0.where == st.where && (forall m :: At(r.0, m).items == At(st, m).items)
    ensures r.1 in st.where && st.where[r.1] == l
  {
    assert Proper(st, l);
    var ring := Advance(At(st, l));
    var st' := st.(lists := st.lists[l := ring]);
    assert forall m :: At(st', m) == if m == l then ring else At(st, m);
    assert forall m :: Proper(st', m) by {
      forall m ensures Proper(st', m) { assert Proper(st, m); }
    }
    assert Current(ring) in At(st, l).items;
    (st', Current(ring))
  }

  lemma WalkedInv(k: K, k': K)
    requires Inv(k) && Ok(k'.st) && k'.st.where == k.st.where
    requires forall m :: At(k'.st, m).items == At(k.st, m).items
    requires k' == k.(st := k'.st, current := k'.current, yieldPending := k'.yieldPending, request := k'.request)
    requires k'.current in k.prio
    ensures Inv(k')
  {
    forall p ensures BitOk(k'.st, k'.top, p) {
      assert BitOk(k.st, k.top, p);
    }
  }

  function SwitchContext(k: K): (k': K)
    requires Inv(k)
    ensures Inv(k')
  {
    if k.suspended > 0 then
      InvOfFlags(k, k.(yieldPending := true, request := false));
      k.(yieldPending := true, request := false)
    else
      HighestReady(k);
      var (st', t) := WalkList(k.st, Ready(TopBit(k.top, MAX_PRIORITIES - 1)));
      var k' := k.(st := st', current := t, yieldPending := false, request := false);
      WalkedInv(k, k');
      k'
  }

  // ---- Task-level calls ------------------------------------------------------------------

  /** xTaskCreate, from the point where the control block is complete. */
  function Create(k: K, t: Task, p: nat): (k': K)
    requires Inv(k) && t !in k.prio
    ensures Inv(k')
  {
    var p' := if p >= MAX_PRIORITIES then MAX_PRIORITIES - 1 else p;
    var k1 := AddNew(k, t, p');
    InvOfFlags(k1, k1.(request := k.request || k.prio[k.current] < p'));
    k1.(request := k.request || k.prio[k.current] < p')
  }

  function Delete(k: K, t: Task): (k': K)
    requires Inv(k) && t in k.prio && t != k.idle && k.st.where[t] != Terminating
    ensures Inv(k')
  {
    var k1 := DropEvent(k, t);
    if t == k.current then
      var k2 := MoveOut(k1, t, Terminating);
      InvOfFlags(k2, k2.(request := true));
      k2.(request := true)
    else
      var k2 := Forget(k1, t);
      InvOfFlags(k2, ResetNext(k2));
      ResetNext(k2)
  }

  /** The timed branch: the wake time wraps, and then the overflow list is used. */
  function DelayFor(k: K, t: Task, ticks: nat): (k': K)
    requires Inv(k) && t in k.prio && t != k.idle && k.st.where[t] == Ready(k.prio[t])
    requires 1 <= ticks <= MAX_DELAY
    ensures Inv(k') && k' == k.(st := k'.st, top := k'.top, wake := k'.wake, next := k'.next)
    ensures k'.st.where == k.st.where[t := if k.tick + ticks < WRAP then k.delayed else k.overflow]
    ensures k'.wake == k.wake[t := Plus(k.tick, ticks)]
    ensures k'.next == if k.tick + ticks < WRAP && k.tick + ticks < k.next then k.tick + ticks else k.next
  {
    DelayedForOk(k, t, ticks);
    DelayedFor(k, t, ticks)
  }

  function DelayedFor(k: K, t: Task, ticks: nat): K
    requires Inv(k) && t in k.prio && t != k.idle && k.st.where[t] == Ready(k.prio[t])
    requires 1 <= ticks <= MAX_DELAY
  {
    RunningHasNoEvent(k, t);
    WrapsWhenBelow(k.tick, ticks);
    var w := Plus(k.tick, ticks);
    if w < k.tick then Delay(k, t, w, k.overflow) else DelayInEpoch(k, t, w)
  }

  lemma DelayedForOk(k: K, t: Task, ticks: nat)
    requires Inv(k) && t in k.prio && t != k.idle && k.st.where[t] == Ready(k.prio[t])
    requires 1 <= ticks <= MAX_DELAY
    ensures k.tick < WRAP
    ensures var k' := DelayedFor(k, t, ticks);
            && Inv(k') && k' == k.(st := k'.st, top := k'.top, wake := k'.wake, next := k'.next)
            && k'.st.where == k.st.where[t := if k.tick + ticks < WRAP then k.delayed else k.overflow]
            && k'.wake == k.wake[t := Plus(k.tick, ticks)]
            && k'.next == if k.tick + ticks < WRAP && k.tick + ticks < k.next then k.tick + ticks else k.next
  {
    hide Inv, Delay, DelayInEpoch;
    RunningHasNoEvent(k, t);
    WrapsWhenBelow(k.tick, ticks);
  }

  lemma WrapsWhenBelow(tick: nat, ticks: nat)
    requires tick < WRAP && 1 <= ticks <= MAX_DELAY
    ensures var w := Plus(tick, ticks);
            w < WRAP && (w < tick <==> tick + ticks >= WRAP) && (w >= tick ==> tick < w == tick + ticks)
  {
  }

  /** The branch without a wrap: the next unblock time may come earlier. */
  function DelayInEpoch(k: K, t: Task, w: nat): (k': K)
    requires Inv(k) && t in k.prio && t != k.idle && t !in k.ev.where && k.st.where[t] == Ready(k.prio[t])
    requires k.tick < w < WRAP
    ensures Inv(k') && k' == k.(st := k'.st, top := k'.top, wake := k.wake[t := w], next := k'.next)
    ensures k'.st.where == k.st.where[t := k.delayed] && k'.next == if w < k.next then w else k.next
  {
    var k1 := Delay(k, t, w, k.delayed);
    var k2 := k1.(next := if w < k.next then w else k.next);
    InvOfFlags(k1, k2);
    k2
  }

  /** prvAddCurrentTaskToDelayedList */
  function AddCurrentToDelayed(k: K, ticks: nat, forever: bool): (k': K)
    requires Inv(k) && k.current != k.idle && k.st.where[k.current] == Ready(k.prio[k.current])
    requires 1 <= ticks <= MAX_DELAY
    ensures Inv(k') && k' == k.(st := k'.st, top := k'.top, wake := k'.wake, next := k'.next)
    ensures k'.st.where == k.st.where[k.current :=
              if ticks == MAX_DELAY && forever then Suspended
              else if k.tick + ticks < WRAP then k.delayed else k.overflow]
    ensures !(ticks == MAX_DELAY && forever) ==>
              && k'.wake == k.wake[k.current := Plus(k.tick, ticks)]
              && k'.next == if k.tick + ticks < WRAP && k.tick + ticks < k.next then k.tick + ticks else k.next
    ensures ticks == MAX_DELAY && forever ==> k'.wake == k.wake && k'.next == k.next
  {
    CurrentHome(k);
    if ticks == MAX_DELAY && forever then SuspendCurrent(k) else DelayFor(k, k.current, ticks)
  }

  lemma CurrentHome(k: K)
    requires Inv(k)
    ensures k.current in k.prio && k.tick < WRAP
  {
  }

  function SuspendCurrent(k: K): (k': K)
    requires Inv(k) && k.current != k.idle && k.st.where[k.current] == Ready(k.prio[k.current])
    ensures Inv(k') && k' == k.(st := k'.st, top := k'.top) && k'.st.where == k.st.where[k.current := Suspended]
  {
    RunningHasNoEvent(k, k.current);
    MoveOut(k, k.current, Suspended)
  }

  lemma DelayedIds(k: K)
    requires Inv(k)
    ensures (k.delayed == DelayedA && k.overflow == DelayedB) || (k.delayed == DelayedB && k.overflow == DelayedA)
  {
  }

  lemma RunningHasNoEvent(k: K, t: Task)
    requires Inv(k) && t in k.prio && k.st.where[t] == Ready(k.prio[t])
    ensures t !in k.ev.where && k.tick < WRAP
  {
  }

  /** Blocking the current task, for an event if one is given (vTaskPlaceOnEventList). */
  function Block(k: K, ticks: nat, forever: bool, event: Option<nat>): (k': K)
    requires Inv(k) && k.current != k.idle && k.st.where[k.current] == Ready(k.prio[k.current])
    requires 1 <= ticks <= MAX_DELAY
    ensures Inv(k')
  {
    var k1 := AddCurrentToDelayed(k, ticks, forever);
    BlockedNow(k, k1);
    if event.None? then k1 else Wait(k1, k.current, event.value)
  }

  lemma BlockedNow(k: K, k1: K)
    requires Inv(k) && k.st.where[k.current] == Ready(k.prio[k.current]) && k1.ev == k.ev && k1.prio == k.prio
    requires k.current in k1.st.where && k1.st.where[k.current] in {Suspended, k.delayed, k.overflow}
    ensures k.current in k1.prio && k.current !in k1.ev.where && Blocked(k1.st.where[k.current])
  {
    hide Ok, Bits, Counts, HomeOk;
    DelayedIds(k);
    RunningHasNoEvent(k, k.current);
  }

  lemma EventInv(k: K, k': K, t: Task, l: ListId)
    requires Inv(k) && t in k.prio && Blocked(k.st.where[t]) && EventHome(l)
    requires Ok(k'.ev) && k'.ev.where == k.ev.where[t := l] && k' == k.(ev := k'.ev)
    ensures Inv(k')
  {
    hide Ok, Bits, Times, Homes, At;
    SameLists(k, k');
    EventHomes(k, k', t, l);
  }

  lemma EventHomes(k: K, k': K, t: Task, l: ListId)
    requires Homes(k) && t in k.prio && Blocked(k.st.where[t]) && EventHome(l)
    requires k'.ev.where == k.ev.where[t := l] && k' == k.(ev := k'.ev)
    ensures Homes(k')
  {
    hide HomeOk, Blocked, EventHome;
  }

  /** The event item goes into event list `q` in item-value order. */
  function Wait(k: K, t: Task, q: nat): (k': K)
    requires Inv(k) && t in k.prio && t !in k.ev.where && Blocked(k.st.where[t])
    ensures Inv(k') && k' == k.(ev := k'.ev) && k'.ev.where == k.ev.where[t := Event(q)]
  {
    var k' := k.(ev := PutSorted(k.ev, Event(q), t, k.rank));
    EventInv(k, k', t, Event(q));
    k'
  }

  function PrioritySet(k: K, t: Task, p: nat): (k': K)
    requires Inv(k) && t in k.prio
    ensures Inv(k')
  {
    var p' := if p >= MAX_PRIORITIES then MAX_PRIORITIES - 1 else p;
    if k.prio[t] == p' then k
    else
      var wanted := if p' > k.prio[t] then t != k.current && p' >= k.prio[k.current] else t == k.current;
      var k1 := Reprioritise(k, t, p');
      InvOfFlags(k1, k1.(request := k.request || wanted));
      k1.(request := k.request || wanted)
  }

  /** The first critical section of vTaskSuspend, and the request for the yield with which a task that
      suspends itself ends the call. The second section is CallResetUnblockTime. */
  function Suspend(k: K, t: Task): (k': K)
    requires Inv(k) && t in k.prio && t != k.idle && k.st.where[t] != Terminating
    ensures Inv(k')
  {
    var k1 := MoveOut(DropEvent(k, t), t, Suspended);
    var k2 := k1.(request := k.request || t == k.current);
    InvOfFlags(k1, k2);
    k2
  }

  /** prvTaskIsTaskSuspended */
  predicate IsSuspended(k: K, t: Task) {
    t in k.st.where && k.st.where[t] == Suspended && t !in k.ev.where
  }

  function Resume(k: K, t: Task): (k': K)
    requires Inv(k) && t in k.prio
    ensures Inv(k')
  {
    if t == k.current || !IsSuspended(k, t) then k
    else
      var k1 := Unblock(k, t);
      InvOfFlags(k1, k1.(request := k.request || k.prio[t] >= k.prio[k.current]));
      k1.(request := k.request || k.prio[t] >= k.prio[k.current])
  }

  function ResumeFromISR(k: K, t: Task): (k': K)
    requires Inv(k) && t in k.prio
    ensures Inv(k')
  {
    if !IsSuspended(k, t) then k
    else if k.suspended == 0 then
      var k1 := Unblock(k, t);
      InvOfFlags(k1, k1.(request := k.request || k.prio[t] >= k.prio[k.current]));
      k1.(request := k.request || k.prio[t] >= k.prio[k.current])
    else
      var k1 := k.(ev := PutEnd(k.ev, PendingReady, t));
      EventInv(k, k1, t, PendingReady);
      k1
  }

  /** With the scheduler suspended, a woken task is held in the pending ready list. */
  function Pend(k: K, t: Task): (k': K)
    requires Inv(k) && t in k.ev.where
    ensures Inv(k') && k' == k.(ev := k'.ev) && k'.ev.where == k.ev.where[t := PendingReady]
  {
    var k' := k.(ev := Relocate(k.ev, t, PendingReady));
    EventInv(k, k', t, PendingReady);
    k'
  }

  lemma EventHead(ev: Store, q: nat)
    requires Ok(ev) && At(ev, Event(q)).items != []
    ensures var t := At(ev, Event(q)).items[0]; t in ev.where && ev.where[t] == Event(q)
  {
    assert At(ev, Event(q)).items[0] in At(ev, Event(q)).items;
  }

  /** xTaskRemoveFromEventList: task `t`, the head of an event list, is woken. */
  function WakeWaiter(k: K, t: Task): (k': K)
    requires Inv(k) && t in k.ev.where
    ensures Inv(k') && k' == k.(st := k'.st, ev := k'.ev, top := k'.top, yieldPending := k'.yieldPending)
    ensures k'.st.where == if k.suspended == 0 then k.st.where[t := Ready(k.prio[t])] else k.st.where
    ensures k'.ev.where == if k.suspended == 0 then k.ev.where - {t} else k.ev.where[t := PendingReady]
    ensures k'.yieldPending <==> k.yieldPending || k.prio[t] > k.prio[k.current]
  {
    var k1 := if k.suspended == 0 then Wake(k, t) else Pend(k, t);
    var k2 := k1.(yieldPending := k.yieldPending || k.prio[t] > k.prio[k.current]);
    InvOfFlags(k1, k2);
    k2
  }

  function EventOccurs(k: K, q: nat): (k': K)
    requires Inv(k) && At(k.ev, Event(q)).items != []
    ensures Inv(k')
  {
    EventHead(k.ev, q);
    WakeWaiter(k, At(k.ev, Event(q)).items[0])
  }

  lemma TerminatingHead(k: K)
    requires Inv(k) && k.deleted > 0
    ensures At(k.st, Terminating).items != []
    ensures var t := At(k.st, Terminating).items[0];
            t in k.st.where && k.st.where[t] == Terminating && t !in k.ev.where && t in k.prio && t != k.idle
  {
    assert At(k.st, Terminating).items[0] in At(k.st, Terminating).items;
  }

  /** One round of prvCheckTasksWaitingTermination, run by the idle task. */
  function CleanUp(k: K): (k': K)
    requires Inv(k) && k.current == k.idle && k.deleted > 0
    ensures Inv(k')
  {
    TerminatingHead(k);
    Forget(k, At(k.st, Terminating).items[0])
  }

  // ---- All calls as one step function ----------------------------------------------------

  datatype Call =
    | CallCreate(t: Task, p: nat)
    | CallDelete(t: Task)
    | CallBlock(ticks: nat, forever: bool, event: Option<nat>)
    | CallPrioritySet(t: Task, p: nat)
    | CallSuspend(t: Task)
    | CallResetUnblockTime
    | CallResume(t: Task)
    | CallSuspendAll
    | CallResumeAll(yieldAfter: bool)
    | CallYield
    | CallCleanUp
    | IsrResume(t: Task)
    | AnyEvent(q: nat)
    | IsrTick
    | ContextSwitch

  ghost predicate Running(k: K)
    requires Homes(k)
  {
    k.st.where[k.current] == Ready(k.prio[k.current])
  }

  /** What the kernel demands of its callers. Task-level calls come from the running task;
      the idle task does not block; a task that has blocked itself while holding the
      scheduler suspended resumes it and yields. Interrupts may come at any time. */
  ghost predicate Allowed(k: K, c: Call)
    requires Homes(k)
  {
    match c
    case CallCreate(t, _) => Running(k) && t !in k.prio
    case CallDelete(t) => Running(k) && t in k.prio && t != k.idle && k.st.where[t] != Terminating
                          && (t == k.current ==> k.suspended == 0)
    case CallBlock(ticks, _, _) => Running(k) && k.current != k.idle && 1 <= ticks <= MAX_DELAY && k.suspended == 1
    case CallPrioritySet(t, _) => Running(k) && t in k.prio
    case CallSuspend(t) => Running(k) && t in k.prio && t != k.idle && k.st.where[t] != Terminating
                           && (t == k.current ==> k.suspended == 0)
    case CallResetUnblockTime => true
    case CallResume(t) => Running(k) && t in k.prio
    case CallSuspendAll => Running(k)
    case CallResumeAll(yieldAfter) => k.suspended > 0 && (Running(k) || yieldAfter)
    case CallYield => true
    case CallCleanUp => Running(k) && k.current == k.idle && k.deleted > 0
    case _ => CanInterrupt(k, c)
  }

  predicate CanInterrupt(k: K, c: Call) {
    match c
    case IsrResume(t) => t in k.prio
    case AnyEvent(q) => At(k.ev, Event(q)).items != []
    case IsrTick => true
    case ContextSwitch => true
    case _ => false
  }

  function Interrupt(k: K, c: Call): K
    requires Inv(k) && Settled(k) && CanInterrupt(k, c)
  {
    match c
    case IsrResume(t) => ResumeFromISR(k, t)
    case AnyEvent(q) => EventOccurs(k, q)
    case IsrTick => TickInterrupt(k)
    case ContextSwitch => SwitchContext(k)
  }

  function Step(k: K, c: Call): K
    requires Inv(k) && Settled(k) && Allowed(k, c)
  {
    match c
    case CallCreate(t, p) => Create(k, t, p)
    case CallDelete(t) => Delete(k, t)
    case CallBlock(ticks, forever, event) => Block(k, ticks, forever, event)
    case CallPrioritySet(t, p) => PrioritySet(k, t, p)
    case CallSuspend(t) => Suspend(k, t)
    case CallResetUnblockTime => ResetNext(k)
    case CallResume(t) => Resume(k, t)
    case CallSuspendAll => SuspendAll(k)
    case CallResumeAll(yieldAfter) => ResumeAll(k, yieldAfter)
    case CallYield => k.(request := true)
    case CallCleanUp => CleanUp(k)
    case _ => Interrupt(k, c)
  }
}
