/** The blocking protocol of queue.c: tasks that block on a full or empty queue, and
    interrupts that post and receive while a task is deciding whether to block. Each
    step is one critical section. */
module QueueProtocol {
  import opened TaskLists
  import opened Rings

  const UNLOCKED := -1

  /** The tasks on one side of a queue. `wait` is the event list; `woken` are the tasks
      taken off it that have not yet tried again. `lock` counts, while the queue is locked,
      the interrupt events that should have woken a task on this side: cTxLock for the
      receivers and cRxLock for the senders. */
  datatype Side = Side(wait: seq<Task>, woken: set<Task>, lock: int)

  datatype Phase =
    | Idle
    | Locked(t: Task, sending: bool)        // scheduler suspended, queue locked
    | Checked(t: Task, sending: bool)       // found full (or empty), about to block
    | Unlocking
    | HalfUnlocked                          // cTxLock released, cRxLock not yet

  datatype Queue = Queue(length: nat, count: nat, rx: Side, tx: Side, phase: Phase)

  // ---- One side --------------------------------------------------------------------------

  /** Conversion to int8_t. */
  function Int8(x: int): int {
    if x > 127 then x - 256 else x
  }

  /** xTaskRemoveFromEventList on the event list, if it is not empty. */
  function WakeOne(s: Side): Side {
    if s.wait == [] then s else s.(wait := s.wait[1..], woken := s.woken + {s.wait[0]})
  }

  /** What an interrupt does after its post or receive. */
  function Notify(s: Side): Side {
    if s.lock == UNLOCKED then WakeOne(s) else s.(lock := Int8(s.lock + 1))
  }

  function Lock(s: Side): Side {
    if s.lock == UNLOCKED then s.(lock := 0) else s
  }

  /** The loop of prvUnlockQueue for this side: wake one waiter for each event counted. */
  function Drain(s: Side): Side
    decreases s.lock
  {
    if s.lock > 0 && s.wait != [] then Drain(WakeOne(s).(lock := s.lock - 1)) else s
  }

  function Unlock(s: Side): Side {
    Drain(s).(lock := UNLOCKED)
  }

  function Retry(s: Side, t: Task): Side {
    s.(woken := s.woken - {t})
  }

  /** The event list is ordered by priority, so a new waiter may go anywhere in it. */
  function Enlist(s: Side, t: Task, place: nat): Side
    requires place <= |s.wait|
  {
    s.(wait := s.wait[..place] + [t] + s.wait[place..])
  }

  /** A waiter leaves on a time-out, or is suspended or deleted. */
  function Leave(s: Side, t: Task): Side {
    s.(wait := Without(s.wait, t))
  }

  function Pending(s: Side): nat {
    if s.lock > 0 then s.lock else 0
  }

  /** Nobody waits for something that is there, unless as many tasks have been woken and
      have yet to try again, or will be woken when the queue is unlocked. */
  ghost predicate Served(s: Side, available: int) {
    s.wait != [] ==> available <= |s.woken| + Pending(s)
  }

  ghost predicate Apart(s: Side) {
    NoDup(s.wait) && (forall t :: t in s.wait ==> t !in s.woken) && UNLOCKED <= s.lock <= 127
  }

  ghost predicate Outside(s: Side, t: Task) {
    t !in s.wait && t !in s.woken
  }

  lemma WokenServed(s: Side, available: int)
    requires Apart(s) && Served(s, available)
    ensures Apart(WakeOne(s)) && Served(WakeOne(s), available + 1)
    ensures forall t :: Outside(s, t) ==> Outside(WakeOne(s), t)
  {
    if s.wait != [] {
      assert s.wait[0] in s.wait;
      assert forall t :: t in s.wait[1..] ==> t in s.wait;
    }
  }

  lemma NotifiedServed(s: Side, available: int)
    requires Apart(s) && Served(s, available) && s.lock < 127
    ensures Apart(Notify(s)) && Served(Notify(s), available + 1)
    ensures forall t :: Outside(s, t) ==> Outside(Notify(s), t)
    ensures s.lock != UNLOCKED ==> Notify(s).lock == s.lock + 1
    ensures s.lock == UNLOCKED ==> Notify(s).lock == UNLOCKED
  {
    WokenServed(s, available);
  }

  lemma {:induction false} DrainServed(s: Side, available: int)
    requires Apart(s) && Served(s, available)
    ensures var d := Drain(s);
            Apart(d) && (d.wait != [] ==> available <= |d.woken| && d.lock <= 0)
    decreases s.lock
  {
    if s.lock > 0 && s.wait != [] {
      WokenServed(s, available);
      var s1 := WakeOne(s).(lock := s.lock - 1);
      assert Apart(s1) && Served(s1, available);
      DrainServed(s1, available);
    }
  }

  lemma RetriedServed(s: Side, t: Task, available: int)
    requires Apart(s) && Served(s, available) && available > 0
    ensures Apart(Retry(s, t)) && Served(Retry(s, t), available - 1)
  {
  }

  lemma EnlistedServed(s: Side, t: Task, place: nat, available: int)
    requires Apart(s) && Outside(s, t) && place <= |s.wait| && available <= Pending(s)
    ensures Apart(Enlist(s, t, place)) && Served(Enlist(s, t, place), available)
  {
    InsertionMembers(Ring(s.wait, 0), place, t);
  }

  // ---- Steps of the whole queue ------------------------------------------------------------

  datatype Event =
    | TaskSend(t: Task, overwrite: bool)     // the first critical section of a send
    | TaskReceive(t: Task, peek: bool)       // ... of a receive, take or peek
    | BeginBlock(t: Task, sending: bool)     // vTaskSuspendAll and prvLockQueue
    | Check(timedOut: bool)                  // time-out check, prvIsQueueFull / prvIsQueueEmpty
    | Place(place: nat)                      // vTaskPlaceOnEventList
    | UnlockTx
    | UnlockRx
    | SendFromISR(overwrite: bool)           // also xQueueGiveFromISR
    | ReceiveFromISR
    | LeaveList(t: Task)

  function Free(q: Queue): int {
    q.length - q.count
  }

  /** uxMessagesWaiting after prvCopyDataToQueue. */
  function Added(q: Queue, overwrite: bool): nat {
    if overwrite && q.count > 0 then q.count else q.count + 1
  }

  predicate CanPlace(q: Queue, place: nat) {
    q.phase.Checked? && place <= |(if q.phase.sending then q.tx else q.rx).wait|
  }

  function Step(q: Queue, e: Event): Queue
    requires e.Place? ==> CanPlace(q, e.place)
  {
    match e
    case TaskSend(t, overwrite) =>
      if q.count < q.length || overwrite
      then q.(count := Added(q, overwrite), rx := WakeOne(q.rx), tx := Retry(q.tx, t))
      else q.(tx := Retry(q.tx, t))
    case TaskReceive(t, peek) =>
      if q.count == 0 then q.(rx := Retry(q.rx, t))
      else if peek then q.(rx := WakeOne(Retry(q.rx, t)))
      else q.(count := q.count - 1, rx := Retry(q.rx, t), tx := WakeOne(q.tx))
    case BeginBlock(t, sending) => q.(rx := Lock(q.rx), tx := Lock(q.tx), phase := Locked(t, sending))
    case Check(timedOut) =>
      if !q.phase.Locked? then q
      else if !timedOut && (if q.phase.sending then q.count == q.length else q.count == 0)
      then q.(phase := Checked(q.phase.t, q.phase.sending))
      else q.(phase := Unlocking)
    case Place(place) =>
      if q.phase.sending then q.(tx := Enlist(q.tx, q.phase.t, place), phase := Unlocking)
      else q.(rx := Enlist(q.rx, q.phase.t, place), phase := Unlocking)
    case UnlockTx => q.(rx := Unlock(q.rx), phase := HalfUnlocked)
    case UnlockRx => q.(tx := Unlock(q.tx), phase := Idle)
    case SendFromISR(overwrite) =>
      if q.count < q.length || overwrite then q.(count := Added(q, overwrite), rx := Notify(q.rx)) else q
    case ReceiveFromISR =>
      if q.count > 0 then q.(count := q.count - 1, tx := Notify(q.tx)) else q
    case LeaveList(t) => q.(rx := Leave(q.rx, t), tx := Leave(q.tx, t))
  }

  /** When a step can happen. A locked queue means that the scheduler is suspended, so only the
      task that locked it and interrupts run; a woken task first tries again what it was woken
      for; overwriting is for queues of length 1. */
  ghost predicate Possible(q: Queue, e: Event) {
    match e
    case TaskSend(t, overwrite) =>
      q.phase.Idle? && Outside(q.rx, t) && t !in q.tx.wait && (overwrite ==> q.length == 1)
    case TaskReceive(t, _) => q.phase.Idle? && Outside(q.tx, t) && t !in q.rx.wait
    case BeginBlock(t, _) => q.phase.Idle? && Outside(q.rx, t) && Outside(q.tx, t)
    case Check(_) => q.phase.Locked?
    case Place(place) => CanPlace(q, place)
    case UnlockTx => q.phase.Unlocking?
    case UnlockRx => q.phase.HalfUnlocked?
    case SendFromISR(overwrite) => overwrite ==> q.length == 1
    case ReceiveFromISR => true
    case LeaveList(_) => q.phase.Idle?
  }

  /** Fewer than 128 interrupt events come on one side per lock. */
  ghost predicate InCount(q: Queue, e: Event) {
    (e.SendFromISR? ==> q.rx.lock < 127) && (e.ReceiveFromISR? ==> q.tx.lock < 127)
  }

  ghost predicate Allowed(q: Queue, e: Event) {
    Possible(q, e) && InCount(q, e)
  }

  /** What the phase says about the locks and about the task that is deciding to block. */
  ghost predicate PhaseOk(q: Queue) {
    && (q.rx.lock == UNLOCKED <==> q.phase.Idle? || q.phase.HalfUnlocked?)
    && (q.tx.lock == UNLOCKED <==> q.phase.Idle?)
    && (q.phase.Locked? || q.phase.Checked? ==> Outside(q.rx, q.phase.t) && Outside(q.tx, q.phase.t))
    && (q.phase.Checked? ==> if q.phase.sending then Free(q) <= Pending(q.tx) else q.count <= Pending(q.rx))
  }

  ghost predicate Inv(q: Queue) {
    && q.count <= q.length && Apart(q.rx) && Apart(q.tx)
    && Served(q.rx, q.count) && Served(q.tx, Free(q)) && PhaseOk(q)
  }

  lemma SendKeeps(q: Queue, t: Task, overwrite: bool)
    requires Inv(q) && Allowed(q, TaskSend(t, overwrite))
    ensures Inv(Step(q, TaskSend(t, overwrite)))
  {
    if q.count < q.length || overwrite {
      WokenServed(q.rx, q.count);
      if q.count < q.length {
        RetriedServed(q.tx, t, Free(q));
      }
    }
  }

  lemma ReceiveKeeps(q: Queue, t: Task, peek: bool)
    requires Inv(q) && Allowed(q, TaskReceive(t, peek))
    ensures Inv(Step(q, TaskReceive(t, peek)))
  {
    if q.count > 0 {
      RetriedServed(q.rx, t, q.count);
      if peek {
        WokenServed(Retry(q.rx, t), q.count - 1);
      } else {
        WokenServed(q.tx, Free(q));
      }
    }
  }

  lemma PlaceKeeps(q: Queue, place: nat)
    requires Inv(q) && Allowed(q, Place(place))
    ensures Inv(Step(q, Place(place)))
  {
    if q.phase.sending {
      EnlistedServed(q.tx, q.phase.t, place, Free(q));
    } else {
      EnlistedServed(q.rx, q.phase.t, place, q.count);
    }
  }

  lemma SendFromISRKeeps(q: Queue, overwrite: bool)
    requires Inv(q) && Allowed(q, SendFromISR(overwrite))
    ensures Inv(Step(q, SendFromISR(overwrite)))
  {
    if q.count < q.length || overwrite {
      NotifiedServed(q.rx, q.count);
    }
  }

  lemma ReceiveFromISRKeeps(q: Queue)
    requires Inv(q) && Allowed(q, ReceiveFromISR)
    ensures Inv(Step(q, ReceiveFromISR))
  {
    if q.count > 0 {
      NotifiedServed(q.tx, Free(q));
    }
  }

  lemma StepKeeps(q: Queue, e: Event)
    requires Inv(q) && Allowed(q, e)
    ensures Inv(Step(q, e))
  {
    match e
    case TaskSend(t, overwrite) => SendKeeps(q, t, overwrite);
    case TaskReceive(t, peek) => ReceiveKeeps(q, t, peek);
    case BeginBlock(t, sending) =>
    case Check(timedOut) =>
    case Place(place) => PlaceKeeps(q, place);
    case UnlockTx => DrainServed(q.rx, q.count);
    case UnlockRx => DrainServed(q.tx, Free(q));
    case SendFromISR(overwrite) => SendFromISRKeeps(q, overwrite);
    case ReceiveFromISR => ReceiveFromISRKeeps(q);
    case LeaveList(t) => WithoutMembers(q.rx.wait, t); WithoutMembers(q.tx.wait, t);
  }

  // ---- Runs --------------------------------------------------------------------------------

  function Created(length: nat, count: nat): Queue {
    Queue(length, count, Side([], {}, UNLOCKED), Side([], {}, UNLOCKED), Idle)
  }

  ghost predicate PossibleRun(q: Queue, es: seq<Event>)
    decreases |es|
  {
    es == [] || (Possible(q, es[0]) && PossibleRun(Step(q, es[0]), es[1..]))
  }

  ghost function Run(q: Queue, es: seq<Event>): Queue
    requires PossibleRun(q, es)
    decreases |es|
  {
    if es == [] then q else Run(Step(q, es[0]), es[1..])
  }

  /** The interrupt events of the run stay in the range of the lock counts. */
  ghost predicate RunInCount(q: Queue, es: seq<Event>)
    requires PossibleRun(q, es)
    decreases |es|
  {
    es == [] || (InCount(q, es[0]) && RunInCount(Step(q, es[0]), es[1..]))
  }

  lemma {:induction false} RunKeeps(q: Queue, es: seq<Event>)
    requires Inv(q) && PossibleRun(q, es) && RunInCount(q, es)
    ensures Inv(Run(q, es))
    decreases |es|
  {
    hide Inv, Step;
    if es != [] {
      StepKeeps(q, es[0]);
      RunKeeps(Step(q, es[0]), es[1..]);
    }
  }

  /** No lost wake-up. In every interleaving of tasks and interrupts, if a receiver is blocked
      then the messages waiting are no more than the receivers already woken that have not
      yet tried again, plus the posts that unlocking will still announce; and the same for
      blocked senders and free places. */
  lemma NoLostWakeUp(length: nat, count: nat, es: seq<Event>)
    requires count <= length && PossibleRun(Created(length, count), es) && RunInCount(Created(length, count), es)
    ensures var q := Run(Created(length, count), es);
            && (q.rx.wait != [] ==> q.count <= |q.rx.woken| + (if q.phase.Idle? then 0 else Pending(q.rx)))
            && (q.tx.wait != [] ==> q.length - q.count <= |q.tx.woken| + (if q.phase.Idle? then 0 else Pending(q.tx)))
  {
    RunKeeps(Created(length, count), es);
  }

  /** Once every woken task has tried again, a receiver is blocked only on an empty queue and
      a sender only on a full one. */
  lemma BlockedOnlyForCause(length: nat, count: nat, es: seq<Event>)
    requires count <= length && PossibleRun(Created(length, count), es) && RunInCount(Created(length, count), es)
    ensures var q := Run(Created(length, count), es);
            q.phase.Idle? ==>
              && (q.rx.wait != [] && q.rx.woken == {} ==> q.count == 0)
              && (q.tx.wait != [] && q.tx.woken == {} ==> q.count == q.length)
  {
    RunKeeps(Created(length, count), es);
  }

  // ---- Where the code falls short ----------------------------------------------------------

  /** xQueueGenericReset of a queue in use: the queue is emptied and one sender woken. */
  function Reset(q: Queue): Queue {
    q.(count := 0, rx := q.rx.(lock := UNLOCKED), tx := WakeOne(q.tx.(lock := UNLOCKED)))
  }

  /** A reset frees every place but wakes one sender, so it keeps the protocol's invariant
      exactly when no second sender waits or the woken senders can fill the queue. */
  lemma ResetKeepsIff(q: Queue)
    requires Inv(q) && q.phase.Idle?
    ensures Inv(Reset(q)) <==> |q.tx.wait| <= 1 || q.length <= |q.tx.woken| + 1
  {
    var tx := q.tx;
    if tx.wait != [] {
      assert tx.wait[0] in tx.wait;
      assert forall t :: t in tx.wait[1..] ==> t in tx.wait;
    }
  }

  lemma RunOne(q: Queue, e: Event, es: seq<Event>)
    requires Possible(q, e) && PossibleRun(Step(q, e), es)
    ensures PossibleRun(q, [e] + es) && Run(q, [e] + es) == Run(Step(q, e), es)
  {
    assert ([e] + es)[1..] == es;
  }

  lemma {:induction false} RunAppend(q: Queue, es: seq<Event>, fs: seq<Event>)
    requires PossibleRun(q, es) && PossibleRun(Run(q, es), fs)
    ensures PossibleRun(q, es + fs) && Run(q, es + fs) == Run(Run(q, es), fs)
    decreases |es|
  {
    hide Step;
    if es == [] {
      assert es + fs == fs;
    } else {
      RunAppend(Step(q, es[0]), es[1..], fs);
      assert (es + fs)[1..] == es[1..] + fs;
    }
  }

  /** The steps by which a task blocks: the failed try, and the locked section up to the unlock. */
  function Blocks(t: Task, sending: bool): seq<Event> {
    [if sending then TaskSend(t, false) else TaskReceive(t, false)]
      + ([BeginBlock(t, sending)] + ([Check(false)] + ([Place(0)] + [])))
  }

  lemma TaskBlocks(q: Queue, t: Task, sending: bool)
    requires q.phase.Idle? && q.rx.lock == UNLOCKED && q.tx.lock == UNLOCKED && Outside(q.rx, t) && Outside(q.tx, t)
    requires if sending then q.count == q.length else q.count == 0
    ensures PossibleRun(q, Blocks(t, sending))
    ensures var q' := Run(q, Blocks(t, sending));
            if sending
            then q' == q.(rx := q.rx.(lock := 0), tx := Side([t] + q.tx.wait, q.tx.woken, 0), phase := Unlocking)
            else q' == q.(tx := q.tx.(lock := 0), rx := Side([t] + q.rx.wait, q.rx.woken, 0), phase := Unlocking)
  {
    var e := if sending then TaskSend(t, false) else TaskReceive(t, false);
    assert Step(q, e) == q by {
      assert q.tx.woken - {t} == q.tx.woken && q.rx.woken - {t} == q.rx.woken;
    }
    var q1 := Step(q, BeginBlock(t, sending));
    var q2 := Step(q1, Check(false));
    var q3 := Step(q2, Place(0));
    assert PossibleRun(q3, []) && Run(q3, []) == q3;
    RunOne(q2, Place(0), []);
    RunOne(q1, Check(false), [Place(0)] + []);
    RunOne(q, BeginBlock(t, sending), [Check(false)] + ([Place(0)] + []));
    RunOne(q, e, [BeginBlock(t, sending)] + ([Check(false)] + ([Place(0)] + [])));
  }

  function Unlocks(): seq<Event> {
    [UnlockTx] + ([UnlockRx] + [])
  }

  lemma QueueUnlocks(q: Queue)
    requires q.phase.Unlocking?
    ensures PossibleRun(q, Unlocks())
    ensures Run(q, Unlocks()) == q.(rx := Unlock(q.rx), tx := Unlock(q.tx), phase := Idle)
  {
    var q1 := Step(q, UnlockTx);
    var q2 := Step(q1, UnlockRx);
    assert PossibleRun(q2, []) && Run(q2, []) == q2;
    RunOne(q1, UnlockRx, []);
    RunOne(q, UnlockTx, [UnlockRx] + []);
  }

  /** Two senders block on a full queue of two places; a reset then leaves one of them blocked
      although both places are free and only one sender was woken. */
  lemma ResetStrandsSender(a: Task, b: Task)
    requires a != b
    ensures var es := (Blocks(a, true) + Unlocks()) + (Blocks(b, true) + Unlocks());
            && PossibleRun(Created(2, 2), es)
            && var q := Reset(Run(Created(2, 2), es));
               a in q.tx.wait && q.length - q.count == 2 && q.tx.woken == {b}
  {
    var q := Created(2, 2);
    SenderBlocks(q, a);
    var q1 := Run(q, Blocks(a, true) + Unlocks());
    SenderBlocks(q1, b);
    RunAppend(q, Blocks(a, true) + Unlocks(), Blocks(b, true) + Unlocks());
  }

  lemma SenderBlocks(q: Queue, t: Task)
    requires q.phase.Idle? && q.count == q.length && q.rx == Side([], {}, UNLOCKED)
    requires q.tx.woken == {} && q.tx.lock == UNLOCKED && t !in q.tx.wait
    ensures PossibleRun(q, Blocks(t, true) + Unlocks())
    ensures Run(q, Blocks(t, true) + Unlocks()) == q.(tx := q.tx.(wait := [t] + q.tx.wait))
  {
    TaskBlocks(q, t, true);
    var q1 := Run(q, Blocks(t, true));
    QueueUnlocks(q1);
    RunAppend(q, Blocks(t, true), Unlocks());
  }
}
