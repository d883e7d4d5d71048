/** The blocking protocol of queue.c together with the data: what every step does to the messages and
    to the two lists of waiting tasks, and what follows over every run. */
module QueueRuns {
  import opened Options
  import opened Rings
  import opened TaskLists
  import opened QueueProtocol
  import opened QueueStorage

  // ---- Messages ----------------------------------------------------------------------------

  /** The message of a send and the end of the queue that it goes to. */
  datatype Datum<T> = Datum(x: T, front: bool)

  /** The operation on the messages that a step attempts. */
  function Attempt<T>(e: Event, d: Datum<T>): Option<Op<T>> {
    match e
    case TaskSend(_, overwrite) => Some(SendOp(d, overwrite))
    case SendFromISR(overwrite) => Some(SendOp(d, overwrite))
    case TaskReceive(_, peek) => Some(if peek then Look else QueueStorage.Take)
    case ReceiveFromISR => Some(QueueStorage.Take)
    case _ => None
  }

  function SendOp<T>(d: Datum<T>, overwrite: bool): Op<T> {
    if overwrite then Overwrite(d.x) else if d.front then Front(d.x) else Back(d.x)
  }

  function Attempts<T>(es: seq<Event>, ds: seq<Datum<T>>): seq<Op<T>>
    requires |ds| == |es|
    decreases |es|
  {
    if es == [] then []
    else
      var op := Attempt(es[0], ds[0]);
      (if op.Some? then [op.value] else []) + Attempts(es[1..], ds[1..])
  }

  /** Whether the call returns pdPASS. */
  predicate Accepted(q: Queue, e: Event) {
    match e
    case TaskSend(_, overwrite) => q.count < q.length || overwrite
    case SendFromISR(overwrite) => q.count < q.length || overwrite
    case TaskReceive(_, _) => q.count > 0
    case ReceiveFromISR => q.count > 0
    case _ => false
  }

  predicate Moves(e: Event) {
    e.TaskSend? || e.SendFromISR? || e.TaskReceive? || e.ReceiveFromISR?
  }

  /** The return values of the calls that attempt something, in order. */
  ghost function Returns(q: Queue, es: seq<Event>): seq<bool>
    requires PossibleRun(q, es)
    decreases |es|
  {
    if es == [] then []
    else (if Moves(es[0]) then [Accepted(q, es[0])] else []) + Returns(Step(q, es[0]), es[1..])
  }

  predicate Succeeded<T>(r: Reply<T>) {
    r.Sent? || r.Got?
  }

  lemma OneAttempt<T>(q: Queue, items: seq<T>, e: Event, d: Datum<T>)
    requires Possible(q, e) && q.count == |items| <= q.length
    ensures Moves(e) <==> Attempt(e, d).Some?
    ensures var op := Attempt(e, d); var q' := Step(q, e);
            && q'.count <= q'.length == q.length
            && (op.Some? ==> var (items', r) := DequeStep(items, q.length, op.value);
                             q'.count == |items'| && (Accepted(q, e) <==> Succeeded(r)))
            && (op.None? ==> q'.count == q.count)
  {
    hide WakeOne, Retry, Notify, Unlock, Enlist, Leave, Outside;
  }

  /** Over every interleaving of tasks and interrupts, uxMessagesWaiting is the number of messages in
      the deque, and each call returns what the deque replies to it. */
  lemma {:induction false} QueueIsDeque<T>(q: Queue, items: seq<T>, es: seq<Event>, ds: seq<Datum<T>>)
    requires PossibleRun(q, es) && q.count == |items| <= q.length && |ds| == |es|
    ensures var (end, replies) := DequeRun(items, q.length, Attempts(es, ds));
            && Run(q, es).count == |end| <= q.length && Run(q, es).length == q.length
            && |replies| == |Returns(q, es)|
            && forall i :: 0 <= i < |replies| ==> (Returns(q, es)[i] <==> Succeeded(replies[i]))
    decreases |es|
  {
    hide Step, DequeStep, Accepted, Attempt, Moves, Succeeded, Outside;
    if es != [] {
      OneAttempt(q, items, es[0], ds[0]);
      var op := Attempt(es[0], ds[0]);
      if op.Some? {
        assert Attempts(es, ds)[1..] == Attempts(es[1..], ds[1..]);
        QueueIsDeque(Step(q, es[0]), DequeStep(items, q.length, op.value).0, es[1..], ds[1..]);
      } else {
        assert Attempts(es, ds) == Attempts(es[1..], ds[1..]);
        QueueIsDeque(Step(q, es[0]), items, es[1..], ds[1..]);
      }
    }
  }

  /** Accepted sends that overwrite nothing. */
  ghost function Posted(q: Queue, es: seq<Event>): nat
    requires PossibleRun(q, es)
    decreases |es|
  {
    if es == [] then 0
    else
      var adds := (es[0].TaskSend? || es[0].SendFromISR?) && Accepted(q, es[0]) && !(es[0].overwrite && q.count > 0);
      (if adds then 1 else 0) + Posted(Step(q, es[0]), es[1..])
  }

  /** Accepted receives that are not peeks. */
  ghost function Fetched(q: Queue, es: seq<Event>): nat
    requires PossibleRun(q, es)
    decreases |es|
  {
    if es == [] then 0
    else
      var takes := (es[0].ReceiveFromISR? || (es[0].TaskReceive? && !es[0].peek)) && Accepted(q, es[0]);
      (if takes then 1 else 0) + Fetched(Step(q, es[0]), es[1..])
  }

  /** Conservation of messages: over every run the number of messages is the initial one plus those
      posted less those fetched. */
  lemma {:induction false} MessagesAreConserved(q: Queue, es: seq<Event>)
    requires PossibleRun(q, es)
    ensures Run(q, es).count == q.count + Posted(q, es) - Fetched(q, es)
    decreases |es|
  {
    hide Outside, WakeOne, Retry, Notify, Unlock, Enlist, Leave;
    if es != [] {
      MessagesAreConserved(Step(q, es[0]), es[1..]);
    }
  }

  // ---- Waiting tasks -----------------------------------------------------------------------

  /** The first `n` waiters have been woken; `t` has tried again if it is one of those woken before. */
  ghost predicate FirstWoken(s: Side, s': Side, n: nat, tries: Option<Task>) {
    && n <= |s.wait| && s'.wait == s.wait[n..]
    && s'.woken == (if tries.Some? then s.woken - {tries.value} else s.woken) + Members(s.wait[..n])
  }

  /** How many receivers a step wakes: the first one for a message added or left behind by a peek,
      unless the queue is locked; and one for each post counted when the lock ends. */
  function ReceiversToWake(q: Queue, e: Event): nat {
    match e
    case TaskSend(_, _) => if Accepted(q, e) then 1 else 0
    case TaskReceive(_, peek) => if Accepted(q, e) && peek then 1 else 0
    case SendFromISR(_) => if Accepted(q, e) && q.rx.lock == UNLOCKED then 1 else 0
    case UnlockTx => Pending(q.rx)
    case _ => 0
  }

  /** How many senders a step wakes: the first one for a message taken, unless the queue is locked; and
      one for each removal counted when the lock ends. */
  function SendersToWake(q: Queue, e: Event): nat {
    match e
    case TaskReceive(_, peek) => if Accepted(q, e) && !peek then 1 else 0
    case ReceiveFromISR => if Accepted(q, e) && q.tx.lock == UNLOCKED then 1 else 0
    case UnlockRx => Pending(q.tx)
    case _ => 0
  }

  function Least(a: nat, b: nat): nat {
    if a < b then a else b
  }

  function Retries(e: Event, sending: bool): Option<Task> {
    match e
    case TaskSend(t, _) => if sending then Some(t) else None
    case TaskReceive(t, _) => if sending then None else Some(t)
    case _ => None
  }

  /** What the step is about, when it is not about waking. */
  predicate Rearranges(e: Event) {
    e.Place? || e.LeaveList?
  }

  lemma WakeOneIs(s: Side, t: Task)
    ensures FirstWoken(s, s, 0, None) && FirstWoken(s, Retry(s, t), 0, Some(t))
    ensures FirstWoken(s, WakeOne(s), Least(1, |s.wait|), None)
    ensures FirstWoken(s, WakeOne(Retry(s, t)), Least(1, |s.wait|), Some(t))
  {
    assert s.wait[..0] == [] && s.wait[0..] == s.wait;
    if s.wait != [] {
      assert s.wait[..1] == [s.wait[0]];
    }
  }

  lemma WokenThenMore(s: Side, s1: Side, s2: Side, n: nat)
    requires s.wait != [] && s1.wait == s.wait[1..] && s1.woken == s.woken + {s.wait[0]} && FirstWoken(s1, s2, n, None)
    ensures FirstWoken(s, s2, n + 1, None)
  {
    assert s.wait[1..][..n] == s.wait[1..n + 1];
    assert s.wait[..n + 1] == [s.wait[0]] + s.wait[1..n + 1];
    assert s.wait[1..][n..] == s.wait[n + 1..];
  }

  lemma {:induction false} DrainWakes(s: Side)
    ensures FirstWoken(s, Drain(s), Least(Pending(s), |s.wait|), None)
    decreases s.lock
  {
    hide FirstWoken;
    if s.lock > 0 && s.wait != [] {
      var s1 := WakeOne(s).(lock := s.lock - 1);
      DrainWakes(s1);
      WokenThenMore(s, s1, Drain(s1), Least(Pending(s1), |s1.wait|));
    } else {
      WakeOneIs(s, 0);
    }
  }

  /** Every step takes exactly so many tasks off the front of each list, in order, and leaves the rest
      where they are; a list that the step does not serve is left alone. */
  lemma StepWakes(q: Queue, e: Event)
    requires !Rearranges(e)
    ensures var q' := Step(q, e);
            && FirstWoken(q.rx, q'.rx, Least(ReceiversToWake(q, e), |q.rx.wait|), Retries(e, false))
            && FirstWoken(q.tx, q'.tx, Least(SendersToWake(q, e), |q.tx.wait|), Retries(e, true))
  {
    hide FirstWoken, WakeOne, Retry, Drain;
    var t := if e.TaskSend? || e.TaskReceive? then e.t else 0;
    WakeOneIs(q.rx, t);
    WakeOneIs(q.tx, t);
    SameTasks(q.rx, Lock(q.rx), Lock(q.rx).lock);
    SameTasks(q.tx, Lock(q.tx), Lock(q.tx).lock);
    SameTasks(q.rx, Notify(q.rx), Notify(q.rx).lock);
    SameTasks(q.tx, Notify(q.tx), Notify(q.tx).lock);
    match e
    case UnlockTx => DrainWakes(q.rx); OtherLock(q.rx, Drain(q.rx), UNLOCKED, Least(Pending(q.rx), |q.rx.wait|));
    case UnlockRx => DrainWakes(q.tx); OtherLock(q.tx, Drain(q.tx), UNLOCKED, Least(Pending(q.tx), |q.tx.wait|));
    case _ =>
  }

  lemma OtherLock(s: Side, s': Side, lock: int, n: nat)
    requires FirstWoken(s, s', n, None)
    ensures FirstWoken(s, s'.(lock := lock), n, None)
  {
  }

  lemma SameTasks(s: Side, s': Side, lock: int)
    ensures s' == s.(lock := lock) ==> FirstWoken(s, s', 0, None)
  {
    assert s.wait[..0] == [] && s.wait[0..] == s.wait;
  }

  /** A task that blocks is put on the list of its side, at the given place, and one that leaves is on
      no list afterwards; nobody else moves or is woken. */
  lemma StepRearranges(q: Queue, e: Event)
    requires Possible(q, e) && Rearranges(e)
    ensures var q' := Step(q, e);
            && q'.rx.woken == q.rx.woken && q'.tx.woken == q.tx.woken && q'.count == q.count
            && (e.LeaveList? ==> q'.rx.wait == Without(q.rx.wait, e.t) && q'.tx.wait == Without(q.tx.wait, e.t))
            && (e.Place? ==> var (mine, mine', other, other') := if q.phase.sending then (q.tx, q'.tx, q.rx, q'.rx)
                                                                 else (q.rx, q'.rx, q.tx, q'.tx);
                             && other' == other && |mine'.wait| == |mine.wait| + 1 && mine'.wait[e.place] == q.phase.t
                             && mine'.wait[..e.place] == mine.wait[..e.place]
                             && mine'.wait[e.place + 1..] == mine.wait[e.place..])
  {
  }

  /** Accepted sends and accepted peeks: each is a message that a receiver may find. */
  ghost function Announced(q: Queue, es: seq<Event>): nat
    requires PossibleRun(q, es)
    decreases |es|
  {
    if es == [] then 0
    else
      var tells := (es[0].TaskSend? || es[0].SendFromISR? || (es[0].TaskReceive? && es[0].peek)) && Accepted(q, es[0]);
      (if tells then 1 else 0) + Announced(Step(q, es[0]), es[1..])
  }

  ghost function ReceiversWoken(q: Queue, es: seq<Event>): nat
    requires PossibleRun(q, es)
    decreases |es|
  {
    if es == [] then 0
    else Least(ReceiversToWake(q, es[0]), |q.rx.wait|) + ReceiversWoken(Step(q, es[0]), es[1..])
  }

  ghost function SendersWoken(q: Queue, es: seq<Event>): nat
    requires PossibleRun(q, es)
    decreases |es|
  {
    if es == [] then 0
    else Least(SendersToWake(q, es[0]), |q.tx.wait|) + SendersWoken(Step(q, es[0]), es[1..])
  }

  lemma {:induction false} WakesHaveCause(q: Queue, es: seq<Event>)
    requires PossibleRun(q, es)
    ensures ReceiversWoken(q, es) + Pending(Run(q, es).rx) <= Pending(q.rx) + Announced(q, es)
    ensures SendersWoken(q, es) + Pending(Run(q, es).tx) <= Pending(q.tx) + Fetched(q, es)
    decreases |es|
  {
    hide Outside, WakeOne, Retry, Enlist, Leave, Drain;
    if es != [] {
      PendingAfter(q, es[0]);
      WakesHaveCause(Step(q, es[0]), es[1..]);
    }
  }

  lemma PendingAfter(q: Queue, e: Event)
    requires Possible(q, e)
    ensures var q' := Step(q, e);
            var post := e.SendFromISR? && Accepted(q, e) && q.rx.lock != UNLOCKED;
            var removal := e.ReceiveFromISR? && Accepted(q, e) && q.tx.lock != UNLOCKED;
            && Pending(q'.rx) <= (if e.UnlockTx? then 0 else Pending(q.rx) + if post then 1 else 0)
            && Pending(q'.tx) <= (if e.UnlockRx? then 0 else Pending(q.tx) + if removal then 1 else 0)
  {
    hide Outside, Drain, Without;
  }

  /** No wake-up without cause: over every run no more receivers are woken than messages were announced,
      and no more senders than messages were taken, not even counting those that unlocking will wake. */
  lemma NoSpuriousWakeUp(length: nat, count: nat, es: seq<Event>)
    requires PossibleRun(Created(length, count), es)
    ensures var q := Run(Created(length, count), es);
            && ReceiversWoken(Created(length, count), es) + Pending(q.rx) <= Announced(Created(length, count), es)
            && SendersWoken(Created(length, count), es) + Pending(q.tx) <= Fetched(Created(length, count), es)
  {
    WakesHaveCause(Created(length, count), es);
  }

  // ---- xQueueGenericReset ------------------------------------------------------------------

  /** A reset empties and unlocks the queue, wakes the first blocked sender and leaves the receivers. */
  lemma ResetIs(q: Queue)
    ensures var q' := QueueProtocol.Reset(q);
            && q'.count == 0 && q'.length == q.length && q'.phase == q.phase
            && q'.rx.lock == UNLOCKED && q'.tx.lock == UNLOCKED
            && FirstWoken(q.rx, q'.rx, 0, None) && FirstWoken(q.tx, q'.tx, Least(1, |q.tx.wait|), None)
  {
    hide FirstWoken;
    SameTasks(q.rx, q.rx.(lock := UNLOCKED), UNLOCKED);
    WakeOneIs(q.tx.(lock := UNLOCKED), 0);
    OtherStart(q.tx, QueueProtocol.Reset(q).tx, UNLOCKED, Least(1, |q.tx.wait|));
  }

  lemma OtherStart(s: Side, s': Side, lock: int, n: nat)
    requires FirstWoken(s.(lock := lock), s', n, None)
    ensures FirstWoken(s, s', n, None)
  {
  }
}
