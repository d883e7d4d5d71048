/** The lock counts of a queue are int8_t: which tasks are woken in a whole lock period of
    queue.c, with any interrupts at any time in it, and when a wake-up is lost. */
module QueueLocks {
  import opened Options
  import opened Rings
  import opened TaskLists
  import opened QueueProtocol

  // ---- One side --------------------------------------------------------------------------

  /** `n` interrupt events on one side. */
  function Notified(s: Side, n: nat): Side
    decreases n
  {
    if n == 0 then s else Notify(Notified(s, n - 1))
  }

  lemma {:induction false} NotifiedTwice(s: Side, a: nat, b: nat)
    ensures Notified(Notified(s, a), b) == Notified(s, a + b)
    decreases b
  {
    if b > 0 {
      NotifiedTwice(s, a, b - 1);
    }
  }

  /** The first `n` waiters woken. */
  ghost function Woken(s: Side, n: nat): Side
    requires n <= |s.wait|
  {
    s.(wait := s.wait[n..], woken := s.woken + Members(s.wait[..n]))
  }

  function Min(a: nat, b: nat): nat {
    if a < b then a else b
  }

  /** The lock count after `m` events since the queue was locked: it wraps at 128 and, when it
      reaches the value of an unlocked queue, stays there. */
  function LockAfter(m: nat): int {
    if m <= 127 then m else if m <= 255 then m - 256 else UNLOCKED
  }

  /** How many of events `m0 + 1` to `m0 + n` of a lock find the count at the value of an unlocked
      queue and so wake a task at once. */
  function Direct(m0: nat, n: nat): nat {
    if m0 + n <= 255 then 0 else if m0 <= 255 then m0 + n - 255 else n
  }

  lemma WokenNone(s: Side)
    ensures Woken(s, 0) == s
  {
    assert s.wait[0..] == s.wait;
  }

  lemma WokenNext(s: Side, n: nat)
    requires n <= |s.wait|
    ensures WakeOne(Woken(s, n)) == Woken(s, Min(n + 1, |s.wait|))
  {
    if n < |s.wait| {
      assert s.wait[n..][1..] == s.wait[n + 1..];
      assert s.wait[..n + 1] == s.wait[..n] + [s.wait[n]];
    }
  }

  /** `n` more events after the first `m0` of a lock. */
  lemma {:induction false} NotifiedIs(s: Side, m0: nat, n: nat)
    requires s.lock == LockAfter(m0)
    ensures Notified(s, n) == Woken(s, Min(Direct(m0, n), |s.wait|)).(lock := LockAfter(m0 + n))
    decreases n
  {
    hide Woken;
    if n == 0 {
      WokenNone(s);
    } else {
      NotifiedIs(s, m0, n - 1);
      WokenNext(s, Min(Direct(m0, n - 1), |s.wait|));
      WokenLock(s, Min(Direct(m0, n - 1), |s.wait|), LockAfter(m0 + n - 1));
    }
  }

  lemma WokenLock(s: Side, n: nat, lock: int)
    requires n <= |s.wait|
    ensures var s1 := Woken(s, n);
            WakeOne(s1.(lock := lock)) == WakeOne(s1).(lock := lock) && s1.lock == s.lock && |s1.wait| == |s.wait| - n
  {
  }

  lemma WokenFirst(s: Side, n: nat)
    requires 0 < n <= |s.wait|
    ensures Woken(WakeOne(s), n - 1) == Woken(s, n)
  {
    var s1 := WakeOne(s);
    assert s1.wait[n - 1..] == s.wait[n..];
    assert s.wait[..n] == [s.wait[0]] + s1.wait[..n - 1];
    assert Members(s.wait[..n]) == {s.wait[0]} + Members(s1.wait[..n - 1]);
  }

  lemma {:induction false} DrainIs(s: Side)
    ensures s.lock >= 0 ==> Drain(s) == Woken(s, Min(s.lock, |s.wait|)).(lock := s.lock - Min(s.lock, |s.wait|))
    ensures s.lock < 0 ==> Drain(s) == s
    decreases s.lock
  {
    hide Members;
    if s.lock > 0 && s.wait != [] {
      DrainIs(WakeOne(s).(lock := s.lock - 1));
      WokenFirst(s, Min(s.lock, |s.wait|));
    } else if s.lock >= 0 {
      WokenNone(s);
    }
  }

  /** How many of the `waiting` tasks the unlock and the last `n` of `m0 + n` events wake. */
  function WokenBy(m0: nat, n: nat, waiting: nat): (w: nat)
    ensures w <= waiting
  {
    Min(if m0 + n <= 127 then m0 + n else Direct(m0, n), waiting)
  }

  /** `n` events after the first `m0` of a lock, and the unlock, wake exactly the first waiters: one
      for each of all the events if there are at most 127, and otherwise one for each of the `n`
      events from the 256th of the lock on. */
  lemma UnlockWakes(s: Side, m0: nat, n: nat)
    requires s.lock == LockAfter(m0)
    ensures Unlock(Notified(s, n)) == Woken(s, WokenBy(m0, n, |s.wait|)).(lock := UNLOCKED)
  {
    NotifiedIs(s, m0, n);
    DrainIs(Notified(s, n));
    WokenNone(s);
  }

  /** No task is on the event list twice, or both on it and woken. */
  ghost predicate Separate(s: Side) {
    NoDup(s.wait) && forall t :: t in s.wait ==> t !in s.woken
  }

  lemma WokenSize(s: Side, n: nat, lock: int)
    requires Separate(s) && n <= |s.wait|
    ensures var s' := Woken(s, n).(lock := lock);
            && Separate(s') && |s'.wait| == |s.wait| - n && |s'.woken| == |s.woken| + n
            && (forall t :: Outside(s, t) ==> Outside(s', t)) && (forall t :: t in s'.wait ==> t in s.wait)
  {
    var first := s.wait[..n];
    MembersCount(first);
    assert Members(first) <= Members(s.wait);
    assert forall t :: t in s.wait[n..] ==> t in s.wait;
  }

  /** What happens to one side in a lock period: `before` events, perhaps a task placed on the event
      list, `after` events, the unlock, and `late` events before the other side is unlocked. */
  datatype Course = Course(before: nat, place: Option<(Task, nat)>, after: nat, late: nat)

  predicate Fits(s: Side, c: Course) {
    c.place.Some? ==> c.place.value.1 <= |Notified(s, c.before).wait|
  }

  function Joined(s: Side, place: Option<(Task, nat)>): Side
    requires place.Some? ==> place.value.1 <= |s.wait|
  {
    if place.None? then s else Enlist(s, place.value.0, place.value.1)
  }

  function Ended(s: Side, c: Course): Side
    requires Fits(s, c)
  {
    Notified(Unlock(Notified(Joined(Notified(s, c.before), c.place), c.after)), c.late)
  }

  /** The tasks that wait in the period, and how many of them it wakes. */
  function Waiters(s: Side, c: Course): nat {
    |s.wait| + if c.place.Some? then 1 else 0
  }

  function WokenIn(s: Side, c: Course): (w: nat)
    ensures w <= Waiters(s, c)
  {
    var early := Min(Direct(0, c.before), |s.wait|);
    var rest := Waiters(s, c) - early;
    var unlocked := WokenBy(c.before, c.after, rest);
    early + unlocked + Min(c.late, rest - unlocked)
  }

  lemma {:induction false} NotifiedUnlocked(s: Side, n: nat)
    requires s.lock == UNLOCKED
    ensures Notified(s, n) == Woken(s, Min(n, |s.wait|))
    decreases n
  {
    hide Woken;
    if n == 0 {
      WokenNone(s);
    } else {
      NotifiedUnlocked(s, n - 1);
      WokenNext(s, Min(n - 1, |s.wait|));
      WokenLock(s, Min(n - 1, |s.wait|), UNLOCKED);
    }
  }

  lemma JoinedSize(s: Side, place: Option<(Task, nat)>)
    requires Separate(s) && (place.Some? ==> place.value.1 <= |s.wait| && Outside(s, place.value.0))
    ensures var j := Joined(s, place);
            && Separate(j) && j.woken == s.woken && j.lock == s.lock
            && |j.wait| == |s.wait| + (if place.Some? then 1 else 0)
            && (forall t :: t in j.wait ==> t in s.wait || (place.Some? && t == place.value.0))
  {
    if place.Some? {
      InsertionMembers(Ring(s.wait, 0), place.value.1, place.value.0);
    }
  }

  /** How many tasks are left waiting and how many woken at the end of the period. */
  lemma EndedIs(s: Side, c: Course)
    requires Separate(s) && s.lock == 0 && Fits(s, c) && (c.place.Some? ==> Outside(s, c.place.value.0))
    ensures var s' := Ended(s, c); var w := WokenIn(s, c);
            && |s'.wait| == Waiters(s, c) - w && |s'.woken| == |s.woken| + w && s'.lock == UNLOCKED
            && (forall t :: t in s'.wait ==> t in s.wait || (c.place.Some? && t == c.place.value.0))
  {
    hide Notified, Unlock, Joined, Woken, Separate, Outside, Direct;
    var early := Min(Direct(0, c.before), |s.wait|);
    NotifiedIs(s, 0, c.before);
    WokenSize(s, early, LockAfter(c.before));
    var s1 := Notified(s, c.before);
    JoinedSize(s1, c.place);
    var s2 := Joined(s1, c.place);
    UnlockWakes(s2, c.before, c.after);
    WokenSize(s2, WokenBy(c.before, c.after, |s2.wait|), UNLOCKED);
    var s3 := Unlock(Notified(s2, c.after));
    NotifiedUnlocked(s3, c.late);
    WokenLock(s3, Min(c.late, |s3.wait|), UNLOCKED);
    WokenSize(s3, Min(c.late, |s3.wait|), UNLOCKED);
  }

  /** A wake-up is lost in a lock period, so that a task is left waiting for something that is there
      and that no woken task will take, if and only if 128 or more events came before the unlock, more
      tasks wait than the period wakes, and there is more than all woken tasks can take. What is there
      at the end is bounded by what was there for the tasks already woken, or found missing by the
      task that was placed, and by the events since. */
  lemma WakeUpLostIff(s: Side, c: Course, available: int)
    requires Separate(s) && s.lock == 0 && Fits(s, c) && (c.place.Some? ==> Outside(s, c.place.value.0))
    requires Waiters(s, c) > 0 ==> available <= |s.woken| + c.before + c.after + c.late
    ensures !Served(Ended(s, c), available) <==>
              && c.before + c.after >= 128 && WokenIn(s, c) < Waiters(s, c)
              && available > |s.woken| + WokenIn(s, c)
  {
    hide Ended;
    EndedIs(s, c);
  }

  // ---- Interrupts on the whole queue -----------------------------------------------------------

  ghost predicate Interrupts(q: Queue, es: seq<Event>) {
    forall e :: e in es ==> (e.SendFromISR? && (e.overwrite ==> q.length == 1)) || e.ReceiveFromISR?
  }

  predicate Posts(q: Queue, e: Event) {
    e.SendFromISR? && (q.count < q.length || e.overwrite)
  }

  predicate Removes(q: Queue, e: Event) {
    e.ReceiveFromISR? && q.count > 0
  }

  /** The posts that succeed. */
  ghost function PostsIn(q: Queue, es: seq<Event>): nat
    requires Interrupts(q, es)
    decreases |es|
  {
    if es == [] then 0 else (if Posts(q, es[0]) then 1 else 0) + PostsIn(Step(q, es[0]), es[1..])
  }

  /** The receives that succeed. */
  ghost function RemovalsIn(q: Queue, es: seq<Event>): nat
    requires Interrupts(q, es)
    decreases |es|
  {
    if es == [] then 0 else (if Removes(q, es[0]) then 1 else 0) + RemovalsIn(Step(q, es[0]), es[1..])
  }

  lemma {:induction false} InterruptsRun(q: Queue, es: seq<Event>)
    requires Interrupts(q, es) && q.count <= q.length
    ensures PossibleRun(q, es)
    ensures var q', posts, removals := Run(q, es), PostsIn(q, es), RemovalsIn(q, es);
            && q' == q.(count := q'.count, rx := Notified(q.rx, posts), tx := Notified(q.tx, removals))
            && q'.count <= q'.length && q'.count <= q.count + posts && Free(q') <= Free(q) + removals
    decreases |es|
  {
    hide Notify;
    if es != [] {
      assert es[0] in es;
      var q1 := Step(q, es[0]);
      InterruptsRun(q1, es[1..]);
      NotifiedTwice(q.rx, 1, PostsIn(q1, es[1..]));
      NotifiedTwice(q.tx, 1, RemovalsIn(q1, es[1..]));
      assert Notified(q.rx, 0) == q.rx && Notified(q.tx, 0) == q.tx;
      assert Notified(q.rx, 1) == Notify(q.rx) && Notified(q.tx, 1) == Notify(q.tx);
    }
  }

  // ---- A whole lock period ---------------------------------------------------------------------

  /** The interrupts of a lock period: before and after the check that decides about blocking, after
      the placing, and between the two halves of the unlock. */
  datatype Period = Period(t: Task, sending: bool, timedOut: bool, place: nat,
                           locked: seq<Event>, checked: seq<Event>, placed: seq<Event>, half: seq<Event>)

  ghost predicate InterruptsOf(q: Queue, p: Period) {
    Interrupts(q, p.locked) && Interrupts(q, p.checked) && Interrupts(q, p.placed) && Interrupts(q, p.half)
  }

  ghost function AtLock(q: Queue, p: Period): Queue {
    Step(q, BeginBlock(p.t, p.sending))
  }

  ghost function After(q: Queue, es: seq<Event>): (q': Queue)
    requires Interrupts(q, es) && q.count <= q.length
    ensures q'.length == q.length && q'.count <= q'.length && q'.phase == q.phase
  {
    InterruptsRun(q, es);
    Run(q, es)
  }

  lemma AfterIs(q: Queue, es: seq<Event>)
    requires Interrupts(q, es) && q.count <= q.length
    ensures var q', posts, removals := After(q, es), PostsIn(q, es), RemovalsIn(q, es);
            && q'.rx == Notified(q.rx, posts) && q'.tx == Notified(q.tx, removals)
            && q'.count <= q.count + posts && Free(q') <= Free(q) + removals
  {
    InterruptsRun(q, es);
  }

  /** Whether the task finds the queue full (or empty) and goes on to block. */
  ghost predicate WillBlock(q: Queue, p: Period) {
    !p.timedOut && if p.sending then q.count == q.length else q.count == 0
  }

  ghost predicate PlaceFits(q: Queue, p: Period) {
    p.place <= |(if p.sending then q.tx else q.rx).wait|
  }

  ghost function Placed(q: Queue, p: Period, blocks: bool): Queue
    requires blocks ==> CanPlace(q, p.place)
  {
    if blocks then Step(q, Place(p.place)) else q
  }

  ghost function Tail(p: Period): seq<Event> {
    p.placed + ([UnlockTx] + (p.half + ([UnlockRx] + [])))
  }

  ghost function Middle(p: Period, blocks: bool): seq<Event> {
    p.checked + ((if blocks then [Place(p.place)] else []) + Tail(p))
  }

  ghost function Events(p: Period, blocks: bool): seq<Event> {
    [BeginBlock(p.t, p.sending)] + (p.locked + ([Check(p.timedOut)] + Middle(p, blocks)))
  }

  /** From where the task has been placed, or found no need, to the end of the period. */
  lemma TailRun(q: Queue, p: Period)
    requires InterruptsOf(q, p) && q.count <= q.length && q.phase.Unlocking?
    ensures PossibleRun(q, Tail(p))
    ensures var q1 := After(q, p.placed); var q2 := Step(q1, UnlockTx); var q3 := After(q2, p.half);
            q3.phase.HalfUnlocked? && Run(q, Tail(p)) == Step(q3, UnlockRx)
  {
    hide Run, PossibleRun, Notified, Unlock;
    InterruptsRun(q, p.placed);
    var q1 := After(q, p.placed);
    var q2 := Step(q1, UnlockTx);
    InterruptsRun(q2, p.half);
    var q3 := After(q2, p.half);
    RunNone(Step(q3, UnlockRx));
    RunOne(q3, UnlockRx, []);
    RunAppend(q2, p.half, [UnlockRx] + []);
    RunOne(q1, UnlockTx, p.half + ([UnlockRx] + []));
    RunAppend(q, p.placed, [UnlockTx] + (p.half + ([UnlockRx] + [])));
  }

  lemma RunNone(q: Queue)
    ensures PossibleRun(q, []) && Run(q, []) == q
  {
  }

  lemma MiddleRun(q: Queue, p: Period, blocks: bool)
    requires InterruptsOf(q, p) && q.count <= q.length && (blocks ==> PlaceFits(After(q, p.checked), p))
    requires if blocks then q.phase == Checked(p.t, p.sending) else q.phase.Unlocking?
    ensures var q1 := After(q, p.checked);
            && q1.phase == q.phase && (blocks ==> CanPlace(q1, p.place))
            && var q2 := Placed(q1, p, blocks);
               && q2.phase.Unlocking? && q2.count == q1.count <= q2.length && InterruptsOf(q2, p)
               && PossibleRun(q2, Tail(p)) && PossibleRun(q, Middle(p, blocks))
               && Run(q, Middle(p, blocks)) == Run(q2, Tail(p))
  {
    hide Run, PossibleRun, Notified, Tail;
    InterruptsRun(q, p.checked);
    var q1 := After(q, p.checked);
    var q2 := Placed(q1, p, blocks);
    TailRun(q2, p);
    if blocks {
      RunOne(q1, Place(p.place), Tail(p));
    } else {
      assert [] + Tail(p) == Tail(p);
    }
    RunAppend(q, p.checked, (if blocks then [Place(p.place)] else []) + Tail(p));
  }

  lemma AfterLocked(q: Queue, p: Period)
    requires q.count <= q.length && InterruptsOf(q, p)
    ensures var q1 := After(AtLock(q, p), p.locked); var q2 := Step(q1, Check(p.timedOut));
            && q1.phase == Locked(p.t, p.sending) && InterruptsOf(q1, p) && q2 == q1.(phase := q2.phase)
            && q2.phase == if WillBlock(q1, p) then Checked(p.t, p.sending) else Unlocking
  {
  }

  /** The state after the check, and the one in which the task is placed. */
  ghost function AtCheck(q: Queue, p: Period): (q': Queue)
    requires q.count <= q.length && InterruptsOf(q, p)
    ensures q'.length == q.length && q'.count <= q'.length && InterruptsOf(q', p)
    ensures q'.phase == Checked(p.t, p.sending) || q'.phase == Unlocking
  {
    AfterLocked(q, p);
    Step(After(AtLock(q, p), p.locked), Check(p.timedOut))
  }

  ghost function AtPlace(q: Queue, p: Period): (q': Queue)
    requires q.count <= q.length && InterruptsOf(q, p)
    ensures q'.length == q.length && q'.count <= q'.length && InterruptsOf(q', p) && q'.phase == AtCheck(q, p).phase
  {
    After(AtCheck(q, p), p.checked)
  }

  /** The task is placed on its event list in this period. */
  ghost predicate IsPlaced(q: Queue, p: Period)
    requires q.count <= q.length && InterruptsOf(q, p)
  {
    AtCheck(q, p).phase.Checked?
  }

  /** A period that can happen: the place is one of the event list. */
  ghost predicate CanHappen(q: Queue, p: Period) {
    && Inv(q) && Possible(q, BeginBlock(p.t, p.sending)) && InterruptsOf(q, p)
    && (IsPlaced(q, p) ==> PlaceFits(AtPlace(q, p), p))
  }

  ghost function AtUnlock(q: Queue, p: Period): (q': Queue)
    requires CanHappen(q, p)
    ensures q'.length == q.length && q'.count <= q'.length && InterruptsOf(q', p) && q'.phase.Unlocking?
  {
    Placed(AtPlace(q, p), p, IsPlaced(q, p))
  }

  ghost function AtHalf(q: Queue, p: Period): (q': Queue)
    requires CanHappen(q, p)
    ensures q'.length == q.length && q'.count <= q'.length && InterruptsOf(q', p)
  {
    Step(After(AtUnlock(q, p), p.placed), UnlockTx)
  }

  ghost function AtEnd(q: Queue, p: Period): Queue
    requires CanHappen(q, p)
  {
    Step(After(AtHalf(q, p), p.half), UnlockRx)
  }

  /** The events of a period lead from its start to its end. */
  lemma PeriodRun(q: Queue, p: Period)
    requires CanHappen(q, p)
    ensures PossibleRun(q, Events(p, IsPlaced(q, p))) && Run(q, Events(p, IsPlaced(q, p))) == AtEnd(q, p)
  {
    hide Run, PossibleRun, Notified, Apart, Served, PhaseOk, Tail, Middle;
    var q1 := AtLock(q, p);
    InterruptsRun(q1, p.locked);
    var q2 := After(q1, p.locked);
    AfterLocked(q, p);
    var q3 := AtCheck(q, p);
    MiddleRun(q3, p, IsPlaced(q, p));
    TailRun(AtUnlock(q, p), p);
    RunOne(q2, Check(p.timedOut), Middle(p, IsPlaced(q, p)));
    RunAppend(q1, p.locked, [Check(p.timedOut)] + Middle(p, IsPlaced(q, p)));
    RunOne(q, BeginBlock(p.t, p.sending), p.locked + ([Check(p.timedOut)] + Middle(p, IsPlaced(q, p))));
  }

  /** What the period is for each side. */
  ghost function RxCourse(q: Queue, p: Period): Course
    requires CanHappen(q, p)
  {
    Course(PostsIn(AtLock(q, p), p.locked) + PostsIn(AtCheck(q, p), p.checked),
           if IsPlaced(q, p) && !p.sending then Some((p.t, p.place)) else None,
           PostsIn(AtUnlock(q, p), p.placed), PostsIn(AtHalf(q, p), p.half))
  }

  ghost function TxCourse(q: Queue, p: Period): Course
    requires CanHappen(q, p)
  {
    Course(RemovalsIn(AtLock(q, p), p.locked) + RemovalsIn(AtCheck(q, p), p.checked),
           if IsPlaced(q, p) && p.sending then Some((p.t, p.place)) else None,
           RemovalsIn(AtUnlock(q, p), p.placed) + RemovalsIn(AtHalf(q, p), p.half), 0)
  }

  lemma SidesAtPlace(q: Queue, p: Period)
    requires CanHappen(q, p)
    ensures var q' := AtPlace(q, p);
            && q'.rx == Notified(Lock(q.rx), RxCourse(q, p).before)
            && q'.tx == Notified(Lock(q.tx), TxCourse(q, p).before)
  {
    hide Notified, Inv, After, PostsIn, RemovalsIn;
    StartBound(q, p);
    AfterIs(AtLock(q, p), p.locked);
    AfterIs(AtCheck(q, p), p.checked);
    AfterLocked(q, p);
    NotifiedTwice(Lock(q.rx), PostsIn(AtLock(q, p), p.locked), PostsIn(AtCheck(q, p), p.checked));
    NotifiedTwice(Lock(q.tx), RemovalsIn(AtLock(q, p), p.locked), RemovalsIn(AtCheck(q, p), p.checked));
  }

  lemma StartBound(q: Queue, p: Period)
    requires CanHappen(q, p)
    ensures q.count <= q.length
  {
  }

  /** At the end each side has followed its course. */
  lemma SidesAtEnd(q: Queue, p: Period)
    requires CanHappen(q, p)
    ensures var q' := AtEnd(q, p); var r, t := RxCourse(q, p), TxCourse(q, p);
            && q'.phase.Idle? && q'.length == q.length && q'.count <= q'.length
            && Fits(Lock(q.rx), r) && q'.rx == Ended(Lock(q.rx), r)
            && Fits(Lock(q.tx), t) && q'.tx == Ended(Lock(q.tx), t)
  {
    hide Notified, Inv, Unlock, After, PostsIn, RemovalsIn, AtCheck;
    StartBound(q, p);
    SidesAtPlace(q, p);
    var q1, q2 := AtUnlock(q, p), AtHalf(q, p);
    AfterIs(q1, p.placed);
    AfterIs(q2, p.half);
    NotifiedTwice(q1.tx, RemovalsIn(q1, p.placed), RemovalsIn(q2, p.half));
    NotifiedNone(Unlock(Notified(q1.tx, TxCourse(q, p).after)));
  }

  lemma NotifiedNone(s: Side)
    ensures Notified(s, 0) == s
  {
  }

  /** What is there at the end is what was found at the check, or was there at the start, and what
      the events since have brought. */
  lemma CountAtEnd(q: Queue, p: Period)
    requires CanHappen(q, p)
    ensures var q' := AtEnd(q, p); var r, t := RxCourse(q, p), TxCourse(q, p);
            && q'.count <= (if r.place.Some? then 0 else q.count) + r.before + r.after + r.late
            && Free(q') <= (if t.place.Some? then 0 else Free(q)) + t.before + t.after + t.late
  {
    hide Notified, Inv, Unlock, After, PostsIn, RemovalsIn;
    StartBound(q, p);
    AfterIs(AtLock(q, p), p.locked);
    AfterIs(AtCheck(q, p), p.checked);
    AfterLocked(q, p);
    AfterIs(AtUnlock(q, p), p.placed);
    AfterIs(AtHalf(q, p), p.half);
  }

  /** A lock period with any interrupts at any time: at its end a receiver is left blocked with
      messages that no woken receiver will take if and only if 128 or more posts succeeded before the
      first half of the unlock, more receivers wait than the period wakes, and there are more messages
      than woken receivers; and likewise senders, receives and free places. */
  lemma PeriodLostIff(q: Queue, p: Period)
    requires CanHappen(q, p)
    ensures var q' := AtEnd(q, p);
            && PossibleRun(q, Events(p, IsPlaced(q, p))) && q' == Run(q, Events(p, IsPlaced(q, p))) && q'.phase.Idle?
    ensures var q', s, c := AtEnd(q, p), q.rx, RxCourse(q, p);
            q'.rx.wait != [] && q'.count > |q'.rx.woken| <==>
              && c.before + c.after >= 128 && WokenIn(s, c) < Waiters(s, c) && q'.count > |s.woken| + WokenIn(s, c)
    ensures var q', s, c := AtEnd(q, p), q.tx, TxCourse(q, p);
            q'.tx.wait != [] && Free(q') > |q'.tx.woken| <==>
              && c.before + c.after >= 128 && WokenIn(s, c) < Waiters(s, c) && Free(q') > |s.woken| + WokenIn(s, c)
  {
    hide Run, PossibleRun, Events, AtEnd, RxCourse, TxCourse, Ended, WokenIn;
    PeriodRun(q, p);
    SidesAtEnd(q, p);
    CountAtEnd(q, p);
    StartOk(q, p);
    CourseLocks(q.rx, RxCourse(q, p));
    CourseLocks(q.tx, TxCourse(q, p));
    EndedIs(Lock(q.rx), RxCourse(q, p));
    EndedIs(Lock(q.tx), TxCourse(q, p));
    WakeUpLostIff(Lock(q.rx), RxCourse(q, p), AtEnd(q, p).count);
    WakeUpLostIff(Lock(q.tx), TxCourse(q, p), Free(AtEnd(q, p)));
  }

  lemma CourseLocks(s: Side, c: Course)
    ensures WokenIn(Lock(s), c) == WokenIn(s, c)
  {
  }

  lemma StartOk(q: Queue, p: Period)
    requires CanHappen(q, p)
    ensures Separate(Lock(q.rx)) && Separate(Lock(q.tx)) && Lock(q.rx).lock == 0 && Lock(q.tx).lock == 0
    ensures var r, t := RxCourse(q, p), TxCourse(q, p);
            (r.place.Some? ==> Outside(q.rx, r.place.value.0)) && (t.place.Some? ==> Outside(q.tx, t.place.value.0))
    ensures (q.rx.wait != [] ==> q.count <= |q.rx.woken|) && (q.tx.wait != [] ==> Free(q) <= |q.tx.woken|)
  {
  }

  // ---- From creation -----------------------------------------------------------------------------

  function Sends(n: nat): seq<Event> {
    seq(n, _ => SendFromISR(false))
  }

  function Receives(n: nat): seq<Event> {
    seq(n, _ => ReceiveFromISR)
  }

  lemma {:induction false} SendsPost(q: Queue, n: nat)
    requires q.count + n <= q.length
    ensures Interrupts(q, Sends(n)) && PostsIn(q, Sends(n)) == n && RemovalsIn(q, Sends(n)) == 0
    ensures After(q, Sends(n)).count == q.count + n
    decreases n
  {
    hide Notify;
    if n > 0 {
      assert Sends(n)[1..] == Sends(n - 1);
      SendsPost(Step(q, SendFromISR(false)), n - 1);
    }
  }

  lemma {:induction false} ReceivesRemove(q: Queue, n: nat)
    requires n <= q.count <= q.length
    ensures Interrupts(q, Receives(n)) && PostsIn(q, Receives(n)) == 0 && RemovalsIn(q, Receives(n)) == n
    ensures After(q, Receives(n)).count == q.count - n
    decreases n
  {
    hide Notify;
    if n > 0 {
      assert Receives(n)[1..] == Receives(n - 1);
      ReceivesRemove(Step(q, ReceiveFromISR), n - 1);
    }
  }

  /** A receiver finds a new queue empty and blocks; `n1` messages are posted between its check and
      its placing, and `n2` between the placing and the unlock. */
  ghost function ReceiverPeriod(t: Task, n1: nat, n2: nat): Period {
    Period(t, false, false, 0, [], Sends(n1), Sends(n2), [])
  }

  lemma NothingAfter(q: Queue)
    requires q.count <= q.length
    ensures After(q, []) == q && PostsIn(q, []) == 0 && RemovalsIn(q, []) == 0
  {
  }

  lemma ReceiverChecks(length: nat, t: Task, n1: nat, n2: nat)
    requires n1 + n2 <= length
    ensures var q0, p := Created(length, 0), ReceiverPeriod(t, n1, n2);
            && CanHappen(q0, p) && IsPlaced(q0, p) && AtCheck(q0, p).count == 0 && AtUnlock(q0, p).count == n1
            && PostsIn(AtLock(q0, p), p.locked) == 0 && PostsIn(AtCheck(q0, p), p.checked) == n1
  {
    hide Notify;
    var q0, p := Created(length, 0), ReceiverPeriod(t, n1, n2);
    SendsPost(AtLock(q0, p), n1);
    SendsPost(AtLock(q0, p), n2);
    NothingAfter(AtLock(q0, p));
    AfterLocked(q0, p);
    SendsPost(AtCheck(q0, p), n1);
  }

  lemma ReceiverCourse(length: nat, t: Task, n1: nat, n2: nat)
    requires n1 + n2 <= length
    ensures var q0, p := Created(length, 0), ReceiverPeriod(t, n1, n2);
            && CanHappen(q0, p) && IsPlaced(q0, p) && RxCourse(q0, p) == Course(n1, Some((t, 0)), n2, 0)
            && AtEnd(q0, p).count == n1 + n2
  {
    hide AtLock, AtCheck, AtUnlock, CanHappen, IsPlaced, Unlock;
    var q0, p := Created(length, 0), ReceiverPeriod(t, n1, n2);
    ReceiverChecks(length, t, n1, n2);
    SendsPost(AtUnlock(q0, p), n2);
    NothingAfter(AtHalf(q0, p));
  }

  /** It is left blocked with all of them waiting and nobody woken if and only if there are 128 to
      255, or more but none after the placing. */
  lemma ReceiverLostIff(length: nat, t: Task, n1: nat, n2: nat)
    requires n1 + n2 <= length
    ensures var q0, es := Created(length, 0), [TaskReceive(t, false)] + Events(ReceiverPeriod(t, n1, n2), true);
            && PossibleRun(q0, es)
            && var q, m := Run(q0, es), n1 + n2;
               && q.count == m
               && (q.rx.wait == [t] && q.count > 0 && q.rx.woken == {} <==>
                     128 <= m <= 255 || (m >= 256 && n2 == 0))
  {
    hide Events, Run, PossibleRun, AtEnd, CanHappen, IsPlaced, RxCourse, TxCourse, Ended;
    var q0, p := Created(length, 0), ReceiverPeriod(t, n1, n2);
    ReceiverCourse(length, t, n1, n2);
    PeriodLostIff(q0, p);
    SidesAtEnd(q0, p);
    EndedIs(Lock(q0.rx), RxCourse(q0, p));
    assert Step(q0, TaskReceive(t, false)) == q0;
    RunOne(q0, TaskReceive(t, false), Events(p, true));
    var rx := AtEnd(q0, p).rx;
    assert rx.wait != [] ==> rx.wait[0] in rx.wait && rx.wait == [t];
  }

  /** A sender finds a queue full and blocks, and interrupts receive messages. */
  ghost function SenderPeriod(t: Task, n1: nat, n2: nat): Period {
    Period(t, true, false, 0, [], Receives(n1), Receives(n2), [])
  }

  lemma SenderChecks(length: nat, t: Task, n1: nat, n2: nat)
    requires n1 + n2 <= length
    ensures var q0, p := Created(length, length), SenderPeriod(t, n1, n2);
            && CanHappen(q0, p) && IsPlaced(q0, p) && AtUnlock(q0, p).count == length - n1
            && RemovalsIn(AtLock(q0, p), p.locked) == 0 && RemovalsIn(AtCheck(q0, p), p.checked) == n1
  {
    hide Notify;
    var q0, p := Created(length, length), SenderPeriod(t, n1, n2);
    ReceivesRemove(AtLock(q0, p), n1);
    ReceivesRemove(AtLock(q0, p), n2);
    NothingAfter(AtLock(q0, p));
    AfterLocked(q0, p);
    ReceivesRemove(AtCheck(q0, p), n1);
  }

  lemma SenderCourse(length: nat, t: Task, n1: nat, n2: nat)
    requires n1 + n2 <= length
    ensures var q0, p := Created(length, length), SenderPeriod(t, n1, n2);
            && CanHappen(q0, p) && IsPlaced(q0, p) && TxCourse(q0, p) == Course(n1, Some((t, 0)), n2, 0)
            && AtEnd(q0, p).count == length - n1 - n2
  {
    hide AtLock, AtCheck, AtUnlock, CanHappen, IsPlaced, Unlock;
    var q0, p := Created(length, length), SenderPeriod(t, n1, n2);
    SenderChecks(length, t, n1, n2);
    ReceivesRemove(AtUnlock(q0, p), n2);
    NothingAfter(AtHalf(q0, p));
  }

  /** The sender is left blocked with all their places free under the same condition. */
  lemma SenderLostIff(length: nat, t: Task, n1: nat, n2: nat)
    requires n1 + n2 <= length
    ensures var q0, es := Created(length, length), [TaskSend(t, false)] + Events(SenderPeriod(t, n1, n2), true);
            && PossibleRun(q0, es)
            && var q, m := Run(q0, es), n1 + n2;
               && Free(q) == m
               && (q.tx.wait == [t] && Free(q) > 0 && q.tx.woken == {} <==>
                     128 <= m <= 255 || (m >= 256 && n2 == 0))
  {
    hide Events, Run, PossibleRun, AtEnd, CanHappen, IsPlaced, RxCourse, TxCourse, Ended;
    var q0, p := Created(length, length), SenderPeriod(t, n1, n2);
    SenderCourse(length, t, n1, n2);
    PeriodLostIff(q0, p);
    SidesAtEnd(q0, p);
    EndedIs(Lock(q0.tx), TxCourse(q0, p));
    assert Step(q0, TaskSend(t, false)) == q0;
    RunOne(q0, TaskSend(t, false), Events(p, true));
    var tx := AtEnd(q0, p).tx;
    assert tx.wait != [] ==> tx.wait[0] in tx.wait && tx.wait == [t];
  }
}
