/** Whoever waits longest is served first, on the plain scheduler: waiting lists stay in the order of
    priority and, among equals, of blocking. */
module FairWaiting {
  import opened Options
  import opened Rings
  import opened TaskLists
  import opened PlainLists
  import opened Scheduler
  import opened KernelCalls
  import opened PlainScheduler

  /** `x` is to be woken before `y`: it has the higher priority, or the same and blocked earlier. */
  ghost predicate Sooner(prio: map<Task, nat>, since: map<Task, nat>, x: Task, y: Task) {
    && x in prio && y in prio && x in since && y in since
    && (prio[x] > prio[y] || (prio[x] == prio[y] && since[x] < since[y]))
  }

  ghost predicate Fair(s: seq<Task>, prio: map<Task, nat>, since: map<Task, nat>) {
    s != [] ==> (forall y :: y in s[1..] ==> Sooner(prio, since, s[0], y)) && Fair(s[1..], prio, since)
  }

  /** All in the list have blocked before step `n`. */
  ghost predicate Known(s: seq<Task>, prio: map<Task, nat>, since: map<Task, nat>, n: nat) {
    forall x :: x in s ==> x in prio && x in since && since[x] < n
  }

  lemma {:induction false} WithoutIn(s: seq<Task>, t: Task)
    ensures forall x :: x in Without(s, t) <==> x in s && x != t
  {
    if s != [] {
      WithoutIn(s[1..], t);
    }
  }

  lemma {:induction false} WithoutFair(s: seq<Task>, prio: map<Task, nat>, since: map<Task, nat>, t: Task)
    requires Fair(s, prio, since)
    ensures Fair(Without(s, t), prio, since)
  {
    if s != [] {
      WithoutFair(s[1..], prio, since, t);
      WithoutIn(s[1..], t);
      var rest := Without(s[1..], t);
      assert ([s[0]] + rest)[1..] == rest;
    }
  }

  /** Neither priorities nor blocking times of the tasks in the list have changed. */
  lemma {:induction false} SameFair(s: seq<Task>, prio: map<Task, nat>, since: map<Task, nat>,
                                    prio': map<Task, nat>, since': map<Task, nat>)
    requires Fair(s, prio, since)
    requires forall x :: x in s && x in prio ==> x in prio' && prio'[x] == prio[x]
    requires forall x :: x in s && x in since ==> x in since' && since'[x] == since[x]
    ensures Fair(s, prio', since')
  {
    if s != [] {
      SameFair(s[1..], prio, since, prio', since');
    }
  }

  lemma {:induction false} QueuedIn(s: seq<Task>, prio: map<Task, nat>, t: Task)
    ensures forall x :: x in Queued(s, prio, t) <==> x in s || x == t
  {
    if s != [] {
      QueuedIn(s[1..], prio, t);
    }
  }

  lemma {:induction false} QueuedFair(s: seq<Task>, prio: map<Task, nat>, since: map<Task, nat>, t: Task, n: nat)
    requires Fair(s, prio, since) && Known(s, prio, since, n) && t in prio && t in since && since[t] == n
    ensures Fair(Queued(s, prio, t), prio, since)
  {
    var all := Queued(s, prio, t);
    if s == [] || prio[t] > prio[s[0]] {
      assert all[1..] == s;
      forall y | y in s ensures Sooner(prio, since, t, y) {
        assert y == s[0] || y in s[1..];
      }
    } else {
      QueuedFair(s[1..], prio, since, t, n);
      QueuedIn(s[1..], prio, t);
      assert all[1..] == Queued(s[1..], prio, t);
      assert s[0] in s;
    }
  }

  // ---- Plain steps -------------------------------------------------------------------------

  ghost predicate FairFor(a: P, since: map<Task, nat>, n: nat, q: nat) {
    Fair(WaitingFor(a.waits, q), a.prio, since) && Known(WaitingFor(a.waits, q), a.prio, since, n)
  }

  ghost predicate AllFair(a: P, since: map<Task, nat>, n: nat) {
    forall q: nat :: FairFor(a, since, n, q)
  }

  lemma QuitFair(a: P, b: P, since: map<Task, nat>, n: nat, t: Task)
    requires AllFair(a, since, n) && b.waits.waiting == Quit(a.waits, t).waiting
    requires b.prio == a.prio || b.prio == a.prio - {t}
    ensures AllFair(b, since, n)
  {
    hide Fair, Known, Without;
    forall q: nat ensures FairFor(b, since, n, q) {
      assert FairFor(a, since, n, q);
      OneQuitFair(WaitingFor(a.waits, q), a.prio, since, n, t, b.prio);
    }
  }

  lemma OneQuitFair(s: seq<Task>, prio: map<Task, nat>, since: map<Task, nat>, n: nat, t: Task, prio': map<Task, nat>)
    requires Fair(s, prio, since) && Known(s, prio, since, n) && (prio' == prio || prio' == prio - {t})
    ensures Fair(Without(s, t), prio', since) && Known(Without(s, t), prio', since, n)
  {
    WithoutFair(s, prio, since, t);
    WithoutIn(s, t);
    SameFair(Without(s, t), prio, since, prio', since);
  }

  lemma SameWaits(a: P, b: P, since: map<Task, nat>, n: nat)
    requires AllFair(a, since, n) && b.waits.waiting == a.waits.waiting
    requires forall x :: x in a.prio && IsWaiting(a, x) ==> x in b.prio && b.prio[x] == a.prio[x]
    ensures AllFair(b, since, n)
  {
    hide Fair;
    forall q: nat ensures FairFor(b, since, n, q) {
      assert FairFor(a, since, n, q);
      assert forall x :: x in WaitingFor(a.waits, q) ==> IsWaiting(a, x);
      SameFair(WaitingFor(a.waits, q), a.prio, since, b.prio, since);
    }
  }

  lemma {:induction false} MadeReadyAllFair(a: P, ts: seq<Task>, since: map<Task, nat>, n: nat)
    requires AllFair(a, since, n)
    ensures AllFair(MadeReadyAll(a, ts), since, n)
    decreases |ts|
  {
    hide AllFair, Quit, InTurn, Gone;
    if ts != [] {
      QuitFair(a, MadeReady(a, ts[0]), since, n, ts[0]);
      MadeReadyAllFair(MadeReady(a, ts[0]), ts[1..], since, n);
    }
  }

  lemma {:induction false} ReleasedFair(a: P, ts: seq<Task>, since: map<Task, nat>, n: nat)
    requires AllFair(a, since, n)
    ensures AllFair(Released(a, ts), since, n)
    decreases |ts|
  {
    hide AllFair, Quit, InTurn, Gone;
    if ts != [] {
      var b := MadeReady(a, ts[0]).(yieldPending := a.yieldPending || Reaches(a, ts[0]));
      QuitFair(a, b, since, n, ts[0]);
      ReleasedFair(b, ts[1..], since, n);
    }
  }

  lemma AfterTickFair(a: P, since: map<Task, nat>, n: nat)
    requires AllFair(a, since, n)
    ensures AllFair(AfterTick(a), since, n)
  {
    hide Fair, Known, MadeReadyAll;
    SameWaits(a, a.(now := a.now + 1), since, n);
    MadeReadyAllFair(a.(now := a.now + 1), DueTasks(a.places.sleeping, a.now + 1), since, n);
  }

  lemma {:induction false} TicksFair(a: P, m: nat, since: map<Task, nat>, n: nat)
    requires AllFair(a, since, n)
    ensures AllFair(TicksNow(a, m), since, n)
    decreases m
  {
    hide AllFair, AfterTick, TickSwitches;
    if m > 0 {
      AfterTickFair(a, since, n);
      SameWaits(AfterTick(a), TickNow(a), since, n);
      TicksFair(TickNow(a), m - 1, since, n);
    }
  }

  lemma ResumedFair(a: P, yieldAfter: bool, since: map<Task, nat>, n: nat)
    requires AllFair(a, since, n)
    ensures AllFair(Resumed(a, yieldAfter), since, n)
  {
    hide AllFair, Released, TicksNow;
    if a.suspended == 1 {
      var a1 := a.(suspended := 0);
      SameWaits(a, a1, since, n);
      ReleasedFair(a1, a.waits.held, since, n);
      TicksFair(Released(a1, a.waits.held), a.pended, since, n);
      SameWaits(TicksNow(Released(a1, a.waits.held), a.pended), Resumed(a, yieldAfter), since, n);
    } else {
      SameWaits(a, Resumed(a, yieldAfter), since, n);
    }
  }

  lemma SleptFair(a: P, ticks: nat, forever: bool, event: Option<nat>, since: map<Task, nat>, n: nat)
    requires AllFair(a, since, n) && a.current in a.prio && !IsWaiting(a, a.current)
    ensures AllFair(Slept(a, ticks, forever, event), if event.Some? then since[a.current := n] else since, n + 1)
  {
    hide Fair, Queued, Bedded, Gone;
    var b, t := Slept(a, ticks, forever, event), a.current;
    var since', n' := if event.Some? then since[t := n] else since, n + 1;
    forall q: nat ensures FairFor(b, since', n', q) {
      var s := WaitingFor(a.waits, q);
      assert FairFor(a, since, n, q);
      assert t !in s;
      SameFair(s, a.prio, since, a.prio, since');
      if event == Some(q) {
        QueuedFair(s, a.prio, since', t, n);
        QueuedIn(s, a.prio, t);
      }
    }
  }

  lemma LaterFair(a: P, since: map<Task, nat>, n: nat)
    requires AllFair(a, since, n)
    ensures AllFair(a, since, n + 1)
  {
    hide Fair;
    var n' := n + 1;
    forall q: nat ensures FairFor(a, since, n', q) {
      assert FairFor(a, since, n, q);
    }
  }

  /** The task a call gives a new priority, frees or blocks does not wait for an event. */
  ghost predicate NotAboutWaiters(a: P, c: Call) {
    match c
    case CallCreate(t, _) => !IsWaiting(a, t)
    case CallPrioritySet(t, _) => !IsWaiting(a, t)
    case CallBlock(_, _, _) => !IsWaiting(a, a.current) && a.current in a.prio
    case CallCleanUp => a.places.ended != [] ==> !IsWaiting(a, a.places.ended[0])
    case _ => true
  }

  lemma NotifiedFair(a: P, q: nat, since: map<Task, nat>, n: nat)
    requires AllFair(a, since, n)
    ensures AllFair(Notified(a, q), since, n)
  {
    hide AllFair, Quit, Gone, InTurn;
    var ts := WaitingFor(a.waits, q);
    if ts != [] {
      QuitFair(a, Notified(a, q), since, n, ts[0]);
    }
  }

  lemma PlainTickFair(a: P, since: map<Task, nat>, n: nat)
    requires AllFair(a, since, n)
    ensures AllFair(PlainStep(a, IsrTick), since, n)
  {
    hide AllFair, AfterTick, TickSwitches;
    AfterTickFair(a, since, n);
    if a.suspended == 0 {
      SameWaits(AfterTick(a), PlainStep(a, IsrTick), since, n);
    } else {
      SameWaits(a, PlainStep(a, IsrTick), since, n);
    }
  }

  /** Calls that let nobody wait anew. */
  lemma OtherStepFair(a: P, c: Call, since: map<Task, nat>, n: nat)
    requires AllFair(a, since, n) && NotAboutWaiters(a, c) && !c.CallBlock?
    ensures AllFair(PlainStep(a, c), since, n)
  {
    hide AllFair, IsWaiting, IsParked, Quit, Gone, InTurn, Notified, Resumed, AfterTick, TickSwitches, IsReady,
      NextTurn, TopReady;
    match c
    case CallDelete(t) => QuitFair(a, PlainStep(a, c), since, n, t);
    case CallSuspend(t) => QuitFair(a, PlainStep(a, c), since, n, t);
    case CallResumeAll(yieldAfter) => ResumedFair(a, yieldAfter, since, n);
    case AnyEvent(q) => NotifiedFair(a, q, since, n);
    case IsrTick => PlainTickFair(a, since, n);
    case _ => SameWaits(a, PlainStep(a, c), since, n);
  }

  lemma PlainStepFair(a: P, c: Call, since: map<Task, nat>, n: nat)
    requires AllFair(a, since, n) && NotAboutWaiters(a, c)
    ensures AllFair(PlainStep(a, c), if c.CallBlock? && c.event.Some? then since[a.current := n] else since, n + 1)
  {
    hide AllFair, IsWaiting, Slept;
    if c.CallBlock? {
      SleptFair(a, c.ticks, c.forever, c.event, since, n);
    } else {
      OtherStepFair(a, c, since, n);
      hide PlainStep;
      LaterFair(PlainStep(a, c), since, n);
    }
  }
}
