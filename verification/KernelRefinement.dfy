/** The kernel refines the plain scheduler: every call, tick and interrupt does to the lists, the
    priorities, the time and the switch requests exactly what its plain step does. */
module KernelRefinement {
  import opened Options
  import opened Rings
  import opened TaskLists
  import opened PlainLists
  import opened PlainViews
  import opened Scheduler
  import opened Kernel
  import opened KernelCalls
  import opened KernelRuns
  import opened KernelEvents
  import opened PlainScheduler

  /** The plain scheduler that a kernel state stands for. */
  ghost function Plain(k: K): P {
    P(k.prio, PlacesOf(k.st, k.wake, k.delayed, k.overflow, k.epoch), WaitsOf(k.ev), Now(k), k.current, k.idle,
      k.suspended, k.pended, k.yieldPending, k.request)
  }

  // ---- Moves -------------------------------------------------------------------------------

  /** What the list lemmas need to know of a kernel state. */
  lemma Stores(k: K)
    requires Inv(k)
    ensures Ok(k.st) && Ok(k.ev) && k.st.where.Keys == k.prio.Keys && k.tick < WRAP && k.current in k.prio
    ensures DelayLists(k.delayed, k.overflow) && WakeBounded(k.st, k.wake, k.delayed, k.overflow)
  {
    hide Bits, Counts, SortedBy, HomeOk, At;
  }

  lemma UnblockPlain(k: K, t: Task)
    requires Inv(k) && t in k.prio && Blocked(k.st.where[t]) && t !in k.ev.where
    ensures Plain(Unblock(k, t)) == Plain(k).(places := InTurn(Gone(Plain(k).places, t), t, k.prio[t]))
  {
    hide Inv, Ok, At, Blocked, Relocate, PlacesOf, WaitsOf, Gone, InTurn, WakeBounded;
    Stores(k);
    ReadyMove(k.st, k.wake, k.delayed, k.overflow, k.epoch, t, k.prio[t]);
  }

  lemma DropPlain(k: K, t: Task)
    requires Ok(k.ev)
    ensures Plain(DropEvent(k, t)) == Plain(k).(waits := Quit(Plain(k).waits, t))
  {
    if t in k.ev.where {
      TakeWaits(k.ev, t);
    } else {
      QuitAbsent(k.ev, t);
    }
    hide Ok, PlacesOf, WaitsOf, Quit, Take;
  }

  lemma WakePlain(k: K, t: Task)
    requires Inv(k) && t in k.prio && Blocked(k.st.where[t])
    ensures Plain(Wake(k, t)) == MadeReady(Plain(k), t)
  {
    Stores(k);
    hide Inv, WakeBounded, Ok, DropEvent, Unblock, PlacesOf, WaitsOf, Gone, InTurn, Quit;
    DropPlain(k, t);
    UnblockPlain(DropEvent(k, t), t);
  }

  lemma MoveOutPlain(k: K, t: Task, l: ListId)
    requires Inv(k) && t in k.prio && t != k.idle && t !in k.ev.where
    requires k.st.where[t] != Terminating && (l == Suspended || l == Terminating)
    ensures var places := Gone(Plain(k).places, t);
            Plain(MoveOut(k, t, l)) == Plain(k).(places := if l == Suspended then places.(parked := places.parked + [t])
                                                           else places.(ended := places.ended + [t]))
  {
    hide Inv, Ok, At, Relocate, PlacesOf, WaitsOf, Gone, TopWithout, WakeBounded;
    Stores(k);
    ParkMove(k.st, k.wake, k.delayed, k.overflow, k.epoch, t);
    EndMove(k.st, k.wake, k.delayed, k.overflow, k.epoch, t);
  }

  lemma DelayPlain(k: K, t: Task, w: nat, l: ListId)
    requires Inv(k) && t in k.prio && t != k.idle && t !in k.ev.where && k.st.where[t] == Ready(k.prio[t])
    requires w < WRAP && (l == k.overflow || (l == k.delayed && k.tick <= w))
    ensures var places := Gone(Plain(k).places, t);
            var due := Time(if l == k.delayed then k.epoch else k.epoch + 1, w);
            Plain(Delay(k, t, w, l))
            == Plain(k).(places := places.(sleeping := Bedded(places.sleeping, Sleeper(t, due))))
  {
    hide Inv, WakeBounded, Ok, At, SortedBy, RelocateSorted, PlacesOf, WaitsOf, Gone, TopWithout, Bedded;
    Stores(k);
    DelaySorted(k, t, w) by { InvParts(k); }
    SleepMove(k.st, k.wake, k.delayed, k.overflow, k.epoch, t, w, l);
  }

  lemma ReprioritisePlain(k: K, t: Task, p: nat)
    requires Inv(k) && t in k.prio && p < MAX_PRIORITIES && p != k.prio[t]
    ensures Plain(Reprioritise(k, t, p))
         == Plain(k).(prio := k.prio[t := p],
                      places := if k.st.where[t].Ready? then InTurn(Gone(Plain(k).places, t), t, p)
                                else Plain(k).places)
  {
    hide Inv, Ok, At, Relocate, PlacesOf, WaitsOf, Gone, InTurn, TopWithout, WakeBounded;
    Stores(k);
    ReadyMove(k.st, k.wake, k.delayed, k.overflow, k.epoch, t, p);
  }

  lemma AddNewPlain(k: K, t: Task, p: nat)
    requires Inv(k) && t !in k.prio && p < MAX_PRIORITIES
    ensures Plain(AddNew(k, t, p)) == Plain(k).(prio := k.prio[t := p], places := InTurn(Plain(k).places, t, p))
  {
    hide Inv, WakeBounded, Ok, At, PutEnd, PlacesOf, WaitsOf, InTurn;
    Stores(k);
    ReadyPlaces(k.st, k.wake, k.delayed, k.overflow, k.epoch, t, p);
  }

  lemma ForgetPlain(k: K, t: Task)
    requires Inv(k) && t in k.prio && t != k.idle && t != k.current && t !in k.ev.where
    ensures Plain(Forget(k, t)) == Plain(k).(prio := k.prio - {t}, places := Gone(Plain(k).places, t))
  {
    hide Inv, WakeBounded, Ok, At, Take, PlacesOf, WaitsOf, Gone, TopWithout;
    Stores(k);
    TakePlaces(k.st, k.wake, k.delayed, k.overflow, k.epoch, t);
  }

  lemma WaitersRanked(k: K, t: Task)
    requires Inv(k) && Ranked(k) && t in k.prio
    ensures forall x :: x in k.ev.where || x == t ==>
              x in k.rank && x in k.prio && k.rank[x] + k.prio[x] == MAX_PRIORITIES
  {
    hide Ok, Bits, Counts, Times, HomeOk;
  }

  lemma WaitPlain(k: K, t: Task, q: nat)
    requires Inv(k) && Ranked(k) && t in k.prio && t !in k.ev.where && Blocked(k.st.where[t])
    ensures Plain(Wait(k, t, q)) == Plain(k).(waits := QueuedFor(Plain(k), t, q))
  {
    hide Inv, Ranked, Ok, PutSorted, PlacesOf, At, Blocked, Queued, WakeBounded, SortedPos, Values, Placed, SortedBy;
    Stores(k);
    WaitersRanked(k, t);
    QueueWaits(k.ev, k.rank, k.prio, q, t, MAX_PRIORITIES);
  }

  lemma PendPlain(k: K, t: Task)
    requires Inv(k) && t in k.ev.where
    ensures Plain(Pend(k, t)) == Held(Plain(k).(waits := Quit(Plain(k).waits, t)), t)
  {
    hide Inv, WakeBounded, Ok, At, Take, PutEnd, PlacesOf, WaitsOf, Quit;
    Stores(k);
    TakeWaits(k.ev, t);
    HoldWaits(Take(k.ev, t), t);
  }

  // ---- What the calls ask ------------------------------------------------------------------

  lemma ReadyIs(k: K, t: Task)
    requires Inv(k) && t in k.prio
    ensures IsReady(Plain(k), t) <==> k.st.where[t].Ready?
  {
    TurnsMembers(At(k.st, Ready(k.prio[t])));
    Listing(k.st, Ready(k.prio[t]));
    assert k.st.where[t].Ready? <==> k.st.where[t] == Ready(k.prio[t]) by { OwnList(k, t); }
    hide Inv, At, Everyone, TurnsOf;
  }

  lemma OwnList(k: K, t: Task)
    requires Inv(k) && t in k.prio
    ensures t in k.st.where && (k.st.where[t].Ready? <==> k.st.where[t] == Ready(k.prio[t]))
  {
    hide Ok, Bits, Counts, Times;
  }

  lemma WaitingIs(k: K, t: Task)
    requires Inv(k)
    ensures IsWaiting(Plain(k), t) <==> t in k.ev.where
  {
    hide Bits, Counts, Times, HomeOk;
    if t in k.ev.where {
      var l := k.ev.where[t];
      assert EventHome(l) && t in At(k.ev, l).items;
      if l.Event? {
        assert t in WaitingFor(Plain(k).waits, l.q);
      }
    } else {
      assert t !in At(k.ev, PendingReady).items;
      forall q: nat ensures t !in WaitingFor(Plain(k).waits, q) {
        assert t !in At(k.ev, Event(q)).items;
      }
    }
  }

  lemma SuspendedIs(k: K, t: Task)
    requires Ok(k.st)
    ensures t in Plain(k).places.parked <==> t in k.st.where && k.st.where[t] == Suspended
  {
    hide At;
  }

  lemma ParkedIs(k: K, t: Task)
    requires Inv(k)
    ensures IsParked(Plain(k), t) <==> IsSuspended(k, t)
  {
    hide Inv, Ok, At, IsWaiting, Plain, WakeBounded;
    Stores(k);
    SuspendedIs(k, t);
    WaitingIs(k, t);
  }

  // ---- The task-level calls ----------------------------------------------------------------

  lemma CreatePlain(k: K, t: Task, p: nat)
    requires Inv(k) && t !in k.prio
    ensures Plain(Create(k, t, p)) == Created(Plain(k), t, p)
  {
    hide Ok, Bits, Counts, Times, HomeOk, At, AddNew, PlacesOf, WaitsOf, InTurn;
    AddNewPlain(k, t, Clamped(p));
  }

  lemma DeletePlain(k: K, t: Task)
    requires Inv(k) && t in k.prio && t != k.idle && k.st.where[t] != Terminating
    ensures Plain(Delete(k, t)) == Deleted(Plain(k), t)
  {
    hide Inv, WakeBounded, Ok, At, DropEvent, MoveOut, Forget, ResetNext, PlacesOf, WaitsOf, Gone, Quit;
    Stores(k);
    DropPlain(k, t);
    var k1 := DropEvent(k, t);
    if t == k.current {
      MoveOutPlain(k1, t, Terminating);
    } else {
      ForgetPlain(k1, t);
      InvParts(Forget(k1, t));
      AnyNext(Forget(k1, t));
    }
  }

  lemma AnyNext(k: K)
    requires Ok(k.st) && Times(k)
    ensures Plain(ResetNext(k)) == Plain(k)
  {
    hide Ok, Times, PlacesOf, WaitsOf, At;
  }

  lemma SuspendPlain(k: K, t: Task)
    requires Inv(k) && t in k.prio && t != k.idle && k.st.where[t] != Terminating
    ensures Plain(Suspend(k, t)) == Parked(Plain(k), t)
  {
    hide Inv, WakeBounded, Ok, At, DropEvent, MoveOut, PlacesOf, WaitsOf, Gone, Quit;
    Stores(k);
    DropPlain(k, t);
    MoveOutPlain(DropEvent(k, t), t, Suspended);
  }

  lemma UnparkPlain(k: K, t: Task)
    requires Inv(k) && t in k.prio && IsSuspended(k, t)
    ensures k.current in k.prio
    ensures var k1 := Unblock(k, t);
            Plain(k1.(request := k.request || k.prio[t] >= k.prio[k.current])) == Unparked(Plain(k), t)
  {
    hide Ok, Bits, Counts, Times, HomeOk, At, Unblock, PlacesOf, WaitsOf, Gone, InTurn;
    UnblockPlain(k, t);
  }

  lemma ResumePlain(k: K, t: Task)
    requires Inv(k) && t in k.prio
    ensures Plain(Resume(k, t)) == PlainStep(Plain(k), CallResume(t))
  {
    hide Inv, IsSuspended, IsParked, Unblock, PlacesOf, WaitsOf, Unparked;
    ParkedIs(k, t);
    if IsSuspended(k, t) {
      UnparkPlain(k, t);
    }
  }

  lemma ResumeFromISRPlain(k: K, t: Task)
    requires Inv(k) && t in k.prio
    ensures Plain(ResumeFromISR(k, t)) == PlainStep(Plain(k), IsrResume(t))
  {
    hide Inv, WakeBounded, Ok, IsParked, Unblock, PutEnd, PlacesOf, WaitsOf, Unparked;
    ParkedIs(k, t);
    Stores(k);
    if IsSuspended(k, t) {
      UnparkPlain(k, t);
      HoldWaits(k.ev, t);
    }
  }

  lemma PrioritySetPlain(k: K, t: Task, p: nat)
    requires Inv(k) && t in k.prio
    ensures Plain(PrioritySet(k, t, p)) == Reprioritised(Plain(k), t, p)
  {
    hide Inv, WakeBounded, Ok, At, IsReady, Reprioritise, PlacesOf, WaitsOf, Gone, InTurn;
    CurrentHome(k);
    Stores(k);
    ReadyIs(k, t);
    if k.prio[t] != Clamped(p) {
      ReprioritisePlain(k, t, Clamped(p));
    }
  }

  lemma DelayForPlain(k: K, t: Task, ticks: nat)
    requires Inv(k) && t in k.prio && t != k.idle && k.st.where[t] == Ready(k.prio[t])
    requires 1 <= ticks <= MAX_DELAY
    ensures var places := Gone(Plain(k).places, t);
            Plain(DelayFor(k, t, ticks))
            == Plain(k).(places := places.(sleeping := Bedded(places.sleeping, Sleeper(t, Now(k) + ticks))))
  {
    hide Inv, WakeBounded, Ok, At, Delay, PlacesOf, WaitsOf, Gone, Bedded;
    RunningHasNoEvent(k, t);
    WrapsWhenBelow(k.tick, ticks);
    Stores(k);
    DueTime(k.epoch, k.tick, ticks);
    var w := Plus(k.tick, ticks);
    DelayPlain(k, t, w, if w < k.tick then k.overflow else k.delayed);
  }

  lemma AddCurrentPlain(k: K, ticks: nat, forever: bool)
    requires Inv(k) && k.current != k.idle && k.st.where[k.current] == Ready(k.prio[k.current])
    requires 1 <= ticks <= MAX_DELAY
    ensures Plain(AddCurrentToDelayed(k, ticks, forever)) == Slept(Plain(k), ticks, forever, None)
  {
    hide Inv, WakeBounded, Ok, At, DelayFor, MoveOut, PlacesOf, WaitsOf, Gone, Bedded;
    CurrentHome(k);
    RunningHasNoEvent(k, k.current);
    Stores(k);
    if ticks == MAX_DELAY && forever {
      MoveOutPlain(k, k.current, Suspended);
    } else {
      DelayForPlain(k, k.current, ticks);
    }
  }

  lemma BlockPlain(k: K, ticks: nat, forever: bool, event: Option<nat>)
    requires Inv(k) && Ranked(k) && k.current != k.idle && k.st.where[k.current] == Ready(k.prio[k.current])
    requires 1 <= ticks <= MAX_DELAY
    ensures Plain(Block(k, ticks, forever, event)) == Slept(Plain(k), ticks, forever, event)
  {
    hide Inv, AddCurrentToDelayed, Wait, PlacesOf, WaitsOf, Gone, Bedded, Queued, Ranked, Blocked;
    var k1 := AddCurrentToDelayed(k, ticks, forever);
    AddCurrentPlain(k, ticks, forever);
    DelayedIds(k);
    BlockedNow(k, k1);
    if event.Some? {
      SameRanked(k, k1);
      WaitPlain(k1, k.current, event.value);
    }
  }

  lemma SameRanked(k: K, k': K)
    requires Ranked(k) && KeepsRank(k, k')
    ensures Ranked(k')
  {
  }

  lemma EventPlain(k: K, q: nat)
    requires Inv(k) && At(k.ev, Event(q)).items != []
    ensures Plain(EventOccurs(k, q)) == Notified(Plain(k), q)
  {
    EventHead(k.ev, q);
    var t := At(k.ev, Event(q)).items[0];
    assert t in k.prio && Blocked(k.st.where[t]);
    WakeOrPendPlain(k, t);
    assert WaitingFor(Plain(k).waits, q)[0] == t;
    hide Inv, Ok, At, WakeWaiter, PlacesOf, MadeReady, Quit;
  }

  lemma WakeOrPendPlain(k: K, t: Task)
    requires Inv(k) && t in k.ev.where && t in k.prio && Blocked(k.st.where[t])
    ensures Plain(WakeWaiter(k, t))
         == (if k.suspended == 0 then MadeReady(Plain(k), t) else Held(Plain(k).(waits := Quit(Plain(k).waits, t)), t))
            .(yieldPending := k.yieldPending || Priority(Plain(k), t) > Priority(Plain(k), k.current))
  {
    hide Inv, Ok, At, Blocked, Wake, Pend, PlacesOf, WaitsOf, Gone, InTurn, Quit;
    CurrentHome(k);
    if k.suspended == 0 {
      WakePlain(k, t);
    } else {
      PendPlain(k, t);
    }
  }

  lemma CleanUpPlain(k: K)
    requires Inv(k) && k.current == k.idle && k.deleted > 0
    ensures Plain(CleanUp(k)) == Freed(Plain(k))
  {
    TerminatingHead(k);
    hide Inv, At, Forget, WaitsOf, Gone;
    ForgetPlain(k, At(k.st, Terminating).items[0]);
  }

  // ---- Ticks -------------------------------------------------------------------------------

  lemma AdvancePlain(k: K)
    requires Ok(k.st) && Times(k) && Settled(k)
    ensures Plain(AdvanceTick(k)) == Plain(k).(now := Now(k) + 1)
  {
    hide Ok, SortedBy, At, PlacesOf, WaitsOf, ResetNext;
    if k.tick + 1 == WRAP {
      DelayedIsEmptyAtWrap(k);
      SwitchedPlaces(k.st, k.wake, k.delayed, k.overflow, k.epoch);
      SwitchedTimes(k);
    }
  }

  ghost predicate SomeReaches(a: P, ts: seq<Task>) {
    exists t :: t in ts && Reaches(a, t)
  }

  lemma SomeReachesCons(a: P, b: P, t: Task, ts: seq<Task>)
    requires b.prio == a.prio && b.current == a.current
    ensures SomeReaches(a, [t] + ts) <==> Reaches(a, t) || SomeReaches(b, ts)
  {
    if SomeReaches(b, ts) {
      var x :| x in ts && Reaches(b, x);
      assert x in [t] + ts && Reaches(a, x);
    }
    if Reaches(a, t) {
      assert t in [t] + ts;
    }
    if SomeReaches(a, [t] + ts) {
      var x :| x in [t] + ts && Reaches(a, x);
      assert x != t ==> x in ts && Reaches(b, x);
    }
  }

  lemma NoneDue(k: K)
    requires Inv(k)
    requires var dl := At(k.st, k.delayed).items; dl != [] ==> dl[0] in k.wake && k.tick < k.wake[dl[0]]
    ensures DueTasks(Plain(k).places.sleeping, Now(k)) == []
  {
    hide Inv, At, WakeBounded, PlacesOf, WaitsOf, DueTasks;
    Stores(k);
    NobodyDue(k.st, k.wake, k.delayed, k.overflow, k.epoch, k.tick);
  }

  lemma {:induction false} WakeExpiredPlain(k: K, sw: bool)
    requires Inv(k)
    ensures var ts := DueTasks(Plain(k).places.sleeping, Now(k)); var (k', sw') := WakeExpired(k, sw);
            Plain(k') == MadeReadyAll(Plain(k), ts) && (sw' <==> sw || SomeReaches(Plain(k), ts))
    decreases |At(k.st, k.delayed).items|
  {
    hide Inv, Ok, At, WakeBounded, Times, Homes, Wake, PlacesOf, WaitsOf, SomeReaches, Roused, Gone, InTurn,
      Quit;
    var items := At(k.st, k.delayed).items;
    Stores(k);
    DelayedHead(k);
    if items != [] && k.wake[items[0]] <= k.tick {
      var t := items[0];
      var ts := DueTasks(Plain(k).places.sleeping, Now(k));
      FirstSleeper(k.st, k.wake, k.delayed, k.overflow, k.epoch);
      WakePlain(k, t);
      WakeExpiredPlain(Wake(k, t), sw || k.prio[t] >= k.prio[k.current]);
      RestSleeps(Plain(k), t);
      assert ts == [t] + ts[1..];
      SomeReachesCons(Plain(k), Plain(Wake(k, t)), t, ts[1..]);
    } else {
      NoneDue(k);
      assert !SomeReaches(Plain(k), []) by { NobodyReaches(Plain(k)); }
    }
  }

  lemma NobodyReaches(a: P)
    ensures !SomeReaches(a, [])
  {
  }

  lemma RestSleeps(a: P, t: Task)
    ensures MadeReady(a, t).places.sleeping == Roused(a.places.sleeping, t)
  {
  }

  lemma OthersReady(k: K, p: nat)
    ensures |Everyone(ReadyAt(Plain(k).places, p))| == |At(k.st, Ready(p)).items|
  {
    TurnsMembers(At(k.st, Ready(p)));
  }

  lemma HeadDueBounds(k: K)
    requires Inv(k) && k.tick < k.next
    requires forall t :: t in k.st.where && k.st.where[t] == k.delayed ==> k.next <= k.wake[t]
    ensures var dl := At(k.st, k.delayed).items; dl != [] ==> dl[0] in k.wake && k.tick < k.wake[dl[0]]
  {
    DelayedHead(k);
  }

  /** The tick count goes up and the due tasks wake; the next unblock time spares the search. */
  function TickParts(k: K): (K, bool)
    requires Inv(k) && Settled(k) && k.suspended == 0
  {
    var k1 := AdvanceTick(k);
    InvOfTimes(k, k1);
    if k1.tick >= k1.next then WakeExpired(k1, false) else (k1, false)
  }

  lemma TickPartsPlain(k: K)
    requires Inv(k) && Settled(k) && k.suspended == 0
    ensures var ts := DueTasks(Plain(k).places.sleeping, Now(k) + 1);
            && Plain(TickParts(k).0) == MadeReadyAll(Plain(k).(now := Now(k) + 1), ts)
            && (TickParts(k).1 <==> SomeReaches(Plain(k).(now := Now(k) + 1), ts))
  {
    hide Inv, Ok, Times, Settled, At, WakeBounded, AdvanceTick, WakeExpired, PlacesOf, WaitsOf, SomeReaches, DueTasks,
      Now;
    InvParts(k);
    AdvancePlain(k);
    var k1 := AdvanceTick(k);
    InvOfTimes(k, k1);
    assert Now(k1) == Now(k) + 1;
    if k1.tick >= k1.next {
      WakeExpiredPlain(k1, false);
    } else {
      HeadDueBounds(k1);
      NoneDue(k1);
      NobodyReaches(Plain(k1));
    }
  }

  lemma TickPlain(k: K)
    requires Inv(k) && Settled(k) && k.suspended == 0
    ensures Plain(Tick(k).0) == AfterTick(Plain(k))
    ensures Tick(k).1 <==> TickSwitches(Plain(k))
  {
    hide Inv, Ok, Settled, At, AdvanceTick, WakeExpired, PlacesOf, WaitsOf, SomeReaches, DueTasks, MadeReadyAll,
      ReadyAt, Everyone;
    CurrentHome(k);
    TickPartsPlain(k);
    OthersReady(TickParts(k).0, k.prio[k.current]);
    SameReaches(Plain(k), Plain(k).(now := Now(k) + 1), DueTasks(Plain(k).places.sleeping, Now(k) + 1));
  }

  lemma SameReaches(a: P, b: P, ts: seq<Task>)
    requires b.prio == a.prio && b.current == a.current
    ensures SomeReaches(b, ts) <==> exists t :: t in ts && Reaches(a, t)
  {
    if SomeReaches(b, ts) {
      var t :| t in ts && Reaches(b, t);
      assert Reaches(a, t);
    }
    if exists t :: t in ts && Reaches(a, t) {
      var t :| t in ts && Reaches(a, t);
      assert Reaches(b, t);
    }
  }

  lemma TickInterruptPlain(k: K)
    requires Inv(k) && Settled(k)
    ensures Plain(TickInterrupt(k)) == PlainStep(Plain(k), IsrTick)
  {
    hide Inv, Settled, At, AdvanceTick, WakeExpired, PlacesOf, WaitsOf, AfterTick, TickSwitches;
    if k.suspended == 0 {
      TickPlain(k);
    }
  }

  // ---- Resuming the scheduler --------------------------------------------------------------

  lemma ReplayOnePlain(k: K)
    requires Inv(k) && Settled(k) && k.suspended == 0
    ensures Plain(ReplayOne(k)) == TickNow(Plain(k))
  {
    hide Inv, Settled, Tick, PlacesOf, WaitsOf, AfterTick, TickSwitches;
    TickPlain(k);
    assert TickSwitches(Plain(k)) || !k.yieldPending by { MissedSwitch(k); }
  }

  lemma MissedSwitch(k: K)
    ensures k.yieldPending ==> TickSwitches(Plain(k))
  {
  }

  lemma {:induction false} ReplayPlain(k: K, n: nat)
    requires Inv(k) && Settled(k) && k.suspended == 0
    ensures Plain(Replay(k, n)) == TicksNow(Plain(k), n)
    decreases n
  {
    hide Inv, Settled, Tick, ReplayOne, Plain, TickNow;
    if n > 0 {
      ReplayOnePlain(k);
      ReplayPlain(ReplayOne(k), n - 1);
    }
  }

  lemma PendingTask(k: K)
    requires Inv(k) && At(k.ev, PendingReady).items != []
    ensures var t := At(k.ev, PendingReady).items[0]; IsPending(k, t) && t in k.prio && Blocked(k.st.where[t])
    ensures k.current in k.prio && Ok(k.ev) && k.st.where.Keys == k.prio.Keys
  {
    hide Bits, Counts, Times, HomeOk;
    PendingHead(k.ev);
  }

  lemma DrainOnePlain(k: K, t: Task)
    requires Inv(k) && IsPending(k, t)
    ensures var a := Plain(k);
            Plain(DrainOne(k, t)) == MadeReady(a, t).(yieldPending := a.yieldPending || Reaches(a, t))
  {
    hide Inv, Ok, At, Blocked, Wake, PlacesOf, WaitsOf, Gone, InTurn, Quit;
    WaiterHome(k, t);
    WakePlain(k, t);
  }

  lemma WaiterHome(k: K, t: Task)
    requires Inv(k) && t in k.ev.where
    ensures t in k.prio && t in k.st.where && Blocked(k.st.where[t]) && k.current in k.prio
  {
    hide Ok, Bits, Counts, Times, HomeOk;
  }

  lemma {:induction false} DrainPlain(k: K)
    requires Inv(k)
    ensures Plain(DrainPending(k)) == Released(Plain(k), Plain(k).waits.held)
    decreases |At(k.ev, PendingReady).items|
  {
    hide Inv, Ok, At, Blocked, DrainOne, PlacesOf, Gone, InTurn, Quit;
    var items := At(k.ev, PendingReady).items;
    if items != [] {
      PendingTask(k);
      DrainOnePlain(k, items[0]);
      FirstHeld(k.ev);
      DrainPlain(DrainOne(k, items[0]));
    }
  }

  lemma ResumeReadyPlain(k: K)
    requires Inv(k)
    ensures Plain(ResumeReady(k)) == Released(Plain(k), Plain(k).waits.held)
  {
    hide Inv, Ok, At, DrainPending, ResetNext, PlacesOf, WaitsOf, Released;
    DrainPlain(k);
    InvParts(DrainPending(k));
    AnyNext(DrainPending(k));
  }

  lemma ResumeAllPlain(k: K, yieldAfter: bool)
    requires Inv(k) && Settled(k) && k.suspended > 0
    ensures Plain(ResumeAll(k, yieldAfter)) == Resumed(Plain(k), yieldAfter)
  {
    hide Inv, Settled, ResumeReady, Replay, Drained, PlacesOf, WaitsOf, Released, TicksNow;
    if k.suspended == 1 {
      ResumeLastReady(k);
      ResumeReadyPlain(k.(suspended := 0));
      ReplayPlain(ResumeReady(k.(suspended := 0)), k.pended);
    }
  }

  // ---- Context switch ----------------------------------------------------------------------

  lemma {:induction false} ScanPlain(k: K, p: nat)
    ensures TopReady(Plain(k).places, p) == ScanDown(k.st, p)
  {
    TurnsMembers(At(k.st, Ready(p)));
    if p > 0 {
      ScanPlain(k, p - 1);
    }
  }

  lemma WalkedLists(st: Store, p: nat)
    requires Ok(st) && At(st, Ready(p)).items != []
    ensures At(st, Ready(p)).index <= |At(st, Ready(p)).items|
    ensures var (st', t) := WalkList(st, Ready(p)); var ring := Rings.Advance(At(st, Ready(p)));
            && (forall m :: At(st', m) == if m == Ready(p) then ring else At(st, m))
            && t == Current(ring)
  {
    AllProper(st, Ready(p));
    hide Ok;
  }

  lemma SwitchPlain(k: K)
    requires Inv(k)
    ensures Plain(SwitchContext(k)) == NextOne(Plain(k))
  {
    hide Inv, Ok, At, WalkList, PlacesOf, WaitsOf, TopBit, ScanDown, TopReady, NextTurn, WakeBounded, Advance, Current;
    HighestReady(k);
    ScanPlain(k, MAX_PRIORITIES - 1);
    var p := TopBit(k.top, MAX_PRIORITIES - 1);
    Stores(k);
    WalkedLists(k.st, p);
    WalkedPlaces(k.st, WalkList(k.st, Ready(p)).0, k.wake, k.delayed, k.overflow, k.epoch, p);
  }

  // ---- All steps ---------------------------------------------------------------------------

  lemma InterruptPlain(k: K, c: Call)
    requires Inv(k) && Settled(k) && CanInterrupt(k, c)
    ensures Plain(Interrupt(k, c)) == PlainStep(Plain(k), c)
  {
    hide Inv, Settled, At, Plain, ResumeFromISR, EventOccurs, TickInterrupt, SwitchContext, Notified, NextOne;
    match c
    case IsrResume(t) => ResumeFromISRPlain(k, t);
    case AnyEvent(q) => EventPlain(k, q);
    case IsrTick => TickInterruptPlain(k);
    case ContextSwitch => SwitchPlain(k);
  }

  // ---- Item values follow the priorities ---------------------------------------------------

  lemma {:induction false} ReplayRank(k: K, n: nat)
    requires Inv(k) && Settled(k) && k.suspended == 0
    ensures Replay(k, n).rank == k.rank
    decreases n
  {
    hide Inv, Settled, Tick, Ticked;
    if n > 0 {
      ReplayOneRank(k);
      ReplayRank(ReplayOne(k), n - 1);
    }
  }

  lemma ReplayOneRank(k: K)
    requires Inv(k) && Settled(k) && k.suspended == 0
    ensures ReplayOne(k).rank == k.rank
  {
    hide Inv, Settled, Tick;
    TickExact(k);
  }

  lemma ResumeAllRank(k: K, yieldAfter: bool)
    requires Inv(k) && Settled(k) && k.suspended > 0
    ensures ResumeAll(k, yieldAfter).rank == k.rank && ResumeAll(k, yieldAfter).prio == k.prio
  {
    hide Inv, Settled, ResumeReady, Replay, Drained;
    if k.suspended == 1 {
      ResumeLastReady(k);
      ReplayRank(ResumeReady(k.(suspended := 0)), k.pended);
    }
  }

  lemma TickInterruptRank(k: K)
    requires Inv(k) && Settled(k)
    ensures TickInterrupt(k).rank == k.rank && TickInterrupt(k).prio == k.prio
  {
    hide Inv, Settled, AdvanceTick, WakeExpired;
    if k.suspended == 0 {
      TickExact(k);
    }
  }

  lemma InterruptRank(k: K, c: Call)
    requires Inv(k) && Settled(k) && CanInterrupt(k, c)
    ensures Interrupt(k, c).rank == k.rank && Interrupt(k, c).prio == k.prio
  {
    hide Inv, Settled, Unblock, PutEnd, WakeWaiter, TickInterrupt, WalkList, TopBit, At;
    match c
    case IsrResume(t) =>
    case AnyEvent(q) =>
    case IsrTick => TickInterruptRank(k);
    case ContextSwitch =>
  }

  lemma StepRanked(k: K, c: Call)
    requires Inv(k) && Settled(k) && Allowed(k, c) && Ranked(k)
    ensures Ranked(Step(k, c))
  {
    hide Ok, Bits, Counts, Times, HomeOk, Settled, At, Create, PrioritySet, Ranked, KeepsRank;
    match c
    case CallCreate(t, p) => CreateRanked(k, t, p);
    case CallPrioritySet(t, p) => PrioritySetRanked(k, t, p);
    case _ => hide Step; StepRank(k, c); SameRanked(k, Step(k, c));
  }

  lemma StepRank(k: K, c: Call)
    requires Inv(k) && Settled(k) && Allowed(k, c) && !c.CallCreate? && !c.CallPrioritySet?
    ensures KeepsRank(k, Step(k, c))
  {
    hide Ok, Bits, Counts, Times, HomeOk, Settled, At, Delete, Block, Suspend, Resume, CleanUp, ResetNext, ResumeAll,
      Interrupt;
    match c
    case CallResumeAll(yieldAfter) => ResumeAllRank(k, yieldAfter);
    case IsrResume(_) => InterruptRank(k, c);
    case AnyEvent(_) => InterruptRank(k, c);
    case IsrTick => InterruptRank(k, c);
    case ContextSwitch => InterruptRank(k, c);
    case CallDelete(t) => DeleteRank(k, t);
    case CallBlock(ticks, forever, event) => BlockRank(k, ticks, forever, event);
    case CallSuspend(t) => SuspendRank(k, t);
    case CallResume(t) => ResumeRank(k, t);
    case CallCleanUp => CleanUpRank(k);
    case _ =>
  }

  lemma CreateRanked(k: K, t: Task, p: nat)
    requires Inv(k) && Ranked(k) && t !in k.prio
    ensures Ranked(Create(k, t, p))
  {
    hide Inv, Ranked, AddNew;
    NewRank(k, Create(k, t, p), t, Clamped(p));
  }

  lemma PrioritySetRanked(k: K, t: Task, p: nat)
    requires Inv(k) && Ranked(k) && t in k.prio
    ensures Ranked(PrioritySet(k, t, p))
  {
    hide Inv, Ranked, Reprioritise;
    if k.prio[t] != Clamped(p) {
      NewRank(k, PrioritySet(k, t, p), t, Clamped(p));
    }
  }

  /** The call changes no priority and no item value, but may free a task. */
  ghost predicate KeepsRank(k: K, k': K) {
    k'.rank == k.rank && forall t :: t in k'.prio ==> t in k.prio && k'.prio[t] == k.prio[t]
  }

  lemma DeleteRank(k: K, t: Task)
    requires Inv(k) && t in k.prio && t != k.idle && k.st.where[t] != Terminating
    ensures KeepsRank(k, Delete(k, t))
  {
    hide Inv, DropEvent, MoveOut, Forget, ResetNext;
  }

  lemma BlockRank(k: K, ticks: nat, forever: bool, event: Option<nat>)
    requires Inv(k) && k.current != k.idle && k.st.where[k.current] == Ready(k.prio[k.current])
    requires 1 <= ticks <= MAX_DELAY
    ensures KeepsRank(k, Block(k, ticks, forever, event))
  {
    hide Inv, AddCurrentToDelayed, Wait;
  }

  lemma SuspendRank(k: K, t: Task)
    requires Inv(k) && t in k.prio && t != k.idle && k.st.where[t] != Terminating
    ensures KeepsRank(k, Suspend(k, t))
  {
    hide Inv, DropEvent, MoveOut;
  }

  lemma ResumeRank(k: K, t: Task)
    requires Inv(k) && t in k.prio
    ensures KeepsRank(k, Resume(k, t))
  {
    hide Inv, Unblock, IsSuspended;
  }

  lemma CleanUpRank(k: K)
    requires Inv(k) && k.current == k.idle && k.deleted > 0
    ensures KeepsRank(k, CleanUp(k))
  {
    hide Inv, Forget;
  }

  lemma NewRank(k: K, k': K, t: Task, p: nat)
    requires Ranked(k) && p < MAX_PRIORITIES && k'.prio == k.prio[t := p] && k'.rank == k.rank[t := MAX_PRIORITIES - p]
    ensures Ranked(k')
  {
  }

  /** Calls that move one task between lists. */
  lemma TaskCallPlain(k: K, c: Call)
    requires Good(k) && Allowed(k, c) && Ranked(k)
    requires c.CallCreate? || c.CallDelete? || c.CallBlock? || c.CallPrioritySet? || c.CallSuspend? || c.CallResume?
    ensures Plain(Step(k, c)) == PlainStep(Plain(k), c)
  {
    hide Ok, Bits, Counts, Times, HomeOk, Settled, Preempted, Ranked, At, Plain, Create, Delete, Block, PrioritySet,
      Suspend, Resume, Created, Deleted, Slept, Reprioritised, Parked, IsParked, Unparked;
    match c
    case CallCreate(t, p) => CreatePlain(k, t, p);
    case CallDelete(t) => DeletePlain(k, t);
    case CallBlock(ticks, forever, event) => BlockPlain(k, ticks, forever, event);
    case CallPrioritySet(t, p) => PrioritySetPlain(k, t, p);
    case CallSuspend(t) => SuspendPlain(k, t);
    case CallResume(t) => ResumePlain(k, t);
  }

  /** The next unblock time is nowhere in the plain scheduler. */
  lemma FlagsPlain(k: K, k': K)
    requires k' == k.(next := k'.next, suspended := k'.suspended, request := k'.request)
    ensures Plain(k') == Plain(k).(suspended := k'.suspended, request := k'.request)
    ensures Plain(k).suspended == k.suspended && Plain(k).request == k.request
  {
    hide PlacesOf, WaitsOf;
  }

  /** Every call, tick and interrupt is its plain step. */
  lemma StepRefines(k: K, c: Call)
    requires Good(k) && Allowed(k, c) && Ranked(k)
    ensures Plain(Step(k, c)) == PlainStep(Plain(k), c) && Ranked(Step(k, c))
  {
    hide Ok, Bits, Counts, Times, HomeOk, Settled, Preempted, Ranked, At, Interrupt, Plain, ResetNext, ResumeAll,
      CleanUp, Resumed, Freed;
    StepRanked(k, c);
    match c
    case CallResumeAll(yieldAfter) => ResumeAllPlain(k, yieldAfter);
    case CallCleanUp => CleanUpPlain(k);
    case CallResetUnblockTime => FlagsPlain(k, Step(k, c));
    case CallSuspendAll => FlagsPlain(k, Step(k, c));
    case CallYield => FlagsPlain(k, Step(k, c));
    case IsrResume(_) => InterruptPlain(k, c);
    case AnyEvent(_) => InterruptPlain(k, c);
    case IsrTick => InterruptPlain(k, c);
    case ContextSwitch => InterruptPlain(k, c);
    case _ => hide Step, PlainStep; TaskCallPlain(k, c);
  }

  lemma {:induction false} RunRefines(k: K, cs: seq<Call>)
    requires Good(k) && ValidRun(k, cs) && Ranked(k)
    ensures Plain(Run(k, cs)) == PlainRun(Plain(k), cs) && Ranked(Run(k, cs))
    decreases |cs|
  {
    hide Inv, Settled, Preempted, Ranked, Step, Plain, PlainStep, Allowed;
    if cs != [] {
      StepGood(k, cs[0]);
      StepRefines(k, cs[0]);
      RunRefines(Step(k, cs[0]), cs[1..]);
    }
  }

  /** Only the idle task, ready at priority 0, and nothing has happened yet. */
  ghost function PlainStart(idle: Task): P {
    P(map[idle := 0], Places(imap p: nat :: OnlyAtZero(idle, p), [], [], []), Waits(imap q: nat :: Nobody(q), []),
      0, idle, idle, 0, 0, false, false)
  }

  function OnlyAtZero(idle: Task, p: nat): Turns {
    Turns([], if p == 0 then [idle] else [])
  }

  lemma PlainStarted(idle: Task)
    ensures Plain(Started(idle)) == PlainStart(idle)
  {
    var a, b := Plain(Started(idle)), PlainStart(idle);
    assert a.places.ready == b.places.ready;
    assert a.waits.waiting == b.waits.waiting;
  }

  lemma StartedRanked(idle: Task)
    ensures Ranked(Started(idle))
  {
  }

  /** Over every run from the start of the scheduler, the lists in all their order, the priorities,
      the time and the switch requests are those of the plain scheduler. */
  lemma KernelIsPlain(idle: Task, cs: seq<Call>)
    requires (StartedGood(idle); ValidRun(Started(idle), cs))
    ensures (StartedGood(idle); Plain(Run(Started(idle), cs))) == PlainRun(PlainStart(idle), cs)
  {
    StartedGood(idle);
    StartedRanked(idle);
    PlainStarted(idle);
    RunRefines(Started(idle), cs);
  }
}
