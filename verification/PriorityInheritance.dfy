/** When priority inheritance does what it is for: the waiters of every mutex are in order of
    priority, and no holder is below a task that blocked on its mutex since it took it. */
module PriorityInheritance {
  import opened Rings
  import opened SortedLists
  import opened TaskLists
  import opened Mutexes

  ghost predicate ByPriority(ts: seq<Task>, prio: map<Task, nat>) {
    && (forall t :: t in ts ==> t in prio)
    && (forall i, j :: 0 <= i < j < |ts| ==> prio[ts[i]] >= prio[ts[j]])
  }

  ghost predicate MutexOk(s: State, m: Mutex) {
    && m in s.wait && m in s.since && ByPriority(s.wait[m], s.prio)
    && (m in s.holder ==>
          && s.holder[m] in s.prio
          && (forall t :: t in s.wait[m] && t in s.since[m] ==> s.prio[t] <= s.prio[s.holder[m]]))
  }

  ghost predicate Inv(s: State) {
    Core(s) && forall m :: m in s.wait ==> MutexOk(s, m)
  }

  // ---- Priority order ------------------------------------------------------------------------

  lemma HeadIsHighest(ts: seq<Task>, prio: map<Task, nat>)
    requires ByPriority(ts, prio)
    ensures forall t :: t in ts ==> prio[t] <= prio[ts[0]]
  {
  }

  lemma TailByPriority(ts: seq<Task>, prio: map<Task, nat>)
    requires ByPriority(ts, prio) && ts != []
    ensures ByPriority(ts[1..], prio)
  {
  }

  lemma ConsByPriority(x: Task, ts: seq<Task>, prio: map<Task, nat>)
    requires ByPriority(ts, prio) && x in prio && forall t :: t in ts ==> prio[t] <= prio[x]
    ensures ByPriority([x] + ts, prio)
  {
    var us := [x] + ts;
    assert forall i :: 1 <= i < |us| ==> us[i] == ts[i - 1] && us[i] in ts;
  }

  /** Queued is vListInsert by the item value that vTaskPlaceOnEventList sorts by. */
  lemma {:induction false} QueuedIsInserted(ts: seq<Task>, prio: map<Task, nat>, t: Task, top: nat,
                                            rank: map<Task, nat>)
    requires t in prio && forall x :: x in ts ==> x in prio
    requires forall x :: x in prio ==> x in rank && rank[x] + prio[x] == top
    ensures Queued(ts, prio, t) == Inserted(ts, rank, t)
  {
    if ts != [] && prio[ts[0]] >= prio[t] {
      QueuedIsInserted(ts[1..], prio, t, top, rank);
    }
  }

  /** Inserting a waiter gives a list in order exactly when the list was in order. */
  lemma {:induction false} QueuedByPriorityIff(ts: seq<Task>, prio: map<Task, nat>, t: Task)
    requires t in prio && forall x :: x in ts ==> x in prio
    ensures ByPriority(Queued(ts, prio, t), prio) <==> ByPriority(ts, prio)
  {
    var us := Queued(ts, prio, t);
    QueuedMembers(ts, prio, t);
    if ts == [] || prio[ts[0]] < prio[t] {
      if ByPriority(ts, prio) {
        HeadIsHighest(ts, prio);
        ConsByPriority(t, ts, prio);
      }
      if ByPriority(us, prio) {
        TailByPriority(us, prio);
        assert us[1..] == ts;
      }
    } else {
      hide ByPriority;
      QueuedByPriorityIff(ts[1..], prio, t);
      QueuedMembers(ts[1..], prio, t);
      var rest := Queued(ts[1..], prio, t);
      assert us == [ts[0]] + rest && us[1..] == rest && ts == [ts[0]] + ts[1..];
      if ByPriority(ts, prio) {
        HeadIsHighest(ts, prio);
        TailByPriority(ts, prio);
        ConsByPriority(ts[0], rest, prio);
      }
      if ByPriority(us, prio) {
        HeadIsHighest(us, prio);
        TailByPriority(us, prio);
        ConsByPriority(ts[0], ts[1..], prio);
      }
    }
  }

  lemma {:induction false} WithoutByPriority(ts: seq<Task>, prio: map<Task, nat>, t: Task)
    requires ByPriority(ts, prio)
    ensures ByPriority(Without(ts, t), prio) && (forall x :: x in Without(ts, t) ==> x in ts)
  {
    if ts != [] {
      TailByPriority(ts, prio);
      HeadIsHighest(ts, prio);
      WithoutByPriority(ts[1..], prio, t);
      ConsByPriority(ts[0], Without(ts[1..], t), prio);
    }
  }

  /** A change of one priority keeps the order exactly when it lies between the neighbours'. */
  lemma ReorderIff(ts: seq<Task>, prio: map<Task, nat>, i: nat, p: nat)
    requires NoDup(ts) && ByPriority(ts, prio) && i < |ts|
    ensures ByPriority(ts, prio[ts[i] := p]) <==>
              (i > 0 ==> p <= prio[ts[i - 1]]) && (i + 1 < |ts| ==> prio[ts[i + 1]] <= p)
  {
    var prio' := prio[ts[i] := p];
    assert forall j :: 0 <= j < |ts| ==> prio'[ts[j]] == if j == i then p else prio[ts[j]];
    if (i > 0 ==> p <= prio[ts[i - 1]]) && (i + 1 < |ts| ==> prio[ts[i + 1]] <= p) {
      forall a, b | 0 <= a < b < |ts| ensures prio'[ts[a]] >= prio'[ts[b]] {
        assert a < i ==> prio[ts[a]] >= prio[ts[i - 1]];
        assert b > i ==> prio[ts[i + 1]] >= prio[ts[b]];
      }
    }
  }

  // ---- A change of the holder's priority -----------------------------------------------------

  ghost predicate PlacedAt(s: State, n: Mutex, i: nat, h: Task) {
    n in s.wait && i < |s.wait[n]| && s.wait[n][i] == h
  }

  /** At priority `p` the waiter at place `i` would be above the waiter before it or below the one
      behind it, or above a holder that had the mutex when it blocked. */
  ghost predicate OutOfPlace(s: State, n: Mutex, i: nat, p: nat)
    requires Core(s) && n in s.wait && i < |s.wait[n]|
  {
    MutexDefined(s, n);
    var ts := s.wait[n];
    || (i > 0 && s.prio[ts[i - 1]] < p)
    || (i + 1 < |ts| && p < s.prio[ts[i + 1]])
    || (n in s.holder && s.holder[n] != ts[i] && ts[i] in s.since[n] && s.prio[s.holder[n]] < p)
  }

  /** Task `h` waits for a mutex itself, and would be out of place there at priority `p`. */
  ghost predicate Displaced(s: State, h: Task, p: nat)
    requires Core(s)
  {
    exists n, i :: PlacedAt(s, n, i, h) && OutOfPlace(s, n, i, p)
  }

  /** No task that blocked on a mutex of `h` since `h` took it is above `p`. */
  ghost predicate Above(s: State, h: Task, p: nat, n: Mutex) {
    n in s.holder && s.holder[n] == h && n in s.wait && n in s.since ==>
      forall t :: t in s.wait[n] && t in s.since[n] && t != h && t in s.prio ==> s.prio[t] <= p
  }

  lemma MutexOkChangedIff(s: State, h: Task, p: nat, n: Mutex)
    requires Core(s) && n in s.wait && MutexOk(s, n) && h in s.base && Above(s, h, p, n)
    ensures MutexOk(s.(prio := s.prio[h := p]), n) <==> forall i :: PlacedAt(s, n, i, h) ==> !OutOfPlace(s, n, i, p)
  {
    hide Core, TaskOk, ByPriority, NoDup;
    MutexDefined(s, n);
    var ts := s.wait[n];
    if h in ts {
      var i := IndexOf(ts, h);
      ReorderIff(ts, s.prio, i, p);
      OnePlace(s, n, i, h);
      assert (forall j :: PlacedAt(s, n, j, h) ==> !OutOfPlace(s, n, j, p)) <==> !OutOfPlace(s, n, i, p);
    } else {
      OtherPriority(ts, s.prio, h, p);
      assert forall j :: !PlacedAt(s, n, j, h);
    }
  }

  lemma OnePlace(s: State, n: Mutex, i: nat, h: Task)
    requires n in s.wait && NoDup(s.wait[n]) && i < |s.wait[n]| && s.wait[n][i] == h
    ensures PlacedAt(s, n, i, h) && forall j :: PlacedAt(s, n, j, h) ==> j == i
  {
  }

  lemma OtherPriority(ts: seq<Task>, prio: map<Task, nat>, h: Task, p: nat)
    requires ByPriority(ts, prio) && h !in ts
    ensures ByPriority(ts, prio[h := p])
  {
  }

  lemma ChangedIff(s: State, h: Task, p: nat)
    requires Inv(s) && h in s.base && h in s.held && s.held[h] > 0 && s.base[h] <= p
    requires forall n :: n in s.wait ==> Above(s, h, p, n)
    ensures Inv(s.(prio := s.prio[h := p])) <==> !Displaced(s, h, p)
  {
    hide Core, MutexOk, OutOfPlace, Above;
    PrioritiesCore(s, h, p);
    var s' := s.(prio := s.prio[h := p]);
    forall n | n in s.wait
      ensures MutexOk(s', n) <==> forall i :: PlacedAt(s, n, i, h) ==> !OutOfPlace(s, n, i, p)
    {
      MutexOkChangedIff(s, h, p, n);
    }
  }

  // ---- The steps -----------------------------------------------------------------------------

  lemma TakeKeeps(s: State, t: Task, m: Mutex)
    requires Inv(s) && Possible(s, TakeIt(t, m))
    ensures Inv(Step(s, TakeIt(t, m)))
  {
    hide ByPriority;
    TaskDefined(s, t);
    StepCore(s, TakeIt(t, m));
    hide Core, TaskOk, Running;
    var s' := Step(s, TakeIt(t, m));
    forall n | n in s'.wait ensures MutexOk(s', n) {
      assert MutexOk(s, n);
    }
  }

  lemma OnlyMutexHeld(s: State, h: Task, m: Mutex, n: Mutex)
    requires Core(s) && m in s.holder && n in s.holder && s.holder[m] == h == s.holder[n]
    requires h in s.held && s.held[h] == 1
    ensures m == n
  {
    assert TaskOk(s, h);
    assert m in Holds(s, h) && n in Holds(s, h);
    if m != n {
      assert {m, n} <= Holds(s, h);
      SubsetSize({m, n}, Holds(s, h));
    }
  }

  lemma SubsetSize(a: set<Mutex>, b: set<Mutex>)
    requires a <= b
    ensures |a| <= |b|
  {
    assert b == a + (b - a);
  }

  lemma NotWaiting(s: State, t: Task, p: nat, m: Mutex)
    requires Core(s) && Running(s, t) && m in s.wait && MutexOk(s, m)
    ensures ByPriority(s.wait[m], s.prio[t := p]) && t !in s.wait[m]
  {
  }

  lemma GiveMutexOk(s: State, t: Task, m: Mutex, n: Mutex)
    requires Inv(s) && Possible(s, GiveIt(t, m)) && n in s.wait && TaskOk(s, t) && s.held[t] > 0
    ensures MutexOk(Give(s, t, m), n)
  {
    assert MutexOk(s, n);
    NotWaiting(s, t, s.base[t], n);
    var s' := Give(s, t, m);
    if n in s'.holder && s.holder[n] == t && s.held[t] == 1 {
      OnlyMutexHeld(s, t, m, n);
    }
    hide Core, Holds, ByPriority, Running;
    if s.wait[n] != [] {
      TailByPriority(s.wait[n], s'.prio);
    }
  }

  lemma GiveKeeps(s: State, t: Task, m: Mutex)
    requires Inv(s) && Possible(s, GiveIt(t, m))
    ensures Inv(Step(s, GiveIt(t, m)))
  {
    hide MutexOk, Core, TaskOk, Running;
    HolderHolds(s, m);
    HeldBase(s, t);
    StepCore(s, GiveIt(t, m));
    var s' := Step(s, GiveIt(t, m));
    forall n | n in s'.wait ensures MutexOk(s', n) {
      GiveMutexOk(s, t, m, n);
    }
  }

  lemma ExpireKeeps(s: State, t: Task, m: Mutex)
    requires Inv(s) && Possible(s, Expire(t, m))
    ensures Inv(Step(s, Expire(t, m)))
  {
    hide Core, ByPriority, Without;
    StepCore(s, Expire(t, m));
    var s' := Step(s, Expire(t, m));
    forall n | n in s'.wait ensures MutexOk(s', n) {
      assert MutexOk(s, n);
      WithoutByPriority(s.wait[n], s.prio, t);
    }
  }

  lemma QueuedIff(s: State, s': State, t: Task, m: Mutex)
    requires Core(s) && Core(s') && m in s.holder && m in s.wait && m in s.since && t in s.prio
    requires s.holder[m] in s.prio && s.prio[t] <= s.prio[s.holder[m]] && forall x :: x in s.wait[m] ==> x in s.prio
    requires s' == s.(wait := s.wait[m := Queued(s.wait[m], s.prio, t)], since := s.since[m := s.since[m] + {t}],
                      inherited := s'.inherited)
    requires t !in s.wait[m]
    ensures Inv(s') <==> Inv(s)
  {
    hide Core, ByPriority, Queued;
    QueuedByPriorityIff(s.wait[m], s.prio, t);
    QueuedMembers(s.wait[m], s.prio, t);
    assert MutexOk(s', m) <==> MutexOk(s, m);
    assert forall n :: n in s.wait && n != m ==> (MutexOk(s', n) <==> MutexOk(s, n));
  }

  /** Blocking keeps inheritance sound exactly when the holder, at its raised priority, is not out
      of place in a list it waits in itself. */
  lemma BlockKeepsIff(s: State, t: Task, m: Mutex)
    requires Inv(s) && Possible(s, BlockOn(t, m))
    ensures s.holder[m] in s.prio && t in s.prio
    ensures Inv(Step(s, BlockOn(t, m))) <==> !Displaced(s, s.holder[m], Raised(s, t, m))
  {
    hide Core, MutexOk, TaskOk, Queued, Step, Displaced;
    var h := s.holder[m];
    BlockStep(s, t, m);
    HolderHolds(s, m);
    HeldBase(s, h);
    var p := Raised(s, t, m);
    forall n | n in s.wait ensures Above(s, h, p, n) {
      AboveOwn(s, h, p, n);
    }
    ChangedIff(s, h, p);
    PrioritiesCore(s, h, p);
    StepCore(s, BlockOn(t, m));
    QueuedIff(s.(prio := s.prio[h := p]), Step(s, BlockOn(t, m)), t, m);
  }

  lemma AboveOwn(s: State, h: Task, p: nat, n: Mutex)
    requires MutexOk(s, n) && h in s.prio && s.prio[h] <= p
    ensures Above(s, h, p, n)
  {
    hide ByPriority;
  }

  /** The disinheritance after a time-out keeps it sound exactly when it changes nothing or does not
      put the holder out of place in a list it waits in itself. */
  lemma SettleKeepsIff(s: State, t: Task, m: Mutex)
    requires Inv(s) && Possible(s, SettleAfter(t, m))
    ensures Resets(s, t, m) ==> s.holder[m] in s.base && forall x :: x in s.wait[m] ==> x in s.prio
    ensures Inv(Step(s, SettleAfter(t, m))) <==> !(Resets(s, t, m) && Displaced(s, s.holder[m], Lowered(s, m)))
  {
    hide Core, MutexOk, TaskOk, Step, Displaced;
    SettleStep(s, t, m);
    if Resets(s, t, m) {
      var h, p := s.holder[m], Lowered(s, m);
      HolderHolds(s, m);
      HeldBase(s, h);
      forall n | n in s.wait ensures Above(s, h, p, n) {
        AboveOnly(s, h, m, n);
      }
      ChangedIff(s, h, p);
    }
  }

  lemma AboveOnly(s: State, h: Task, m: Mutex, n: Mutex)
    requires Inv(s) && m in s.holder && m in s.wait && s.holder[m] == h && h in s.base && h in s.held && s.held[h] == 1
    requires forall x :: x in s.wait[m] ==> x in s.prio
    ensures Above(s, h, Lowered(s, m), n)
  {
    if n in s.holder && s.holder[n] == h {
      OnlyMutexHeld(s, h, m, n);
      assert MutexOk(s, m);
      HeadIsHighest(s.wait[m], s.prio);
    }
  }

  /** The step sets the priority of a holder that waits for a mutex itself, to a value at which it is
      out of place there. */
  ghost predicate Disturbs(s: State, e: Event)
    requires Core(s) && Possible(s, e)
  {
    match e
    case BlockOn(t, m) => BlockStep(s, t, m); Displaced(s, s.holder[m], Raised(s, t, m))
    case SettleAfter(t, m) => SettleStep(s, t, m); Resets(s, t, m) && Displaced(s, s.holder[m], Lowered(s, m))
    case _ => false
  }

  /** Every step keeps inheritance sound, except exactly those that disturb a waiting holder. */
  lemma StepKeepsIff(s: State, e: Event)
    requires Inv(s) && Possible(s, e)
    ensures Inv(Step(s, e)) <==> !Disturbs(s, e)
  {
    hide Core, MutexOk, Step, Displaced, Running;
    match e
    case TakeIt(t, m) => TakeKeeps(s, t, m);
    case GiveIt(t, m) => GiveKeeps(s, t, m);
    case BlockOn(t, m) => BlockKeepsIff(s, t, m);
    case Expire(t, m) => ExpireKeeps(s, t, m);
    case SettleAfter(t, m) => SettleKeepsIff(s, t, m);
  }

  // ---- Runs --------------------------------------------------------------------------------

  /** Inheritance is sound in all states of the run. */
  ghost predicate AlwaysSound(s: State, es: seq<Event>)
    requires Core(s) && PossibleRun(s, es)
    decreases |es|
  {
    Inv(s) && (es == [] || (StepCore(s, es[0]); AlwaysSound(Step(s, es[0]), es[1..])))
  }

  ghost predicate NeverDisturbs(s: State, es: seq<Event>)
    requires Core(s) && PossibleRun(s, es)
    decreases |es|
  {
    es == [] || (!Disturbs(s, es[0]) && (StepCore(s, es[0]); NeverDisturbs(Step(s, es[0]), es[1..])))
  }

  lemma {:induction false} RunSoundIff(s: State, es: seq<Event>)
    requires Core(s) && Inv(s) && PossibleRun(s, es)
    ensures AlwaysSound(s, es) <==> NeverDisturbs(s, es)
    ensures AlwaysSound(s, es) ==> Inv(Run(s, es))
    decreases |es|
  {
    hide Core, Inv, Step, Disturbs, Possible;
    if es != [] {
      StepCore(s, es[0]);
      StepKeepsIff(s, es[0]);
      if Inv(Step(s, es[0])) {
        RunSoundIff(Step(s, es[0]), es[1..]);
      }
    }
  }

  lemma NoneTakenInv(base: map<Task, nat>, mutexes: set<Mutex>)
    ensures Core(NoneTaken(base, mutexes)) && Inv(NoneTaken(base, mutexes))
  {
    NoneTakenCore(base, mutexes);
  }

  /** Over every run from the start, nested blocking included: in all its states waiters are in order
      of priority and no holder is below a task that blocked on its mutex since it took it, if and
      only if no step sets the priority of a holder that waits itself to a value out of place. */
  lemma InheritanceIsSoundIff(base: map<Task, nat>, mutexes: set<Mutex>, es: seq<Event>)
    requires (NoneTakenCore(base, mutexes); PossibleRun(NoneTaken(base, mutexes), es))
    ensures (NoneTakenCore(base, mutexes);
             AlwaysSound(NoneTaken(base, mutexes), es) <==> NeverDisturbs(NoneTaken(base, mutexes), es))
  {
    NoneTakenInv(base, mutexes);
    RunSoundIff(NoneTaken(base, mutexes), es);
  }

  // ---- Tasks that hold a mutex do not block on another ---------------------------------------

  /** Waiters hold no mutex. */
  ghost predicate Flat(s: State) {
    forall m, t :: m in s.wait && t in s.wait[m] ==> t in s.held && s.held[t] == 0
  }

  ghost predicate BlocksFlat(s: State, e: Event) {
    e.BlockOn? ==> e.t in s.held && s.held[e.t] == 0
  }

  ghost predicate FlatRun(s: State, es: seq<Event>)
    requires Core(s) && PossibleRun(s, es)
    decreases |es|
  {
    es == [] || (BlocksFlat(s, es[0]) && (StepCore(s, es[0]); FlatRun(Step(s, es[0]), es[1..])))
  }

  lemma FlatStep(s: State, e: Event)
    requires Core(s) && Flat(s) && Possible(s, e) && BlocksFlat(s, e)
    ensures Flat(Step(s, e)) && !Disturbs(s, e)
  {
    hide Core, TaskOk, Queued, Without, OutOfPlace;
    match e
    case TakeIt(t, m) => TaskDefined(s, t);
    case GiveIt(t, m) => HolderHolds(s, m);
    case BlockOn(t, m) =>
      BlockStep(s, t, m);
      HolderHolds(s, m);
      QueuedMembers(s.wait[m], s.prio[s.holder[m] := Raised(s, t, m)], t);
      NeverPlaced(s, s.holder[m], Raised(s, t, m));
    case Expire(t, m) =>
      MutexDefined(s, m);
      WithoutMembers(s.wait[m], t);
    case SettleAfter(t, m) =>
      SettleStep(s, t, m);
      if Resets(s, t, m) {
        HolderHolds(s, m);
        NeverPlaced(s, s.holder[m], Lowered(s, m));
      }
  }

  lemma NeverPlaced(s: State, h: Task, p: nat)
    requires Core(s) && Flat(s) && h in s.held && s.held[h] > 0
    ensures !Displaced(s, h, p)
  {
    hide Core, OutOfPlace;
    assert forall n, i :: !PlacedAt(s, n, i, h);
  }

  lemma {:induction false} FlatNeverDisturbs(s: State, es: seq<Event>)
    requires Core(s) && Flat(s) && PossibleRun(s, es) && FlatRun(s, es)
    ensures NeverDisturbs(s, es)
    decreases |es|
  {
    hide Core, Flat, Step, Disturbs, Possible;
    if es != [] {
      StepCore(s, es[0]);
      FlatStep(s, es[0]);
      FlatNeverDisturbs(Step(s, es[0]), es[1..]);
    }
  }

  /** Over every run in which a task that holds a mutex does not block on another one: waiters are in
      order of priority, and a holder is not below any task still waiting for its mutex that blocked
      since it took it. */
  lemma InheritanceIsSound(base: map<Task, nat>, mutexes: set<Mutex>, es: seq<Event>)
    requires (NoneTakenCore(base, mutexes); PossibleRun(NoneTaken(base, mutexes), es))
    requires (NoneTakenCore(base, mutexes); FlatRun(NoneTaken(base, mutexes), es))
    ensures var s := (NoneTakenCore(base, mutexes); Run(NoneTaken(base, mutexes), es));
            forall m :: m in s.holder ==>
              && m in s.wait && m in s.since && s.holder[m] in s.prio && ByPriority(s.wait[m], s.prio)
              && (forall t :: t in s.wait[m] && t in s.since[m] ==> s.prio[t] <= s.prio[s.holder[m]])
  {
    hide Run, PossibleRun, FlatRun, TaskOk, ByPriority, NeverDisturbs, AlwaysSound;
    NoneTakenInv(base, mutexes);
    var s0 := NoneTaken(base, mutexes);
    FlatNeverDisturbs(s0, es);
    RunSoundIff(s0, es);
    var s := Run(s0, es);
    forall m | m in s.holder ensures MutexOk(s, m) {}
  }
}
