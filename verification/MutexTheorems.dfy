/** Exact priorities after each mutex operation, and when a holder is not below any waiter at all. */
module MutexTheorems {
  import opened Rings
  import opened TaskLists
  import opened Mutexes
  import opened PriorityInheritance

  // ---- Exact priorities ----------------------------------------------------------------------

  /** A free mutex goes to the task that takes it, and nothing else changes but its held count and the
      account of who blocked since; taking a mutex that is held changes nothing. */
  lemma TakeIsExact(s: State, t: Task, m: Mutex)
    requires Core(s) && Possible(s, TakeIt(t, m))
    ensures t in s.held
    ensures var s' := Step(s, TakeIt(t, m));
            if m in s.holder then s' == s
            else && s' == s.(holder := s.holder[m := t], held := s'.held, since := s.since[m := {}])
                 && s'.held == s.held[t := |Holds(s, t)| + 1]
  {
    hide Core, Holds, Running;
    TaskDefined(s, t);
  }

  /** `t` stands behind all of at least its priority and in front of the first of a lower one. */
  ghost predicate QueuedBehind(ts: seq<Task>, ts': seq<Task>, prio: map<Task, nat>, t: Task) {
    exists i: nat :: i <= |ts| && ts' == ts[..i] + [t] + ts[i..] && IsPlace(ts, prio, t, i)
  }

  ghost predicate IsPlace(ts: seq<Task>, prio: map<Task, nat>, t: Task, i: nat)
    requires i <= |ts|
  {
    && t in prio && (forall x :: x in ts[..i] ==> x in prio && prio[x] >= prio[t])
    && (i < |ts| ==> ts[i] in prio && prio[ts[i]] < prio[t])
  }

  lemma {:induction false} QueuedAt(ts: seq<Task>, prio: map<Task, nat>, t: Task) returns (i: nat)
    requires t in prio && forall x :: x in ts ==> x in prio
    ensures i <= |ts| && Queued(ts, prio, t) == ts[..i] + [t] + ts[i..] && IsPlace(ts, prio, t, i)
  {
    if ts == [] || prio[ts[0]] < prio[t] {
      i := 0;
      assert ts[..0] + [t] + ts[0..] == [t] + ts;
    } else {
      i := QueuedAt(ts[1..], prio, t);
      assert ts[..i + 1] == [ts[0]] + ts[1..][..i] && ts[i + 1..] == ts[1..][i..];
      i := i + 1;
    }
  }

  /** Blocking raises only the holder, to the priority of the blocked task if that is higher, and
      notes for a time-out exactly whether the holder's base priority is below it. The task queues
      behind all waiters of its priority or a higher one; nothing else changes. */
  lemma BlockIsExact(s: State, t: Task, m: Mutex)
    requires Core(s) && Possible(s, BlockOn(t, m))
    ensures m in s.wait && m in s.since && t in s.prio && s.holder[m] in s.prio && s.holder[m] in s.base
    ensures var s', h := Step(s, BlockOn(t, m)), s.holder[m];
            && s' == s.(prio := s.prio[h := Max(s.prio[h], s.prio[t])], wait := s'.wait,
                        since := s.since[m := s.since[m] + {t}], inherited := s'.inherited)
            && s'.inherited == (if s.base[h] < s.prio[t] then s.inherited + {t} else s.inherited - {t})
            && m in s'.wait && s'.wait == s.wait[m := s'.wait[m]] && QueuedBehind(s.wait[m], s'.wait[m], s'.prio, t)
  {
    hide Core, Queued, Step, QueuedBehind;
    BlockStep(s, t, m);
    BlockNotes(s, t, m);
    var p := s.prio[s.holder[m] := Raised(s, t, m)];
    var i := QueuedAt(s.wait[m], p, t);
    assert QueuedBehind(s.wait[m], Queued(s.wait[m], p, t), p, t) by { PlaceFound(s.wait[m], p, t, i); }
  }

  lemma PlaceFound(ts: seq<Task>, prio: map<Task, nat>, t: Task, i: nat)
    requires t in prio && forall x :: x in ts ==> x in prio
    requires i <= |ts| && Queued(ts, prio, t) == ts[..i] + [t] + ts[i..] && IsPlace(ts, prio, t, i)
    ensures QueuedBehind(ts, Queued(ts, prio, t), prio, t)
  {
  }

  lemma BlockNotes(s: State, t: Task, m: Mutex)
    requires Core(s) && Possible(s, BlockOn(t, m))
    ensures t in s.prio && s.holder[m] in s.base
    ensures Step(s, BlockOn(t, m)).inherited
         == if s.base[s.holder[m]] < s.prio[t] then s.inherited + {t} else s.inherited - {t}
  {
    hide Core, Queued, Running, Holds;
    BlockDefined(s, t, m);
  }

  lemma HoldsOnly(s: State, h: Task, m: Mutex)
    requires Core(s) && m in s.holder && s.holder[m] == h
    ensures h in s.held && (s.held[h] == 1 <==> Holds(s, h) == {m})
  {
    HolderHolds(s, m);
    assert m in Holds(s, h);
    if s.held[h] == 1 {
      forall n | n in Holds(s, h) ensures n == m { OnlyMutexHeld(s, h, m, n); }
      assert Holds(s, h) == {m};
    }
  }

  /** The giver drops to its base priority exactly with its last mutex; nobody else changes; the
      first waiter is taken off the list. */
  lemma GiveIsExact(s: State, t: Task, m: Mutex)
    requires Core(s) && Possible(s, GiveIt(t, m))
    ensures t in s.prio && t in s.base
    ensures var s' := Step(s, GiveIt(t, m));
            && s'.prio == s.prio[t := if Holds(s, t) == {m} then s.base[t] else s.prio[t]]
            && s'.holder == s.holder - {m} && s'.wait.Keys == s.wait.Keys
            && s'.wait == s.wait[m := if s.wait[m] == [] then [] else s.wait[m][1..]]
            && t in s'.held && s'.held == s.held[t := s'.held[t]] && s'.held[t] + 1 == |Holds(s, t)|
            && s'.since == s.since[m := {}] && s'.inherited == s.inherited && s'.base == s.base
  {
    hide Core, Holds, Running;
    HolderHolds(s, m);
    HoldsOnly(s, t, m);
    assert s.prio[t := s.prio[t]] == s.prio && s.wait[m := s.wait[m]] == s.wait;
  }

  /** A waiter that is taken off by the tick leaves the list; the others keep their order, and nothing
      else changes. */
  lemma ExpireIsExact(s: State, t: Task, m: Mutex)
    requires Core(s) && Possible(s, Expire(t, m))
    ensures var s', i := Step(s, Expire(t, m)), IndexOf(s.wait[m], t);
            s' == s.(wait := s.wait[m := s.wait[m][..i] + s.wait[m][i + 1..]]) && t !in s'.wait[m]
  {
    hide Core, Without, Running;
    MutexDefined(s, m);
    WithoutAt(s.wait[m], IndexOf(s.wait[m], t));
    WithoutMembers(s.wait[m], t);
  }

  /** When a waiter that noted inheritance times out, a holder of this mutex only is left with the
      larger of its base priority and the highest priority still waiting for the mutex; a holder of
      several mutexes, and everybody else, keeps its priority. If the mutex is free by then, or no
      inheritance was noted, nothing changes. */
  lemma SettleIsExact(s: State, t: Task, m: Mutex)
    requires Inv(s) && Possible(s, SettleAfter(t, m))
    ensures m in s.holder ==> s.holder[m] in s.prio && s.holder[m] in s.base
    ensures forall x :: x in s.wait[m] ==> x in s.prio
    ensures var s' := Step(s, SettleAfter(t, m));
            && s' == s.(prio := s'.prio)
            && s'.prio == (if m !in s.holder || t !in s.inherited then s.prio
                           else var h := s.holder[m];
                                s.prio[h := if Holds(s, h) == {m} then Max(s.base[h], HighestWaiting(s, m))
                                            else s.prio[h]])
            && forall x :: x in s.wait[m] ==> s.prio[x] <= HighestWaiting(s, m)
  {
    hide Core, Holds, Step, ByPriority, Running;
    SettleStep(s, t, m);
    assert MutexOk(s, m);
    MutexDefined(s, m);
    HeadIsHighest(s.wait[m], s.prio);
    if m in s.holder {
      HolderHolds(s, m);
      HoldsOnly(s, s.holder[m], m);
      assert s.prio[s.holder[m] := s.prio[s.holder[m]]] == s.prio;
    }
  }

  // ---- Mutual exclusion ----------------------------------------------------------------------

  lemma StepHolder(s: State, e: Event, m: Mutex)
    requires Core(s) && Possible(s, e) && m in s.holder && e != GiveIt(s.holder[m], m)
    ensures m in Step(s, e).holder && Step(s, e).holder[m] == s.holder[m]
  {
    hide Core, Holds, Running, Step;
    match e
    case TakeIt(t, n) => TakeIsExact(s, t, n);
    case GiveIt(t, n) => GiveIsExact(s, t, n);
    case BlockOn(t, n) => BlockIsExact(s, t, n);
    case Expire(t, n) => ExpireIsExact(s, t, n);
    case SettleAfter(t, n) => SettleStep(s, t, n);
  }

  /** Mutual exclusion: whatever others do, a mutex stays with the task that took it until that task
      gives it back. */
  lemma {:induction false} MutexIsExclusive(s: State, es: seq<Event>, m: Mutex)
    requires Core(s) && PossibleRun(s, es) && m in s.holder && GiveIt(s.holder[m], m) !in es
    ensures m in Run(s, es).holder && Run(s, es).holder[m] == s.holder[m]
    decreases |es|
  {
    hide Core, Step, Possible;
    if es != [] {
      StepCore(s, es[0]);
      assert es[0] in es;
      StepHolder(s, es[0], m);
      assert forall e :: e in es[1..] ==> e in es;
      MutexIsExclusive(Step(s, es[0]), es[1..], m);
    }
  }

  /** A task that takes a free mutex inherits nothing from tasks already waiting for it (one of
      them has been woken but has not run yet). It is not below all of them exactly when it is
      not below the first. */
  lemma TakerCoversWaitersIff(s: State, t: Task, m: Mutex)
    requires Inv(s) && Possible(s, TakeIt(t, m)) && m !in s.holder
    ensures t in s.prio && (forall x :: x in s.wait[m] ==> x in s.prio)
    ensures var s' := Step(s, TakeIt(t, m));
            && s'.holder == s.holder[m := t] && s'.wait == s.wait && s'.prio == s.prio
            && ((forall x :: x in s'.wait[m] ==> s'.prio[x] <= s'.prio[t])
                <==> s.wait[m] == [] || s.prio[s.wait[m][0]] <= s.prio[t])
  {
    hide Core, Holds, Running;
    TaskDefined(s, t);
    assert MutexOk(s, m);
    HeadIsHighest(s.wait[m], s.prio);
    assert s.wait[m] != [] ==> s.wait[m][0] in s.wait[m];
  }

  // ---- Holders and all waiters ---------------------------------------------------------------

  /** The holder is not below any waiter, whenever that waiter blocked. */
  ghost predicate Covered(s: State, m: Mutex) {
    m in s.holder && m in s.wait && s.holder[m] in s.prio ==>
      forall x :: x in s.wait[m] && x in s.prio ==> s.prio[x] <= s.prio[s.holder[m]]
  }

  ghost predicate AllCovered(s: State) {
    forall m :: m in s.holder ==> Covered(s, m)
  }

  /** A task takes a free mutex ahead of a waiter of higher priority. */
  predicate Overtakes(s: State, t: Task, m: Mutex) {
    && m !in s.holder && m in s.wait && s.wait[m] != []
    && t in s.prio && s.wait[m][0] in s.prio && s.prio[t] < s.prio[s.wait[m][0]]
  }

  /** At priority `p`, task `h` would be above the holder of a mutex it waits for. */
  ghost predicate Outranks(s: State, h: Task, p: nat) {
    exists n :: n in s.wait && n in s.holder && h in s.wait[n] && Outranked(s, n, h, p)
  }

  ghost predicate Outranked(s: State, n: Mutex, h: Task, p: nat) {
    n in s.holder && s.holder[n] != h && s.holder[n] in s.prio && s.prio[s.holder[n]] < p
  }

  /** The step puts a holder below one of its waiters: by a take ahead of a higher waiter, or by
      raising a holder that waits for another mutex itself. */
  ghost predicate Uncovers(s: State, e: Event)
    requires Core(s) && Possible(s, e)
  {
    match e
    case TakeIt(t, m) => Overtakes(s, t, m)
    case BlockOn(t, m) => BlockStep(s, t, m); Outranks(s, s.holder[m], Raised(s, t, m))
    case SettleAfter(t, m) => SettleStep(s, t, m); Resets(s, t, m) && Outranks(s, s.holder[m], Lowered(s, m))
    case _ => false
  }

  lemma TakeCoversIff(s: State, t: Task, m: Mutex)
    requires Inv(s) && Possible(s, TakeIt(t, m)) && AllCovered(s)
    ensures AllCovered(Step(s, TakeIt(t, m))) <==> !Overtakes(s, t, m)
  {
    hide Core, MutexOk, Running;
    var s' := Step(s, TakeIt(t, m));
    if m !in s.holder {
      TakerCoversWaitersIff(s, t, m);
      assert forall n :: n in s.holder ==> Covered(s, n) && Covered(s', n);
      assert AllCovered(s') <==> Covered(s', m);
    }
  }

  lemma GiveCovers(s: State, t: Task, m: Mutex)
    requires Inv(s) && Possible(s, GiveIt(t, m)) && AllCovered(s)
    ensures AllCovered(Step(s, GiveIt(t, m)))
  {
    hide Core, Step;
    GiveIsExact(s, t, m);
    var s' := Step(s, GiveIt(t, m));
    forall n | n in s'.holder ensures Covered(s', n) {
      assert Covered(s, n);
      assert n in Holds(s, s.holder[n]);
    }
  }

  /** No waiter for a mutex of `h` is above `p`. */
  ghost predicate CoversOwn(s: State, h: Task, p: nat) {
    forall n :: n in s.holder && s.holder[n] == h ==> Below(s, h, p, n)
  }

  ghost predicate Below(s: State, h: Task, p: nat, n: Mutex) {
    n in s.wait ==> forall x :: x in s.wait[n] && x != h && x in s.prio ==> s.prio[x] <= p
  }

  lemma ChangeCoversIff(s: State, h: Task, p: nat)
    requires Core(s) && AllCovered(s) && CoversOwn(s, h, p) && h in s.base
    ensures AllCovered(s.(prio := s.prio[h := p])) <==> !Outranks(s, h, p)
  {
    var s' := s.(prio := s.prio[h := p]);
    forall n | n in s.holder ensures Covered(s', n) <==> !(h in s.wait[n] && Outranked(s, n, h, p)) {
      assert Covered(s, n) && TaskOk(s, s.holder[n]) && (s.holder[n] == h ==> Below(s, h, p, n));
      hide Core, AllCovered, CoversOwn;
    }
  }

  lemma BlockCoversIff(s: State, t: Task, m: Mutex)
    requires Inv(s) && Possible(s, BlockOn(t, m)) && AllCovered(s)
    ensures AllCovered(Step(s, BlockOn(t, m))) <==> !Uncovers(s, BlockOn(t, m))
  {
    hide Core, MutexOk, Step, Queued, Outranks;
    BlockStep(s, t, m);
    var h, p := s.holder[m], Raised(s, t, m);
    CoversMore(s, h, p);
    HolderHolds(s, m);
    ChangeCoversIff(s, h, p);
    var s1, s' := s.(prio := s.prio[h := p]), Step(s, BlockOn(t, m));
    QueuedMembers(s1.wait[m], s1.prio, t);
    assert Covered(s', m) <==> Covered(s1, m);
    assert forall n :: n in s.holder && n != m ==> (Covered(s', n) <==> Covered(s1, n));
  }

  lemma CoversMore(s: State, h: Task, p: nat)
    requires AllCovered(s) && h in s.prio && s.prio[h] <= p
    ensures CoversOwn(s, h, p)
  {
    forall n | n in s.holder && s.holder[n] == h ensures Below(s, h, p, n) {
      assert Covered(s, n);
    }
  }

  lemma SettleCoversIff(s: State, t: Task, m: Mutex)
    requires Inv(s) && Possible(s, SettleAfter(t, m)) && AllCovered(s)
    ensures AllCovered(Step(s, SettleAfter(t, m))) <==> !Uncovers(s, SettleAfter(t, m))
  {
    hide Core, MutexOk, Step, Outranks, AllCovered;
    SettleStep(s, t, m);
    if Resets(s, t, m) {
      var h, p := s.holder[m], Lowered(s, m);
      HolderHolds(s, m);
      CoversOnly(s, h, m);
      ChangeCoversIff(s, h, p);
    }
  }

  lemma CoversOnly(s: State, h: Task, m: Mutex)
    requires Inv(s) && m in s.holder && m in s.wait && s.holder[m] == h && h in s.base && h in s.held && s.held[h] == 1
    requires forall x :: x in s.wait[m] ==> x in s.prio
    ensures CoversOwn(s, h, Lowered(s, m))
  {
    forall n | n in s.holder && s.holder[n] == h ensures Below(s, h, Lowered(s, m), n) {
      OnlyMutexHeld(s, h, m, n);
      assert MutexOk(s, m);
      HeadIsHighest(s.wait[m], s.prio);
    }
  }

  lemma ExpireCovers(s: State, t: Task, m: Mutex)
    requires Core(s) && Possible(s, Expire(t, m)) && AllCovered(s)
    ensures AllCovered(Step(s, Expire(t, m)))
  {
    MutexDefined(s, m);
    WithoutMembers(s.wait[m], t);
    var s' := Step(s, Expire(t, m));
    forall n | n in s'.holder ensures Covered(s', n) {
      assert Covered(s, n);
    }
  }

  /** Every step keeps all holders at or above all their waiters, except exactly a take that
      overtakes a higher waiter and a change that puts a waiting holder above its own holder. */
  lemma StepCoversIff(s: State, e: Event)
    requires Inv(s) && Possible(s, e) && AllCovered(s)
    ensures AllCovered(Step(s, e)) <==> !Uncovers(s, e)
  {
    hide Core, MutexOk, AllCovered, Step, Outranks, Overtakes;
    match e
    case TakeIt(t, m) => TakeCoversIff(s, t, m);
    case GiveIt(t, m) => GiveCovers(s, t, m);
    case BlockOn(t, m) => BlockCoversIff(s, t, m);
    case Expire(t, m) => ExpireCovers(s, t, m);
    case SettleAfter(t, m) => SettleCoversIff(s, t, m);
  }

  /** All states of the run are covered. */
  ghost predicate AlwaysCovered(s: State, es: seq<Event>)
    requires Core(s) && PossibleRun(s, es)
    decreases |es|
  {
    AllCovered(s) && (es == [] || (StepCore(s, es[0]); AlwaysCovered(Step(s, es[0]), es[1..])))
  }

  ghost predicate NeverUncovers(s: State, es: seq<Event>)
    requires Core(s) && PossibleRun(s, es)
    decreases |es|
  {
    es == [] || (!Uncovers(s, es[0]) && (StepCore(s, es[0]); NeverUncovers(Step(s, es[0]), es[1..])))
  }

  lemma {:induction false} RunCoversIff(s: State, es: seq<Event>)
    requires Core(s) && PossibleRun(s, es) && AlwaysSound(s, es) && AllCovered(s)
    ensures AlwaysCovered(s, es) <==> NeverUncovers(s, es)
    decreases |es|
  {
    hide Core, Inv, AllCovered, Step, Uncovers, Possible;
    if es != [] {
      StepCore(s, es[0]);
      StepCoversIff(s, es[0]);
      if AllCovered(Step(s, es[0])) {
        RunCoversIff(Step(s, es[0]), es[1..]);
      }
    }
  }

  /** Over every run from the start, nested blocking included: inheritance is sound and every holder is
      at or above every task waiting for its mutex, in all states, if and only if no step disturbs a
      waiting holder, takes a free mutex ahead of a higher waiter, or raises a waiting holder above
      its own holder. */
  lemma HoldersCoverWaitersIff(base: map<Task, nat>, mutexes: set<Mutex>, es: seq<Event>)
    requires (NoneTakenCore(base, mutexes); PossibleRun(NoneTaken(base, mutexes), es))
    ensures var s := (NoneTakenCore(base, mutexes); NoneTaken(base, mutexes));
            AlwaysSound(s, es) && AlwaysCovered(s, es) <==> NeverDisturbs(s, es) && NeverUncovers(s, es)
  {
    hide AlwaysSound, AlwaysCovered, NeverDisturbs, NeverUncovers, PossibleRun;
    NoneTakenInv(base, mutexes);
    var s := NoneTaken(base, mutexes);
    RunSoundIff(s, es);
    if AlwaysSound(s, es) {
      RunCoversIff(s, es);
    }
  }

  // ---- Two runs in which a holder is below a waiter ------------------------------------------

  lemma RunOne(s: State, e: Event, es: seq<Event>)
    requires Core(s) && Possible(s, e) && (StepCore(s, e); PossibleRun(Step(s, e), es))
    ensures PossibleRun(s, [e] + es) && (StepCore(s, e); Run(s, [e] + es) == Run(Step(s, e), es))
  {
    assert ([e] + es)[1..] == es;
  }

  /** A state of a short run: who holds which mutex and who waits for which. */
  ghost predicate Scene(s: State, base: map<Task, nat>, prio: map<Task, nat>, holder: map<Mutex, Task>,
                        wait: map<Mutex, seq<Task>>)
  {
    Core(s) && s.base == base && s.prio == prio && s.wait == wait && s.holder == holder
  }

  lemma SceneTake(s: State, base: map<Task, nat>, prio: map<Task, nat>, holder: map<Mutex, Task>,
                  wait: map<Mutex, seq<Task>>, t: Task, m: Mutex)
    requires Scene(s, base, prio, holder, wait) && t in base && m in wait && m !in holder
    requires forall n :: n in wait ==> t !in wait[n]
    ensures var e := TakeIt(t, m); Possible(s, e) && Scene(Step(s, e), base, prio, holder[m := t], wait)
  {
    hide Core, TaskOk;
    TaskDefined(s, t);
    StepCore(s, TakeIt(t, m));
  }

  lemma SceneBlock(s: State, base: map<Task, nat>, prio: map<Task, nat>, holder: map<Mutex, Task>,
                   wait: map<Mutex, seq<Task>>, t: Task, m: Mutex)
    requires Scene(s, base, prio, holder, wait) && t in base && m in wait && m in holder
    requires t in prio && holder[m] in prio
    requires forall n :: n in wait ==> t !in wait[n]
    requires forall x :: x in wait[m] ==> x in prio && x != holder[m] && prio[t] <= prio[x]
    ensures var e := BlockOn(t, m);
            && Possible(s, e)
            && Scene(Step(s, e), base, prio[holder[m] := Max(prio[holder[m]], prio[t])], holder,
                     wait[m := wait[m] + [t]])
            && m in s.since && m in Step(s, e).since && Step(s, e).since == s.since[m := s.since[m] + {t}]
  {
    hide Core, TaskOk, Queued, Step;
    StepCore(s, BlockOn(t, m));
    BlockStep(s, t, m);
    QueuedLast(wait[m], s.prio[holder[m] := Raised(s, t, m)], t);
  }

  lemma {:induction false} QueuedLast(ts: seq<Task>, prio: map<Task, nat>, t: Task)
    requires t in prio && forall x :: x in ts ==> x in prio && prio[t] <= prio[x]
    ensures Queued(ts, prio, t) == ts + [t]
  {
    if ts != [] {
      QueuedLast(ts[1..], prio, t);
      assert ts == [ts[0]] + ts[1..];
    }
  }

  lemma SceneGive(s: State, base: map<Task, nat>, prio: map<Task, nat>, m: Mutex, waiters: seq<Task>, t: Task)
    requires Scene(s, base, prio, map[m := t], map[m := waiters]) && waiters != [] && t in base && t !in waiters
    requires t in prio
    ensures var e := GiveIt(t, m);
            Possible(s, e) && Scene(Step(s, e), base, prio[t := base[t]], map[], map[m := waiters[1..]])
  {
    hide Core, Step;
    StepCore(s, GiveIt(t, m));
    GiveIsExact(s, t, m);
    assert Holds(s, t) == {m};
    assert map[m := t] - {m} == map[];
    assert map[m := waiters][m := waiters[1..]] == map[m := waiters[1..]];
  }

  /** The low task takes the mutex, two higher tasks block on it, and the low task gives it back and
      takes it again before the task it woke has run. The woken task would run at once, so the low
      task has suspended the scheduler (vTaskSuspendAll) around its give and its take. */
  function OvertakingRun(low: Task, high: Task, mid: Task, m: Mutex): seq<Event> {
    [TakeIt(low, m)] + ([BlockOn(high, m)] + ([BlockOn(mid, m)] + ([GiveIt(low, m)] + ([TakeIt(low, m)] + []))))
  }

  lemma SceneOvertake(s: State, base: map<Task, nat>, prio: map<Task, nat>, low: Task, high: Task, mid: Task, m: Mutex)
    requires low in base && mid in base && low != high && low != mid && base[low] < base[mid]
    requires prio[low := base[low]] == base
    requires Scene(s, base, prio, map[m := low], map[m := [high] + [mid]]) && low in prio
    ensures var es := [GiveIt(low, m)] + ([TakeIt(low, m)] + []);
            && PossibleRun(s, es)
            && var s' := Run(s, es); Scene(s', base, base, map[m := low], map[m := [mid]]) && !AllCovered(s')
  {
    hide Possible, Step, Core;
    SceneGive(s, base, prio, m, [high] + [mid], low);
    assert ([high] + [mid])[1..] == [mid];
    var s1 := Step(s, GiveIt(low, m));
    SceneTake(s1, base, base, map[], map[m := [mid]], low, m);
    var s2 := Step(s1, TakeIt(low, m));
    RunOne(s1, TakeIt(low, m), []);
    RunOne(s, GiveIt(low, m), [TakeIt(low, m)] + []);
    assert mid in s2.wait[m] && !Covered(s2, m);
  }

  /** It then holds the mutex at its base priority, below the task that still waits. */
  lemma LowTakerOvertakes(base: map<Task, nat>, low: Task, high: Task, mid: Task, m: Mutex)
    requires low in base && high in base && mid in base && high != mid && base[low] < base[mid] <= base[high]
    ensures var s0 := (NoneTakenCore(base, {m}); NoneTaken(base, {m})); var es := OvertakingRun(low, high, mid, m);
            && PossibleRun(s0, es)
            && var s := Run(s0, es);
               s.prio == base && s.holder == map[m := low] && s.wait == map[m := [mid]] && !AllCovered(s)
  {
    hide Possible, Step, Run, PossibleRun, AllCovered, Core;
    NoneTakenCore(base, {m});
    var s0 := NoneTaken(base, {m});
    assert s0.wait == map[m := []];
    SceneTake(s0, base, base, map[], map[m := []], low, m);
    var s1 := Step(s0, TakeIt(low, m));
    assert map[][m := low] == map[m := low];
    SceneBlock(s1, base, base, map[m := low], map[m := []], high, m);
    assert [] + [high] == [high] && map[m := []][m := [high]] == map[m := [high]];
    var s2, prio := Step(s1, BlockOn(high, m)), base[low := base[high]];
    SceneBlock(s2, base, prio, map[m := low], map[m := [high]], mid, m);
    assert map[m := [high]][m := [high] + [mid]] == map[m := [high] + [mid]] && prio[low := prio[low]] == prio;
    var s3 := Step(s2, BlockOn(mid, m));
    assert prio[low := base[low]] == base;
    SceneOvertake(s3, base, prio, low, high, mid, m);
    var es := [GiveIt(low, m)] + ([TakeIt(low, m)] + []);
    RunOne(s2, BlockOn(mid, m), es);
    RunOne(s1, BlockOn(high, m), [BlockOn(mid, m)] + es);
    RunOne(s0, TakeIt(low, m), [BlockOn(high, m)] + ([BlockOn(mid, m)] + es));
  }

  /** The middle task holds `n` and blocks on `m`, which the low task holds; then the high task
      blocks on `n`. */
  function NestedRun(low: Task, mid: Task, high: Task, m: Mutex, n: Mutex): seq<Event> {
    [TakeIt(low, m)] + ([TakeIt(mid, n)] + ([BlockOn(mid, m)] + ([BlockOn(high, n)] + [])))
  }

  lemma SceneNested(s: State, base: map<Task, nat>, low: Task, mid: Task, high: Task, m: Mutex, n: Mutex)
    requires low in base && high in base && mid in base && base[low] < base[mid] < base[high] && m != n
    requires Scene(s, base, base, map[m := low, n := mid], map[m := [], n := []])
    ensures var es := [BlockOn(mid, m)] + ([BlockOn(high, n)] + []);
            && PossibleRun(s, es)
            && var s' := Run(s, es);
               && s'.holder == map[m := low, n := mid] && s'.wait == map[m := [mid], n := [high]]
               && s'.prio == base[low := base[mid]][mid := base[high]] && m in s'.since && mid in s'.since[m]
  {
    hide Possible, Step, Core;
    var holder, w0, w1 := map[m := low, n := mid], map[m := [], n := []], map[m := [mid], n := []];
    SceneBlock(s, base, base, holder, w0, mid, m);
    var s1, prio := Step(s, BlockOn(mid, m)), base[low := base[mid]];
    assert w0[m] + [mid] == [mid] && w1[n] + [high] == [high];
    assert w0[m := w0[m] + [mid]] == w1;
    SceneBlock(s1, base, prio, holder, w1, high, n);
    assert w1[n := w1[n] + [high]] == map[m := [mid], n := [high]];
    RunOne(s1, BlockOn(high, n), []);
    RunOne(s, BlockOn(mid, m), [BlockOn(high, n)] + []);
  }

  /** The high task raises the middle one, but the low task, which keeps the middle one waiting, stays
      at the middle priority: inheritance does not pass through a waiting holder. */
  lemma NestedInheritanceStops(base: map<Task, nat>, low: Task, mid: Task, high: Task, m: Mutex, n: Mutex)
    requires low in base && high in base && mid in base && base[low] < base[mid] < base[high] && m != n
    ensures var s0 := (NoneTakenCore(base, {m, n}); NoneTaken(base, {m, n}));
            && PossibleRun(s0, NestedRun(low, mid, high, m, n))
            && var s := Run(s0, NestedRun(low, mid, high, m, n));
               && s.holder == map[m := low, n := mid] && s.wait == map[m := [mid], n := [high]]
               && s.prio == base[low := base[mid]][mid := base[high]] && !Inv(s) && !AllCovered(s)
  {
    hide Possible, Step, Run, PossibleRun, Core;
    NoneTakenCore(base, {m, n});
    var s0 := NoneTaken(base, {m, n});
    var w := map[m := [], n := []];
    assert s0.wait == w;
    SceneTake(s0, base, base, map[], w, low, m);
    var s1 := Step(s0, TakeIt(low, m));
    SceneTake(s1, base, base, map[][m := low], w, mid, n);
    var s2 := Step(s1, TakeIt(mid, n));
    assert map[][m := low][n := mid] == map[m := low, n := mid];
    SceneNested(s2, base, low, mid, high, m, n);
    var es := [BlockOn(mid, m)] + ([BlockOn(high, n)] + []);
    RunOne(s1, TakeIt(mid, n), es);
    RunOne(s0, TakeIt(low, m), [TakeIt(mid, n)] + es);
    var s := Run(s2, es);
    assert mid in s.wait[m] && !MutexOk(s, m) && !Covered(s, m);
  }
}
