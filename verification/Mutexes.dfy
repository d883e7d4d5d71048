/** Mutexes of queue.c with the priority inheritance of tasks.c (mutexes on, no calls of
    vTaskPrioritySet). Each step is one critical section, or is made with the scheduler
    suspended; interrupts do not use mutexes. */
module Mutexes {
  import opened Rings
  import opened TaskLists

  type Mutex = nat

  datatype State = State(
    base: map<Task, nat>,            // uxBasePriority; its keys are the tasks
    prio: map<Task, nat>,            // uxPriority
    held: map<Task, nat>,            // uxMutexesHeld
    holder: map<Mutex, Task>,        // pxMutexHolder; absent when the mutex is available
    wait: map<Mutex, seq<Task>>,     // xTasksWaitingToReceive; its keys are the mutexes
    since: map<Mutex, set<Task>>,    // tasks that blocked since the holder took the mutex
    inherited: set<Task>             // tasks whose xInheritanceOccurred is true
  )

  // ---- The operations --------------------------------------------------------------------

  function Max(a: nat, b: nat): nat {
    if a < b then b else a
  }

  /** vTaskPlaceOnEventList: in order of priority, behind waiters of the same priority. */
  function Queued(ts: seq<Task>, prio: map<Task, nat>, t: Task): seq<Task>
    requires t in prio && forall x :: x in ts ==> x in prio
  {
    if ts == [] || prio[ts[0]] < prio[t] then [t] + ts else [ts[0]] + Queued(ts[1..], prio, t)
  }

  /** xQueueSemaphoreTake of an available mutex (pvTaskIncrementMutexHeldCount). */
  function Take(s: State, t: Task, m: Mutex): State
    requires t in s.held
  {
    if m in s.holder then s
    else s.(holder := s.holder[m := t], held := s.held[t := s.held[t] + 1], since := s.since[m := {}])
  }

  /** xTaskPriorityInherit: the priority of the holder, and whether to undo on a time-out. */
  function Inherit(s: State, h: Task, t: Task): (r: (map<Task, nat>, bool))
    requires h in s.prio && t in s.prio && h in s.base
  {
    if s.prio[h] < s.prio[t] then (s.prio[h := s.prio[t]], true) else (s.prio, s.base[h] < s.prio[t])
  }

  /** Blocking on a mutex that is held. */
  function Block(s: State, t: Task, m: Mutex): State
    requires m in s.holder && m in s.wait && m in s.since && t in s.prio
    requires s.holder[m] in s.prio && s.holder[m] in s.base
    requires forall x :: x in s.wait[m] ==> x in s.prio
  {
    var (prio, inherits) := Inherit(s, s.holder[m], t);
    s.(prio := prio, wait := s.wait[m := Queued(s.wait[m], prio, t)], since := s.since[m := s.since[m] + {t}],
       inherited := if inherits then s.inherited + {t} else s.inherited - {t})
  }

  /** xTaskPriorityDisinherit: the base priority comes back with the last mutex. */
  function Disinherit(s: State, t: Task): State
    requires t in s.prio && t in s.base && t in s.held && s.held[t] > 0
  {
    s.(held := s.held[t := s.held[t] - 1],
       prio := if s.prio[t] != s.base[t] && s.held[t] == 1 then s.prio[t := s.base[t]] else s.prio)
  }

  /** Giving a mutex back wakes the first waiter. */
  function Give(s: State, t: Task, m: Mutex): State
    requires t in s.prio && t in s.base && t in s.held && s.held[t] > 0 && m in s.wait
  {
    Disinherit(s, t).(holder := s.holder - {m}, since := s.since[m := {}],
                      wait := if s.wait[m] == [] then s.wait else s.wait[m := s.wait[m][1..]])
  }

  /** prvGetDisinheritPriorityAfterTimeout */
  function HighestWaiting(s: State, m: Mutex): nat
    requires m in s.wait && forall x :: x in s.wait[m] ==> x in s.prio
  {
    if s.wait[m] == [] then 0 else s.prio[s.wait[m][0]]
  }

  /** vTaskPriorityDisinheritAfterTimeout */
  function DisinheritAfterTimeout(s: State, h: Task, highest: nat): State
    requires h in s.prio && h in s.base && h in s.held
  {
    var p := if s.base[h] < highest then highest else s.base[h];
    if s.prio[h] != p && s.held[h] == 1 then s.(prio := s.prio[h := p]) else s
  }

  /** What a task that timed out does when it runs again and the mutex is still held. */
  function Settle(s: State, t: Task, m: Mutex): State
    requires m in s.wait && forall x :: x in s.wait[m] ==> x in s.prio
    requires m in s.holder ==> s.holder[m] in s.prio && s.holder[m] in s.base && s.holder[m] in s.held
  {
    if m in s.holder && t in s.inherited then DisinheritAfterTimeout(s, s.holder[m], HighestWaiting(s, m)) else s
  }

  datatype Event =
    | TakeIt(t: Task, m: Mutex)
    | GiveIt(t: Task, m: Mutex)
    | BlockOn(t: Task, m: Mutex)
    | Expire(t: Task, m: Mutex)       // the tick takes a waiter off the list
    | SettleAfter(t: Task, m: Mutex)  // ... and the waiter then gives up

  // ---- What holds in every run -------------------------------------------------------------

  ghost function Holds(s: State, t: Task): set<Mutex> {
    set m | m in s.holder && s.holder[m] == t
  }

  /** The held count is the number of mutexes that name the task as holder, and a task that
      holds none has its base priority. */
  ghost predicate TaskOk(s: State, t: Task) {
    && t in s.base && t in s.prio && t in s.held
    && s.held[t] == |Holds(s, t)|
    && s.base[t] <= s.prio[t]
    && (s.held[t] == 0 ==> s.prio[t] == s.base[t])
  }

  ghost predicate WaitOk(s: State, m: Mutex) {
    m in s.wait && m in s.since && NoDup(s.wait[m]) && forall t :: t in s.wait[m] ==> t in s.base && t in s.prio
  }

  ghost predicate Core(s: State) {
    && (forall t :: t in s.base ==> TaskOk(s, t))
    && (forall m :: m in s.wait ==> WaitOk(s, m))
    && (forall m :: m in s.holder ==> m in s.wait && s.holder[m] in s.base)
  }

  /** Only running tasks act, and only the holder gives. */
  ghost predicate Possible(s: State, e: Event) {
    match e
    case TakeIt(t, m) => t in s.base && m in s.wait && Running(s, t)
    case GiveIt(t, m) => t in s.base && m in s.wait && m in s.holder && s.holder[m] == t && Running(s, t)
    case BlockOn(t, m) => t in s.base && m in s.holder && Running(s, t)
    case Expire(t, m) => m in s.wait && t in s.wait[m]
    case SettleAfter(t, m) => t in s.base && m in s.wait && Running(s, t)
  }

  ghost predicate Running(s: State, t: Task) {
    forall m :: m in s.wait ==> t !in s.wait[m]
  }

  function Step(s: State, e: Event): State
    requires Core(s) && Possible(s, e)
  {
    match e
    case TakeIt(t, m) => TaskDefined(s, t); Take(s, t, m)
    case GiveIt(t, m) => HolderHolds(s, m); Give(s, t, m)
    case BlockOn(t, m) => BlockDefined(s, t, m); Block(s, t, m)
    case Expire(t, m) => s.(wait := s.wait[m := Without(s.wait[m], t)])
    case SettleAfter(t, m) => MutexDefined(s, m); Settle(s, t, m)
  }

  lemma TaskDefined(s: State, t: Task)
    requires Core(s) && t in s.base
    ensures TaskOk(s, t)
  {
  }

  lemma HolderHolds(s: State, m: Mutex)
    requires Core(s) && m in s.holder
    ensures TaskOk(s, s.holder[m]) && s.held[s.holder[m]] > 0
  {
    assert TaskOk(s, s.holder[m]);
    assert m in Holds(s, s.holder[m]);
  }

  lemma MutexDefined(s: State, m: Mutex)
    requires Core(s) && m in s.wait
    ensures WaitOk(s, m) && (m in s.holder ==> TaskOk(s, s.holder[m]))
  {
  }

  lemma BlockDefined(s: State, t: Task, m: Mutex)
    requires Core(s) && Possible(s, BlockOn(t, m))
    ensures m in s.wait && WaitOk(s, m) && TaskOk(s, t) && TaskOk(s, s.holder[m])
  {
  }

  lemma AddOne(s: State, s': State, m: Mutex, t: Task, x: Task)
    requires m !in s.holder && s'.holder == s.holder[m := t]
    ensures |Holds(s', x)| == |Holds(s, x)| + if x == t then 1 else 0
  {
    assert Holds(s', x) == if x == t then Holds(s, x) + {m} else Holds(s, x);
  }

  lemma TakeCore(s: State, t: Task, m: Mutex)
    requires Core(s) && Possible(s, TakeIt(t, m))
    ensures Core(Step(s, TakeIt(t, m)))
  {
    hide Holds;
    var s' := Step(s, TakeIt(t, m));
    if m !in s.holder {
      forall x | x in s.base ensures TaskOk(s', x) {
        assert TaskOk(s, x);
        AddOne(s, s', m, t, x);
      }
      forall n | n in s.wait ensures WaitOk(s', n) {
        assert WaitOk(s, n);
      }
    }
  }

  lemma DropOne(s: State, s': State, m: Mutex, t: Task)
    requires m in s.holder && s'.holder == s.holder - {m}
    ensures |Holds(s', t)| == |Holds(s, t)| - if s.holder[m] == t then 1 else 0
  {
    assert Holds(s', t) == Holds(s, t) - {m};
    if s.holder[m] == t {
      assert m in Holds(s, t);
    }
  }

  lemma GiveTaskOk(s: State, t: Task, m: Mutex, x: Task)
    requires TaskOk(s, t) && TaskOk(s, x) && s.held[t] > 0 && m in s.wait && m in s.holder && s.holder[m] == t
    ensures TaskOk(Give(s, t, m), x)
  {
    hide Holds;
    DropOne(s, Give(s, t, m), m, x);
  }

  lemma GiveCore(s: State, t: Task, m: Mutex)
    requires Core(s) && Possible(s, GiveIt(t, m))
    ensures Core(Step(s, GiveIt(t, m)))
  {
    hide TaskOk, Running;
    HolderHolds(s, m);
    TaskDefined(s, t);
    var s' := Step(s, GiveIt(t, m));
    forall x | x in s'.base ensures TaskOk(s', x) {
      TaskDefined(s, x);
      GiveTaskOk(s, t, m, x);
    }
    forall n | n in s'.wait ensures WaitOk(s', n) {
      assert WaitOk(s, n);
    }
  }

  /** Only priorities change, and none of a task that holds no mutex. */
  lemma PrioritiesCore(s: State, h: Task, p: nat)
    requires Core(s) && h in s.base && h in s.held && s.held[h] > 0 && s.base[h] <= p
    ensures Core(s.(prio := s.prio[h := p]))
  {
    var s' := s.(prio := s.prio[h := p]);
    forall x | x in s.base ensures TaskOk(s', x) {
      assert TaskOk(s, x);
      assert Holds(s', x) == Holds(s, x);
    }
    forall n | n in s.wait ensures WaitOk(s', n) {
      assert WaitOk(s, n);
    }
  }

  lemma ListsCore(s: State, m: Mutex, ts: seq<Task>, since: set<Task>, inherited: set<Task>)
    requires Core(s) && m in s.wait && NoDup(ts) && forall t :: t in ts ==> t in s.base
    ensures Core(s.(wait := s.wait[m := ts], since := s.since[m := since], inherited := inherited))
  {
    var s' := s.(wait := s.wait[m := ts], since := s.since[m := since], inherited := inherited);
    forall x | x in s.base ensures TaskOk(s', x) {
      assert TaskOk(s, x);
      assert Holds(s', x) == Holds(s, x);
    }
    forall n | n in s.wait ensures WaitOk(s', n) {
      assert WaitOk(s, n);
      assert forall t :: t in ts ==> TaskOk(s, t);
    }
  }

  lemma {:induction false} QueuedMembers(ts: seq<Task>, prio: map<Task, nat>, t: Task)
    requires t in prio && forall x :: x in ts ==> x in prio
    ensures forall x :: x in Queued(ts, prio, t) <==> x in ts || x == t
    ensures NoDup(ts) && t !in ts ==> NoDup(Queued(ts, prio, t))
  {
    if ts == [] || prio[ts[0]] < prio[t] {
      ConsNoDup(t, ts);
    } else {
      assert ts == [ts[0]] + ts[1..];
      QueuedMembers(ts[1..], prio, t);
      ConsNoDup(ts[0], Queued(ts[1..], prio, t));
    }
  }

  lemma StepCore(s: State, e: Event)
    requires Core(s) && Possible(s, e)
    ensures Core(Step(s, e)) && Step(s, e).base == s.base
  {
    hide Core, TaskOk, Running, Holds;
    match e
    case TakeIt(t, m) => TaskDefined(s, t); TakeCore(s, t, m);
    case GiveIt(t, m) => GiveCore(s, t, m); GiveBase(s, t, m);
    case BlockOn(t, m) => BlockCore(s, t, m);
    case Expire(t, m) => ExpireCore(s, t, m);
    case SettleAfter(t, m) => SettleCore(s, t, m);
  }

  lemma GiveBase(s: State, t: Task, m: Mutex)
    requires Core(s) && Possible(s, GiveIt(t, m))
    ensures Step(s, GiveIt(t, m)).base == s.base
  {
    hide Running;
    HolderHolds(s, m);
  }

  // ---- How priorities change -----------------------------------------------------------------

  /** The priority that blocking gives the holder. */
  function Raised(s: State, t: Task, m: Mutex): nat
    requires m in s.holder && s.holder[m] in s.prio && t in s.prio
  {
    Max(s.prio[s.holder[m]], s.prio[t])
  }

  /** The time-out of `t` sets the priority of the holder of `m`. */
  predicate Resets(s: State, t: Task, m: Mutex) {
    m in s.holder && t in s.inherited && s.holder[m] in s.held && s.held[s.holder[m]] == 1
  }

  function Lowered(s: State, m: Mutex): nat
    requires m in s.holder && s.holder[m] in s.base && m in s.wait && forall x :: x in s.wait[m] ==> x in s.prio
  {
    Max(s.base[s.holder[m]], HighestWaiting(s, m))
  }

  lemma BlockStep(s: State, t: Task, m: Mutex)
    requires Core(s) && Possible(s, BlockOn(t, m))
    ensures m in s.wait && m in s.since && t in s.prio && s.holder[m] in s.prio && s.holder[m] in s.base
    ensures s.base[s.holder[m]] <= Raised(s, t, m) && forall x :: x in s.wait[m] ==> x in s.prio
    ensures var h, s' := s.holder[m], Step(s, BlockOn(t, m)); var s1 := s.(prio := s.prio[h := Raised(s, t, m)]);
            && s' == s1.(wait := s1.wait[m := Queued(s1.wait[m], s1.prio, t)],
                         since := s1.since[m := s1.since[m] + {t}], inherited := s'.inherited)
            && (t in s'.inherited <==> s.base[h] < s.prio[t])
  {
    hide Core, Running, Queued, Holds;
    BlockDefined(s, t, m);
    assert s.prio[s.holder[m] := s.prio[s.holder[m]]] == s.prio;
  }

  lemma SettleStep(s: State, t: Task, m: Mutex)
    requires Core(s) && Possible(s, SettleAfter(t, m))
    ensures var s' := Step(s, SettleAfter(t, m));
            if Resets(s, t, m)
            then s.holder[m] in s.base && (forall x :: x in s.wait[m] ==> x in s.prio)
                 && s' == s.(prio := s.prio[s.holder[m] := Lowered(s, m)])
            else s' == s
  {
    hide Core, Running, Holds;
    MutexDefined(s, m);
    if Resets(s, t, m) {
      assert s.prio[s.holder[m] := s.prio[s.holder[m]]] == s.prio;
    }
  }

  lemma BlockCore(s: State, t: Task, m: Mutex)
    requires Core(s) && Possible(s, BlockOn(t, m))
    ensures Core(Step(s, BlockOn(t, m))) && Step(s, BlockOn(t, m)).base == s.base
  {
    hide Core, Queued, Holds, Step, TaskOk;
    BlockStep(s, t, m);
    HolderHolds(s, m);
    HeldBase(s, s.holder[m]);
    BlockDefined(s, t, m);
    var p := Raised(s, t, m);
    PrioritiesCore(s, s.holder[m], p);
    var s1, s' := s.(prio := s.prio[s.holder[m] := p]), Step(s, BlockOn(t, m));
    QueuedMembers(s1.wait[m], s1.prio, t);
    ListsCore(s1, m, Queued(s1.wait[m], s1.prio, t), s1.since[m] + {t}, s'.inherited);
  }

  lemma HeldBase(s: State, h: Task)
    requires TaskOk(s, h)
    ensures h in s.base && h in s.held && h in s.prio && s.base[h] <= s.prio[h]
  {
  }

  lemma SettleCore(s: State, t: Task, m: Mutex)
    requires Core(s) && Possible(s, SettleAfter(t, m))
    ensures Core(Step(s, SettleAfter(t, m))) && Step(s, SettleAfter(t, m)).base == s.base
  {
    hide Core, Holds, Step, TaskOk, Running;
    SettleStep(s, t, m);
    if Resets(s, t, m) {
      HolderHolds(s, m);
      PrioritiesCore(s, s.holder[m], Lowered(s, m));
    }
  }

  lemma ExpireCore(s: State, t: Task, m: Mutex)
    requires Core(s) && Possible(s, Expire(t, m))
    ensures Core(Step(s, Expire(t, m))) && Step(s, Expire(t, m)).base == s.base
  {
    hide Core, Holds, TaskOk, Without;
    MutexDefined(s, m);
    WithoutMembers(s.wait[m], t);
    ListsCore(s, m, Without(s.wait[m], t), s.since[m], s.inherited);
    assert s.since[m := s.since[m]] == s.since;
  }

  // ---- Runs --------------------------------------------------------------------------------

  function NoneTaken(base: map<Task, nat>, mutexes: set<Mutex>): State {
    State(base, base, map t | t in base :: 0, map[], map m | m in mutexes :: [], map m | m in mutexes :: {}, {})
  }

  lemma NoneTakenCore(base: map<Task, nat>, mutexes: set<Mutex>)
    ensures Core(NoneTaken(base, mutexes))
  {
    var s := NoneTaken(base, mutexes);
    forall t | t in s.base ensures TaskOk(s, t) {
      assert Holds(s, t) == {};
    }
  }

  ghost predicate PossibleRun(s: State, es: seq<Event>)
    requires Core(s)
    decreases |es|
  {
    es == [] || (Possible(s, es[0]) && (StepCore(s, es[0]); PossibleRun(Step(s, es[0]), es[1..])))
  }

  ghost function Run(s: State, es: seq<Event>): (s': State)
    requires Core(s) && PossibleRun(s, es)
    ensures Core(s')
    decreases |es|
  {
    if es == [] then s else (StepCore(s, es[0]); Run(Step(s, es[0]), es[1..]))
  }

  /** Over every run from the start, nested blocking included: the held counts are right, a task
      that holds no mutex runs at its base priority, and no task is below its base priority. */
  lemma CountsAreRight(base: map<Task, nat>, mutexes: set<Mutex>, es: seq<Event>)
    requires (NoneTakenCore(base, mutexes); PossibleRun(NoneTaken(base, mutexes), es))
    ensures var s := (NoneTakenCore(base, mutexes); Run(NoneTaken(base, mutexes), es));
            forall t :: t in s.base ==>
              && t in s.held && t in s.prio && s.held[t] == |Holds(s, t)|
              && (Holds(s, t) == {} ==> s.prio[t] == s.base[t]) && s.base[t] <= s.prio[t]
  {
    hide Run, PossibleRun;
    NoneTakenCore(base, mutexes);
    var s := Run(NoneTaken(base, mutexes), es);
    forall t | t in s.base ensures TaskOk(s, t) {}
  }
}
