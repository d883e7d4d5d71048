/** The scheduler state of tasks.c as a value, the list moves its functions are
    made of, and the invariant every move keeps (mutexes off, scheduler started). */
module Scheduler {
  import opened Rings
  import opened TaskLists

  const MAX_PRIORITIES: nat := 5

  datatype K = K(
    st: Store,               // the lists holding every task's xStateListItem
    ev: Store,               // the lists holding the xEventListItem of waiting tasks
    wake: map<Task, nat>,    // item value of xStateListItem: the 32-bit wake time
    rank: map<Task, nat>,    // item value of xEventListItem
    prio: map<Task, nat>,    // uxPriority; its keys are the live tasks
    top: set<nat>,           // the bits set in uxTopReadyPriority
    tick: nat,               // xTickCount
    epoch: nat,              // number of tick wraps so far (xNumOfOverflows, unbounded)
    next: nat,               // xNextTaskUnblockTime
    delayed: ListId,         // what pxDelayedTaskList points to
    overflow: ListId,        // what pxOverflowDelayedTaskList points to
    current: Task,           // pxCurrentTCB
    idle: Task,
    suspended: nat,          // uxSchedulerSuspended
    pended: nat,             // uxPendedTicks
    yieldPending: bool,      // xYieldPending
    request: bool,           // a context switch has been pended or reported to an ISR
    tasks: nat,              // uxCurrentNumberOfTasks
    deleted: nat             // uxDeletedTasksWaitingCleanUp
  )

  // ---- The invariant ---------------------------------------------------------------

  ghost predicate Blocked(l: ListId) {
    l.DelayedA? || l.DelayedB? || l.Suspended?
  }

  /** Every live task's state item is in exactly one list, its own-priority ready
      list, a delayed list, the suspended list or the termination list; only a
      blocked task's event item is in a list. */
  ghost predicate Homes(k: K) {
    && k.st.where.Keys == k.prio.Keys
    && (forall t :: t in k.prio ==> k.prio[t] < MAX_PRIORITIES && t in k.rank)
    && (forall t :: t in k.prio ==> HomeOk(k.st.where[t], k.prio[t]))
    && (forall t :: t in k.ev.where ==> t in k.prio && Blocked(k.st.where[t]) && EventHome(k.ev.where[t]))
    && k.idle in k.prio && k.st.where[k.idle] == Ready(k.prio[k.idle])
    && k.current in k.prio
  }

  ghost predicate HomeOk(l: ListId, p: nat) {
    l == Ready(p) || Blocked(l) || l == Terminating
  }

  ghost predicate EventHome(l: ListId) {
    l.Event? || l == PendingReady
  }

  /** Bit p is set exactly when ready list p is not empty. */
  ghost predicate Bits(k: K) {
    forall p :: BitOk(k.st, k.top, p)
  }

  ghost predicate BitOk(st: Store, top: set<nat>, p: nat) {
    p in top <==> At(st, Ready(p)).items != []
  }

  /** The delayed lists are in wake order; nothing in the current one is overdue. */
  ghost predicate Times(k: K) {
    && k.tick < WRAP
    && ((k.delayed == DelayedA && k.overflow == DelayedB) || (k.delayed == DelayedB && k.overflow == DelayedA))
    && (forall t :: t in k.st.where && k.st.where[t] == k.delayed ==> t in k.wake && k.tick <= k.wake[t] < WRAP)
    && (forall t :: t in k.st.where && k.st.where[t] == k.overflow ==> t in k.wake && k.wake[t] < WRAP)
    && SortedBy(At(k.st, k.delayed).items, k.wake)
    && SortedBy(At(k.st, k.overflow).items, k.wake)
  }

  ghost predicate Counts(k: K) {
    && k.tasks == |k.prio|
    && k.deleted == |At(k.st, Terminating).items|
  }

  ghost predicate Inv(k: K) {
    Ok(k.st) && Ok(k.ev) && Homes(k) && Bits(k) && Times(k) && Counts(k)
  }

  // ---- List moves --------------------------------------------------------------------

  /** Removing the event item if it is in a list. */
  function DropEvent(k: K, t: Task): (k': K)
    requires Ok(k.ev)
    ensures Ok(k'.ev) && k' == k.(ev := k'.ev) && k'.ev.where == k.ev.where - {t}
    ensures Inv(k) ==> Inv(k')
  {
    if t in k.ev.where then k.(ev := Take(k.ev, t)) else k
  }

  /** The bits after `t`'s state item has left its list (taskRESET_READY_PRIORITY). */
  function TopWithout(k: K, t: Task): set<nat>
    requires Ok(k.st) && t in k.st.where && t in k.prio
  {
    var st1 := Take(k.st, t);
    if At(st1, k.st.where[t]).items == [] && At(st1, Ready(k.prio[t])).items == []
    then k.top - {k.prio[t]} else k.top
  }

  lemma TopWithoutBits(k: K, t: Task)
    requires Ok(k.st) && Bits(k) && t in k.st.where && t in k.prio
    requires k.st.where[t].Ready? ==> k.st.where[t] == Ready(k.prio[t])
    ensures forall p :: BitOk(Take(k.st, t), TopWithout(k, t), p)
  {
    forall p ensures BitOk(Take(k.st, t), TopWithout(k, t), p) {
      assert BitOk(k.st, k.top, p);
    }
  }

  lemma MovedHomes(k: K, k': K, t: Task, l: ListId)
    requires Homes(k) && t in k.prio && t != k.idle && t !in k.ev.where && HomeOk(l, k.prio[t])
    requires k'.st.where == k.st.where[t := l] && k'.prio == k.prio && k'.rank == k.rank
    requires k'.ev == k.ev && k'.idle == k.idle && k'.current == k.current
    ensures Homes(k')
  {
  }

  lemma MovedBits(k: K, k': K, t: Task, l: ListId)
    requires Ok(k.st) && Bits(k) && t in k.st.where && Moved(k.st, k'.st, t, l)
    requires l == k.st.where[t] ==> !l.Ready?
    requires t in k.prio && HomeOk(k.st.where[t], k.prio[t])
    requires k'.top == (if l.Ready? then {l.p} else {}) + TopWithout(k, t)
    ensures Bits(k')
  {
    TopWithoutBits(k, t);
    forall p ensures BitOk(k'.st, k'.top, p) {
      assert BitOk(k.st, k.top, p) && BitOk(Take(k.st, t), TopWithout(k, t), p);
      if l == Ready(p) {
      } else if k.st.where[t] == Ready(p) {
      } else {
        assert At(k'.st, Ready(p)) == At(k.st, Ready(p));
      }
    }
  }

  lemma MovedTimes(k: K, k': K, t: Task, l: ListId)
    requires Ok(k.st) && Times(k) && t in k.st.where && Moved(k.st, k'.st, t, l)
    requires l != k.delayed && l != k.overflow
    requires k'.tick == k.tick && k'.delayed == k.delayed && k'.overflow == k.overflow && k'.wake == k.wake
    ensures Times(k')
  {
    TakeKeepsSorted(k.st, t, k.wake, k.st.where[t]);
  }

  /** Any move of a task's state item to a list that is not a delayed list keeps the
      invariant, if the bits follow the source's rule. */
  lemma MovedInv(k: K, k': K, t: Task, l: ListId)
    requires Inv(k) && t in k.prio && t != k.idle && t !in k.ev.where && k.st.where[t] != Terminating
    requires l == Ready(k.prio[t]) || l == Suspended || l == Terminating
    requires l == k.st.where[t] ==> !l.Ready?
    requires Moved(k.st, k'.st, t, l)
    requires k'.top == (if l.Ready? then {l.p} else {}) + TopWithout(k, t)
    requires k'.deleted == if l == Terminating then k.deleted + 1 else k.deleted
    requires k' == k.(st := k'.st, top := k'.top, deleted := k'.deleted)
    ensures Inv(k')
  {
    hide Ok, Bits, Times, SortedBy, TopWithout, HomeOk, Take, At;
    OutHome(k, t, l);
    MovedHomes(k, k', t, l);
    MovedBits(k, k', t, l);
    MovedTimes(k, k', t, l);
  }

  lemma OutHome(k: K, t: Task, l: ListId)
    requires Homes(k) && Times(k) && t in k.prio && (l == Ready(k.prio[t]) || l == Suspended || l == Terminating)
    ensures HomeOk(l, k.prio[t]) && HomeOk(k.st.where[t], k.prio[t]) && l != k.delayed && l != k.overflow
    ensures k.st.where[t].Ready? ==> k.st.where[t] == Ready(k.prio[t])
  {
    hide SortedBy, At;
  }

  lemma UnblockTop(k: K, t: Task)
    requires Ok(k.st) && t in k.st.where && t in k.prio
    ensures k.top + {k.prio[t]} == {k.prio[t]} + TopWithout(k, t)
  {
  }

  /** uxListRemove of the state item, then prvAddTaskToReadyList. */
  function Unblock(k: K, t: Task): (k': K)
    requires Inv(k) && t in k.prio && Blocked(k.st.where[t]) && t !in k.ev.where
    ensures Inv(k') && k' == k.(st := k'.st, top := k'.top)
    ensures k'.st.where == k.st.where[t := Ready(k.prio[t])]
    ensures |At(k'.st, k.st.where[t]).items| < |At(k.st, k.st.where[t]).items|
  {
    var k' := k.(st := Relocate(k.st, t, Ready(k.prio[t])), top := k.top + {k.prio[t]});
    UnblockTop(k, t);
    MovedInv(k, k', t, Ready(k.prio[t]));
    k'
  }

  /** uxListRemove of the state item, then vListInsertEnd into the suspended or the
      termination list. */
  function MoveOut(k: K, t: Task, l: ListId): (k': K)
    requires Inv(k) && t in k.prio && t != k.idle && t !in k.ev.where
    requires k.st.where[t] != Terminating && (l == Suspended || l == Terminating)
    ensures Inv(k') && k' == k.(st := k'.st, top := k'.top, deleted := k'.deleted)
    ensures k'.st.where == k.st.where[t := l]
  {
    MovedOutInv(k, t, l);
    MovedOut(k, t, l)
  }

  function MovedOut(k: K, t: Task, l: ListId): K
    requires Ok(k.st) && t in k.st.where && t in k.prio
  {
    k.(st := Relocate(k.st, t, l), top := TopWithout(k, t),
       deleted := if l == Terminating then k.deleted + 1 else k.deleted)
  }

  lemma MovedOutInv(k: K, t: Task, l: ListId)
    requires Inv(k) && t in k.prio && t != k.idle && t !in k.ev.where
    requires k.st.where[t] != Terminating && (l == Suspended || l == Terminating)
    ensures Inv(MovedOut(k, t, l)) && MovedOut(k, t, l).st.where == k.st.where[t := l]
  {
    hide Ok, Bits, Times, Counts, HomeOk, TopWithout, Relocate, Take, At;
    assert Moved(k.st, Relocate(k.st, t, l), t, l);
    MovedInv(k, MovedOut(k, t, l), t, l);
  }

  lemma DelaySorted(k: K, t: Task, w: nat)
    requires Ok(k.st) && Times(k) && t in k.st.where && k.st.where[t].Ready?
    ensures SortedBy(At(k.st, k.delayed).items, k.wake[t := w])
    ensures SortedBy(At(k.st, k.overflow).items, k.wake[t := w])
  {
    assert t !in At(k.st, k.delayed).items && t !in At(k.st, k.overflow).items;
  }

  lemma DelayTimes(k: K, k': K, t: Task, w: nat, l: ListId)
    requires Ok(k.st) && Times(k) && t in k.st.where && k.st.where[t].Ready? && Moved(k.st, k'.st, t, l)
    requires w < WRAP && (l == k.overflow || (l == k.delayed && k.tick <= w))
    requires k'.wake == k.wake[t := w] && SortedBy(At(k'.st, l).items, k'.wake)
    requires k'.tick == k.tick && k'.delayed == k.delayed && k'.overflow == k.overflow
    ensures Times(k')
  {
    DelaySorted(k, t, w);
  }

  lemma DelayInv(k: K, k': K, t: Task, w: nat, l: ListId)
    requires Inv(k) && t in k.prio && t != k.idle && t !in k.ev.where && k.st.where[t] == Ready(k.prio[t])
    requires w < WRAP && (l == k.overflow || (l == k.delayed && k.tick <= w))
    requires Moved(k.st, k'.st, t, l) && SortedBy(At(k'.st, l).items, k'.wake)
    requires k' == k.(st := k'.st, top := TopWithout(k, t), wake := k.wake[t := w])
    ensures Inv(k')
  {
    hide Ok, Bits, Times, SortedBy, TopWithout, HomeOk, Take, At;
    DelayHome(k, t, l);
    MovedHomes(k, k', t, l);
    MovedBits(k, k', t, l);
    DelayTimes(k, k', t, w, l);
  }

  lemma DelayHome(k: K, t: Task, l: ListId)
    requires Times(k) && (l == k.overflow || l == k.delayed) && t in k.prio && t in k.st.where
    ensures HomeOk(l, k.prio[t]) && (k.st.where[t] == Ready(k.prio[t]) ==> HomeOk(k.st.where[t], k.prio[t]))
    ensures l != Terminating && !l.Ready?
  {
  }

  /** The state item leaves its ready list for delayed list `l`, with wake time `w`. */
  function Delay(k: K, t: Task, w: nat, l: ListId): (k': K)
    requires Inv(k) && t in k.prio && t != k.idle && t !in k.ev.where && k.st.where[t] == Ready(k.prio[t])
    requires w < WRAP && (l == k.overflow || (l == k.delayed && k.tick <= w))
    ensures Inv(k') && k' == k.(st := k'.st, top := k'.top, wake := k.wake[t := w])
    ensures k'.st.where == k.st.where[t := l]
  {
    DelaySorted(k, t, w);
    var wake' := k.wake[t := w];
    var k' := k.(st := RelocateSorted(k.st, t, l, wake'), top := TopWithout(k, t), wake := wake');
    DelayInv(k, k', t, w, l);
    k'
  }

  lemma ReprioritiseHomes(k: K, k': K, t: Task, p: nat)
    requires Homes(k) && t in k.prio && p < MAX_PRIORITIES
    requires k'.prio == k.prio[t := p] && k'.rank == k.rank[t := MAX_PRIORITIES - p] && k'.ev == k.ev
    requires k'.idle == k.idle && k'.current == k.current
    requires k'.st.where == if k.st.where[t].Ready? then k.st.where[t := Ready(p)] else k.st.where
    ensures Homes(k') && |k'.prio| == |k.prio|
  {
    hide EventHome;
    SameKeys(k, k', t, p);
  }

  lemma SameKeys(k: K, k': K, t: Task, p: nat)
    requires t in k.prio && k'.prio == k.prio[t := p]
    ensures |k'.prio| == |k.prio| && k'.prio.Keys == k.prio.Keys
  {
    assert k'.prio.Keys == k.prio.Keys;
  }

  lemma ReprioritiseInv(k: K, k': K, t: Task, p: nat)
    requires Inv(k) && t in k.prio && p < MAX_PRIORITIES && p != k.prio[t]
    requires k' == k.(st := k'.st, top := k'.top, prio := k.prio[t := p], rank := k.rank[t := MAX_PRIORITIES - p])
    requires if k.st.where[t].Ready?
             then Moved(k.st, k'.st, t, Ready(p)) && k'.top == {p} + TopWithout(k, t)
             else k'.st == k.st && k'.top == k.top
    ensures Inv(k')
  {
    hide Ok, Bits, Times, SortedBy, TopWithout, HomeOk, Take, At;
    ReprioritiseHomes(k, k', t, p);
    if k.st.where[t].Ready? {
      OutHome(k, t, Suspended);
      NotDelayed(k, p);
      MovedBits(k, k', t, Ready(p));
      MovedTimes(k, k', t, Ready(p));
    } else {
      SameLists(k, k');
    }
  }

  lemma NotDelayed(k: K, p: nat)
    requires Times(k)
    ensures Ready(p) != k.delayed && Ready(p) != k.overflow
  {
    hide SortedBy, At;
  }

  lemma SameLists(k: K, k': K)
    requires Bits(k) && Times(k) && k'.st == k.st && k'.top == k.top
    requires k'.tick == k.tick && k'.delayed == k.delayed && k'.overflow == k.overflow && k'.wake == k.wake
    ensures Bits(k') && Times(k')
  {
  }

  /** A ready task moves to the ready list of its new priority; any other task only
      changes its priority field (vTaskPrioritySet). */
  function Reprioritise(k: K, t: Task, p: nat): (k': K)
    requires Inv(k) && t in k.prio && p < MAX_PRIORITIES && p != k.prio[t]
    ensures Inv(k')
    ensures k' == k.(st := k'.st, top := k'.top, prio := k.prio[t := p], rank := k.rank[t := MAX_PRIORITIES - p])
    ensures k'.st.where == if k.st.where[t].Ready? then k.st.where[t := Ready(p)] else k.st.where
  {
    var k1 := k.(prio := k.prio[t := p], rank := k.rank[t := MAX_PRIORITIES - p]);
    var k' := if k.st.where[t].Ready?
              then k1.(st := Relocate(k.st, t, Ready(p)), top := {p} + TopWithout(k, t))
              else k1;
    ReprioritiseInv(k, k', t, p);
    k'
  }

  lemma AddNewHomes(k: K, k': K, t: Task, p: nat)
    requires Homes(k) && t !in k.prio && p < MAX_PRIORITIES
    requires k'.st.where == k.st.where[t := Ready(p)] && k'.prio == k.prio[t := p]
    requires k'.rank == k.rank[t := MAX_PRIORITIES - p] && k'.ev == k.ev
    requires k'.idle == k.idle && k'.current == k.current
    ensures Homes(k') && |k'.prio| == |k.prio| + 1
  {
    hide EventHome, Blocked, HomeOk;
    ReadyHome(p);
    OneMore(k.prio, t, p);
  }

  lemma ReadyHome(p: nat)
    ensures HomeOk(Ready(p), p)
  {
  }

  lemma OneMore(m: map<Task, nat>, t: Task, p: nat)
    requires t !in m
    ensures |m[t := p]| == |m| + 1 && m[t := p].Keys == m.Keys + {t}
  {
    assert m[t := p].Keys == m.Keys + {t};
  }

  lemma AddNewTimes(k: K, k': K, p: nat)
    requires Ok(k.st) && Ok(k'.st) && Times(k)
    requires forall l :: l != Ready(p) ==> At(k'.st, l) == At(k.st, l)
    requires k'.tick == k.tick && k'.delayed == k.delayed && k'.overflow == k.overflow && k'.wake == k.wake
    ensures Times(k')
  {
    forall x | x in k'.st.where && !k'.st.where[x].Ready?
      ensures x in k.st.where && k.st.where[x] == k'.st.where[x]
    {
      assert x in At(k'.st, k'.st.where[x]).items;
    }
  }

  lemma AddNewInv(k: K, k': K, t: Task, p: nat)
    requires Inv(k) && t !in k.prio && p < MAX_PRIORITIES
    requires Ok(k'.st) && k'.st.where == k.st.where[t := Ready(p)]
    requires forall l :: l != Ready(p) ==> At(k'.st, l) == At(k.st, l)
    requires k' == k.(st := k'.st, top := k.top + {p}, prio := k.prio[t := p],
                      rank := k.rank[t := MAX_PRIORITIES - p], tasks := k.tasks + 1)
    ensures Inv(k')
  {
    hide Ok, Bits, Times, SortedBy, HomeOk, At;
    IsThere(k'.st, t);
    AddNewHomes(k, k', t, p);
    AddNewTimes(k, k', p);
    AddNewBits(k, k', t, p);
  }

  lemma IsThere(st: Store, t: Task)
    requires Ok(st) && t in st.where
    ensures t in At(st, st.where[t]).items
  {
  }

  lemma AddNewBits(k: K, k': K, t: Task, p: nat)
    requires Bits(k) && k'.top == k.top + {p} && t in At(k'.st, Ready(p)).items
    requires forall l :: l != Ready(p) ==> At(k'.st, l) == At(k.st, l)
    ensures Bits(k')
  {
    forall q ensures BitOk(k'.st, k'.top, q) {
      assert BitOk(k.st, k.top, q);
    }
  }

  /** A new task is added to its ready list (prvAddNewTaskToReadyList). */
  function AddNew(k: K, t: Task, p: nat): (k': K)
    requires Inv(k) && t !in k.prio && p < MAX_PRIORITIES
    ensures Inv(k')
    ensures k' == k.(st := k'.st, top := k'.top, prio := k.prio[t := p],
                     rank := k.rank[t := MAX_PRIORITIES - p], tasks := k.tasks + 1)
    ensures k'.st.where == k.st.where[t := Ready(p)]
  {
    var k' := k.(st := PutEnd(k.st, Ready(p), t), top := k.top + {p}, prio := k.prio[t := p],
                 rank := k.rank[t := MAX_PRIORITIES - p], tasks := k.tasks + 1);
    AddNewInv(k, k', t, p);
    k'
  }

  lemma ForgetHomes(k: K, k': K, t: Task)
    requires Homes(k) && t in k.prio && t != k.idle && t != k.current && t !in k.ev.where
    requires k'.st.where == k.st.where - {t} && k'.prio == k.prio - {t} && k'.rank == k.rank && k'.ev == k.ev
    requires k'.idle == k.idle && k'.current == k.current
    ensures Homes(k') && |k'.prio| == |k.prio| - 1
  {
    hide Blocked, EventHome, HomeOk;
    OneLess(k.prio, t);
  }

  lemma OneLess(m: map<Task, nat>, t: Task)
    requires t in m
    ensures |m - {t}| == |m| - 1
  {
    assert (m - {t}).Keys == m.Keys - {t};
  }

  lemma ForgetInv(k: K, k': K, t: Task)
    requires Inv(k) && t in k.prio && t != k.idle && t != k.current && t !in k.ev.where
    requires k'.st == Take(k.st, t) && k'.top == TopWithout(k, t)
    requires k'.deleted == if k.st.where[t] == Terminating then k.deleted - 1 else k.deleted
    requires k' == k.(st := k'.st, top := k'.top, prio := k.prio - {t}, tasks := k.tasks - 1, deleted := k'.deleted)
    ensures Inv(k')
  {
    hide Ok, Times, SortedBy, TopWithout, Take, At, HomeOk, BitOk;
    ForgetHomes(k, k', t);
    OutHome(k, t, Suspended);
    TopWithoutBits(k, t);
    ForgetTimes(k, k', t);
    ForgetCounts(k, t);
  }

  lemma ForgetCounts(k: K, t: Task)
    requires Ok(k.st) && t in k.st.where
    ensures var n := |At(k.st, Terminating).items|;
            |At(Take(k.st, t), Terminating).items| == if k.st.where[t] == Terminating then n - 1 else n
  {
    hide Ok, At, Take;
  }

  lemma ForgetTimes(k: K, k': K, t: Task)
    requires Ok(k.st) && Times(k) && t in k.st.where && k'.st == Take(k.st, t)
    requires k'.tick == k.tick && k'.delayed == k.delayed && k'.overflow == k.overflow && k'.wake == k.wake
    ensures Times(k')
  {
    TakeKeepsSorted(k.st, t, k.wake, k.delayed);
    TakeKeepsSorted(k.st, t, k.wake, k.overflow);
  }

  /** The task's state item leaves its list and its control block is freed. */
  function Forget(k: K, t: Task): (k': K)
    requires Inv(k) && t in k.prio && t != k.idle && t != k.current && t !in k.ev.where
    ensures Inv(k')
    ensures k' == k.(st := k'.st, top := k'.top, prio := k.prio - {t}, tasks := k.tasks - 1, deleted := k'.deleted)
    ensures k'.st.where == k.st.where - {t}
  {
    var k' := k.(st := Take(k.st, t), top := TopWithout(k, t), prio := k.prio - {t}, tasks := k.tasks - 1,
                 deleted := if k.st.where[t] == Terminating then k.deleted - 1 else k.deleted);
    ForgetInv(k, k', t);
    k'
  }
}
