/** What priority inheritance does to the ready lists and the ready bitmap. */
module Inheritance {
  import opened Rings
  import opened TaskLists
  import opened Scheduler
  import opened Kernel
  import opened KernelCalls
  import opened KernelRuns

  /** The list moves of xTaskPriorityInherit, when the holder is below the current task. */
  function InheritMove(k: K, h: Task): (k': K)
    requires Inv(k) && h in k.prio
    ensures Inv(k')
  {
    if k.prio[h] < k.prio[k.current] then Reprioritise(k, h, k.prio[k.current]) else k
  }

  /** The list moves of xTaskPriorityDisinherit, made by the running holder. */
  function DisinheritMove(k: K, h: Task, base: nat): (k': K)
    requires Inv(k) && h in k.prio && base < MAX_PRIORITIES
    ensures Inv(k')
  {
    if k.prio[h] != base then Reprioritise(k, h, base) else k
  }

  /** The list moves of vTaskPriorityDisinheritAfterTimeout for a holder that is given
      priority `p`. The priority field is changed first, so the bit that is reset when the
      old ready list is left empty is the one of the new priority. */
  function TimeoutMove(k: K, h: Task, p: nat): K
    requires Inv(k) && h in k.prio && p < MAX_PRIORITIES && p != k.prio[h]
  {
    var k1 := k.(prio := k.prio[h := p], rank := k.rank[h := MAX_PRIORITIES - p]);
    if k.st.where[h] == Ready(k.prio[h]) then
      var st1 := Take(k.st, h);
      var top := if At(st1, Ready(k.prio[h])).items == [] && At(st1, Ready(p)).items == [] then k.top - {p} else k.top;
      k1.(st := PutEnd(st1, Ready(p), h), top := top + {p})
    else k1
  }

  ghost predicate AloneInReadyList(k: K, h: Task)
    requires h in k.prio
  {
    At(k.st, Ready(k.prio[h])).items == [h]
  }

  /** The time-out step keeps the bitmap right exactly when the holder is not the only task
      in its ready list. */
  lemma TimeoutKeepsBitsIff(k: K, h: Task, p: nat)
    requires Inv(k) && h in k.prio && p < MAX_PRIORITIES && p != k.prio[h]
    ensures Bits(TimeoutMove(k, h, p)) <==> !AloneInReadyList(k, h)
  {
    hide Bits, Times, Counts, SortedBy, Homes;
    var k' := TimeoutMove(k, h, p);
    if AloneInReadyList(k, h) {
      assert h in At(k.st, Ready(k.prio[h])).items;
      StaleBit(k, h, p);
    } else {
      GoodBits(k, h, p);
    }
  }

  /** The stale bit: the old priority's list is empty but its bit stays set. */
  lemma StaleBit(k: K, h: Task, p: nat)
    requires Inv(k) && h in k.prio && p < MAX_PRIORITIES && p != k.prio[h] && AloneInReadyList(k, h)
    ensures var k' := TimeoutMove(k, h, p);
            k.prio[h] in k'.top && At(k'.st, Ready(k.prio[h])).items == [] && !Bits(k')
    ensures forall q :: q in TimeoutMove(k, h, p).top ==> q in k.top || q == p
    ensures k.prio[h] < MAX_PRIORITIES
  {
    hide Inv, Ok, Bits, At, Take, PutEnd, BitOk, AloneInReadyList;
    PrioBelow(k, h);
    InvParts(k);
    AloneHome(k, h);
    AloneLeaves(k.st, h, Ready(k.prio[h]), Ready(p));
    StillSet(k, k.prio[h]);
    NotBits(TimeoutMove(k, h, p), k.prio[h]);
  }

  lemma AloneLeaves(st: Store, h: Task, l: ListId, m: ListId)
    requires Ok(st) && h in st.where && st.where[h] == l && |At(st, l).items| == 1 && m != l
    ensures At(Take(st, h), l).items == [] && h !in Take(st, h).where
    ensures At(PutEnd(Take(st, h), m, h), l).items == []
  {
    hide Ok, At, Take, PutEnd;
  }

  lemma AloneHome(k: K, h: Task)
    requires Ok(k.st) && h in k.prio && AloneInReadyList(k, h)
    ensures h in k.st.where && k.st.where[h] == Ready(k.prio[h]) && |At(k.st, Ready(k.prio[h])).items| == 1
  {
    assert h in At(k.st, Ready(k.prio[h])).items;
  }

  lemma StillSet(k: K, q: nat)
    requires Inv(k) && |At(k.st, Ready(q)).items| > 0
    ensures q in k.top
  {
    assert BitOk(k.st, k.top, q);
  }

  lemma NotBits(k: K, q: nat)
    requires q in k.top && At(k.st, Ready(q)).items == []
    ensures !Bits(k)
  {
    assert !BitOk(k.st, k.top, q);
  }

  lemma GoodBits(k: K, h: Task, p: nat)
    requires Inv(k) && h in k.prio && p < MAX_PRIORITIES && p != k.prio[h] && !AloneInReadyList(k, h)
    ensures Bits(TimeoutMove(k, h, p))
  {
    hide Times, Counts, SortedBy;
    var k' := TimeoutMove(k, h, p);
    var home := Ready(k.prio[h]);
    if k.st.where[h] == home {
      assert h in At(k.st, home).items;
      NotAlone(k, h);
      assert At(Take(k.st, h), home).items != [];
    }
    forall q ensures BitOk(k'.st, k'.top, q) {
      assert BitOk(k.st, k.top, q);
    }
  }

  lemma NotAlone(k: K, h: Task)
    requires Inv(k) && h in k.prio && k.st.where[h] == Ready(k.prio[h]) && !AloneInReadyList(k, h)
    ensures |At(k.st, Ready(k.prio[h])).items| > 1
  {
    hide Times, Counts, SortedBy, Bits;
    var items := At(k.st, Ready(k.prio[h])).items;
    assert h in items;
    assert |items| == 1 ==> items == [h];
  }

  lemma {:induction false} TopBitIs(bits: set<nat>, p: nat, q: nat)
    requires q in bits && q <= p && forall r :: r in bits ==> r <= q
    ensures TopBit(bits, p) == q
  {
    if p > q {
      TopBitIs(bits, p - 1, q);
    }
  }

  lemma {:induction false} ScanFindsTask(st: Store, p: nat)
    ensures ScanDown(st, p) == 0 || At(st, Ready(ScanDown(st, p))).items != []
  {
    if p > 0 {
      ScanFindsTask(st, p - 1);
    }
  }

  /** A stale bit misleads: when no higher bit is set, the bitmap selection picks an empty list
      and the downward scan does not. */
  lemma StaleSelection(k: K, q: nat)
    requires 0 < q < MAX_PRIORITIES && q in k.top && At(k.st, Ready(q)).items == [] && forall r :: r in k.top ==> r <= q
    ensures TopBit(k.top, MAX_PRIORITIES - 1) == q && ScanDown(k.st, MAX_PRIORITIES - 1) != q
  {
    TopBitIs(k.top, MAX_PRIORITIES - 1, q);
    ScanFindsTask(k.st, MAX_PRIORITIES - 1);
  }

  /** The task that times out is running, ready and not the holder. */
  ghost predicate TimesOut(k: K, w: Task, h: Task) {
    && w == k.current && w in k.prio && w in k.st.where && k.st.where[w] == Ready(k.prio[w]) && h in k.prio && h != w
  }

  /** If the holder has the priority of the task that timed out, as when it inherited it from that
      task, the time-out step keeps the bitmap right. */
  lemma SamePriorityKeepsBits(k: K, w: Task, h: Task, p: nat)
    requires Inv(k) && TimesOut(k, w, h) && k.prio[h] == k.prio[w] && p < MAX_PRIORITIES && p != k.prio[h]
    ensures Bits(TimeoutMove(k, h, p))
  {
    hide Bits, Times, Counts, SortedBy, TimeoutMove;
    assert w in At(k.st, Ready(k.prio[w])).items;
    TimeoutKeepsBitsIff(k, h, p);
  }

  /** The list move of the running task when it then blocks indefinitely. */
  function BlockMove(k: K, w: Task): K
    requires Ok(k.st) && w in k.st.where && w in k.prio
  {
    k.(st := Relocate(k.st, w, Suspended), top := TopWithout(k, w))
  }

  lemma TimeoutMoveLists(k: K, w: Task, h: Task, p: nat)
    requires Inv(k) && TimesOut(k, w, h) && p < MAX_PRIORITIES && p != k.prio[h] && AloneInReadyList(k, h)
    ensures var k' := TimeoutMove(k, h, p);
            && Ok(k'.st) && w in k'.st.where && k'.st.where[w] == k.st.where[w]
            && w in k'.prio && k'.prio[w] == k.prio[w]
            && (forall l :: l != Ready(k.prio[h]) && l != Ready(p) ==> At(k'.st, l) == At(k.st, l))
  {
    hide Bits, Times, Counts, SortedBy;
    assert h in At(k.st, Ready(k.prio[h])).items;
  }

  lemma BlockMoveLists(k: K, w: Task)
    requires Ok(k.st) && w in k.st.where && w in k.prio && k.st.where[w] == Ready(k.prio[w])
    ensures var k' := BlockMove(k, w);
            && (forall l :: l != k.st.where[w] && l != Suspended ==> At(k'.st, l) == At(k.st, l))
            && |At(k'.st, k.st.where[w]).items| + 1 == |At(k.st, k.st.where[w]).items|
            && k'.top == if |At(k.st, k.st.where[w]).items| == 1 then k.top - {k.prio[w]} else k.top
  {
    hide Ok, At, Take, Relocate;
    assert Moved(k.st, Relocate(k.st, w, Suspended), w, Suspended);
  }

  /** A task above the holder times out while it and the holder are each alone in their ready
      lists and nobody else is ready above the holder. The holder's old bit goes stale, and once
      the task that timed out blocks, the bitmap selection picks the holder's old ready list,
      which is empty, while the downward scan finds a lower one. */
  lemma StaleBitMisleadsSelection(k: K, w: Task, h: Task, p: nat)
    requires Inv(k) && TimesOut(k, w, h) && p < k.prio[h] < k.prio[w]
    requires AloneInReadyList(k, h) && AloneInReadyList(k, w)
    requires forall q :: q in k.top && q > k.prio[h] ==> q == k.prio[w]
    ensures k.prio[h] < MAX_PRIORITIES && Ok(TimeoutMove(k, h, p).st)
    ensures var k1 := TimeoutMove(k, h, p);
            && k.prio[h] in k1.top && At(k1.st, Ready(k.prio[h])).items == [] && w in k1.st.where && w in k1.prio
            && var k2 := BlockMove(k1, w);
               && TopBit(k2.top, MAX_PRIORITIES - 1) == k.prio[h] && At(k2.st, Ready(k.prio[h])).items == []
               && ScanDown(k2.st, MAX_PRIORITIES - 1) < k.prio[h]
  {
    hide Inv, Ok, Bits, TimeoutMove, BlockMove, TopBit, ScanDown, At, AloneInReadyList;
    PrioBelow(k, h);
    StaleBit(k, h, p);
    TimeoutMoveLists(k, w, h, p);
    NothingAbove(k, w, h, p);
    var k2 := BlockMove(TimeoutMove(k, h, p), w);
    StaleSelection(k2, k.prio[h]);
    ScanBelow(k2.st, MAX_PRIORITIES - 1, k.prio[h]);
  }

  lemma NothingAbove(k: K, w: Task, h: Task, p: nat)
    requires Inv(k) && TimesOut(k, w, h) && p < k.prio[h] < k.prio[w] && k.prio[h] < MAX_PRIORITIES
    requires AloneInReadyList(k, h) && AloneInReadyList(k, w)
    requires forall q :: q in k.top && q > k.prio[h] ==> q == k.prio[w]
    requires var k1 := TimeoutMove(k, h, p); Ok(k1.st) && w in k1.st.where && w in k1.prio
    ensures var k2 := BlockMove(TimeoutMove(k, h, p), w);
            && k.prio[h] in k2.top && (forall r :: r in k2.top ==> r <= k.prio[h])
            && (forall q :: q >= k.prio[h] ==> At(k2.st, Ready(q)).items == [])
  {
    hide Inv, Ok, Bits, TimeoutMove, BlockMove, At;
    StaleBit(k, h, p);
    TimeoutMoveLists(k, w, h, p);
    BlockMoveLists(TimeoutMove(k, h, p), w);
    BitsGiveLists(k);
  }

  lemma BitsGiveLists(k: K)
    requires Inv(k)
    ensures forall q :: q in k.top <==> At(k.st, Ready(q)).items != []
  {
    forall q ensures q in k.top <==> At(k.st, Ready(q)).items != [] {
      assert BitOk(k.st, k.top, q);
    }
  }

  lemma {:induction false} ScanBelow(st: Store, p: nat, q: nat)
    requires 0 < q <= p && forall r :: q <= r <= p ==> At(st, Ready(r)).items == []
    ensures ScanDown(st, p) < q
  {
    if p > q {
      ScanBelow(st, p - 1, q);
    } else {
      ScanAtMost(st, p - 1);
    }
  }

  lemma {:induction false} ScanAtMost(st: Store, p: nat)
    ensures ScanDown(st, p) <= p
  {
    if p > 0 {
      ScanAtMost(st, p - 1);
    }
  }

  lemma PrioBelow(k: K, h: Task)
    requires Inv(k) && h in k.prio
    ensures k.prio[h] < MAX_PRIORITIES
  {
  }

  // ---- Giving a mutex --------------------------------------------------------------------------

  /** No switch has been asked for. */
  predicate Calm(k: K) {
    !k.request && !k.yieldPending
  }

  /** What xQueueGenericSend of a mutex does to the scheduler: the running holder goes back to its
      base priority if this is its `last` mutex; then the first task waiting on event list `q` is
      woken; and only if nobody waits does a disinheritance ask for a switch. */
  function GiveMove(k: K, q: nat, base: nat, last: bool): (k': K)
    requires Inv(k) && base < MAX_PRIORITIES
    ensures Inv(k')
  {
    var k1 := if last then DisinheritMove(k, k.current, base) else k;
    if At(k1.ev, Event(q)).items != [] then EventOccurs(k1, q)
    else
      var k2 := k1.(request := k.request || (last && k.prio[k.current] != base));
      InvOfFlags(k1, k2);
      k2
  }

  /** A task above the giver's base priority is ready, and the task that waits for the mutex is not
      above it. */
  ghost predicate Passed(k: K, q: nat, base: nat) {
    && At(k.ev, Event(q)).items != [] && At(k.ev, Event(q)).items[0] in k.prio
    && k.prio[At(k.ev, Event(q)).items[0]] <= base && !OthersAtMost(k, base)
  }

  lemma LoweredReady(k: K, k1: K, base: nat)
    requires Homes(k) && Homes(k1) && k.st.where[k.current] == Ready(k.prio[k.current]) && MaxReady(k)
    requires k1.prio == k.prio[k.current := base] && k1.st.where == k.st.where[k.current := Ready(base)]
    requires k1.current == k.current
    ensures MaxReady(k1) <==> OthersAtMost(k, base)
  {
    hide HomeOk;
    assert forall t :: t in k.st.where && t != k.current ==> k1.st.where[t] == k.st.where[t] && k1.prio[t] == k.prio[t];
  }

  ghost predicate OthersAtMost(k: K, p: nat) {
    forall t :: t in k.prio && t in k.st.where && t != k.current && k.st.where[t].Ready? ==> k.prio[t] <= p
  }

  lemma WokenReady(k: K, t: Task, k': K)
    requires Homes(k) && Homes(k') && t in k.prio && k'.prio == k.prio && k'.current == k.current && t != k.current
    requires k'.st.where == k.st.where[t := Ready(k.prio[t])] || k'.st.where == k.st.where
    requires k.prio[t] <= k.prio[k.current] && k.current in k.prio && !k.st.where[t].Ready?
    ensures MaxReady(k') <==> MaxReady(k)
  {
    hide HomeOk;
    assert forall x :: x in k.st.where && k.st.where[x].Ready? ==> x != t && k'.st.where[x] == k.st.where[x];
  }

  /** If no switch was asked for, giving a mutex keeps the running task the highest ready one, or
      asks for a switch, if and only if it is not the case that the giver drops to its base
      priority, a waiter not above that is woken, and a higher task is ready. */
  lemma GiveKeepsPreemptionIff(k: K, q: nat, base: nat, last: bool)
    requires Good(k) && Running(k) && Calm(k)
    requires base <= k.prio[k.current] && base < MAX_PRIORITIES
    ensures Preempted(GiveMove(k, q, base, last)) <==> !(last && Passed(k, q, base))
  {
    hide Ok, Bits, Counts, Times, SortedBy, Settled, HomeOk, At, Reprioritise, WakeWaiter;
    var k1 := if last then DisinheritMove(k, k.current, base) else k;
    assert k.prio[k.current := k.prio[k.current]] == k.prio;
    assert k.st.where[k.current := k.st.where[k.current]] == k.st.where;
    if last {
      LoweredReady(k, k1, base);
    }
    if At(k.ev, Event(q)).items != [] {
      WaiterIsBlocked(k, q);
      WaiterIsBlocked(k1, q);
      var t := At(k.ev, Event(q)).items[0];
      if k1.prio[t] <= k1.prio[k1.current] {
        WokenReady(k1, t, EventOccurs(k1, q));
      }
    }
  }

  lemma WaiterIsBlocked(k: K, q: nat)
    requires Inv(k) && At(k.ev, Event(q)).items != []
    ensures var t := At(k.ev, Event(q)).items[0];
            t in k.ev.where && t in k.prio && t in k.st.where && !k.st.where[t].Ready?
  {
    hide Bits, Counts, Times, SortedBy;
    EventHead(k.ev, q);
  }
}
