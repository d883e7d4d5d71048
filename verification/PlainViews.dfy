/** What the list operations of `TaskLists` do to the plain lists. */
module PlainViews {
  import opened Rings
  import opened SortedLists
  import opened TaskLists
  import opened PlainLists

  /** Only list `l` may have changed, and it is no ready list. */
  ghost predicate OnlyList(st: Store, st': Store, l: ListId) {
    !l.Ready? && forall m :: m != l ==> At(st', m) == At(st, m)
  }

  lemma SameReady(st: Store, st': Store, l: ListId)
    requires OnlyList(st, st', l)
    ensures ReadyOf(st') == ReadyOf(st)
  {
    hide At, TurnsOf;
  }

  // ---- Leaving a list ----------------------------------------------------------------------

  lemma NotListed(st: Store, t: Task, l: ListId)
    requires Ok(st) && t in st.where && st.where[t] != l
    ensures t !in At(st, l).items
  {
    hide At;
  }

  lemma RemovedItems(r: Ring<Task>, t: Task)
    requires r.Valid() && t in r.items
    ensures RemoveAt(r, IndexOf(r.items, t)).items == Without(r.items, t)
  {
    hide Without, IndexOf, NoDup;
    WithoutAt(r.items, IndexOf(r.items, t));
  }

  lemma TakenItems(st: Store, t: Task, l: ListId)
    requires Ok(st) && t in st.where
    ensures At(Take(st, t), l).items == Without(At(st, l).items, t)
  {
    hide Ok, At, Take, Without, IndexOf, NoDup, RemoveAt;
    if l == st.where[t] {
      AllProper(st, l);
      InOwn(st, t);
      RemovedItems(At(st, l), t);
    } else {
      NotListed(st, t, l);
      WithoutAbsent(At(st, l).items, t);
    }
  }

  lemma RemovedTurns(r: Ring<Task>, j: nat)
    requires r.Valid() && j < |r.items|
    ensures TurnsOf(RemoveAt(r, j)) == TurnsWithout(TurnsOf(r), r.items[j])
  {
    hide NoDup, Without;
    var had, coming, x := r.items[..r.index], r.items[r.index..], r.items[j];
    PartsOfRing(r, j);
    if j < r.index {
      WithoutAt(had, j);
      WithoutAbsent(coming, x);
      RemovedFront(r, j);
    } else {
      WithoutAt(coming, j - r.index);
      WithoutAbsent(had, x);
      RemovedBack(r, j);
    }
  }

  lemma RemovedFront(r: Ring<Task>, j: nat)
    requires j < r.index <= |r.items|
    ensures var had, coming := r.items[..r.index], r.items[r.index..];
            TurnsOf(RemoveAt(r, j)) == Turns(had[..j] + had[j + 1..], coming)
  {
  }

  lemma RemovedBack(r: Ring<Task>, j: nat)
    requires r.index <= j < |r.items|
    ensures var had, coming := r.items[..r.index], r.items[r.index..]; var i := j - r.index;
            TurnsOf(RemoveAt(r, j)) == Turns(had, coming[..i] + coming[i + 1..])
  {
  }

  lemma PartsOfRing(r: Ring<Task>, j: nat)
    requires r.Valid() && j < |r.items|
    ensures var had, coming, x := r.items[..r.index], r.items[r.index..], r.items[j];
            && NoDup(had) && NoDup(coming)
            && if j < r.index then had[j] == x && x !in coming else coming[j - r.index] == x && x !in had
  {
  }

  lemma TakenTurns(st: Store, t: Task, l: ListId)
    requires Ok(st) && t in st.where
    ensures TurnsOf(At(Take(st, t), l)) == TurnsWithout(TurnsOf(At(st, l)), t)
  {
    var r := At(st, l);
    assert Proper(st, l);
    if l == st.where[t] {
      assert t in r.items by { InOwn(st, t); }
      RemovedTurns(r, IndexOf(r.items, t));
    } else {
      assert t !in r.items;
      WithoutAbsent(r.items[..r.index], t);
      WithoutAbsent(r.items[r.index..], t);
    }
  }

  lemma {:induction false} RousedSleepers(items: seq<Task>, wake: map<Task, nat>, epoch: nat, t: Task)
    ensures Roused(Sleepers(items, wake, epoch), t) == Sleepers(Without(items, t), wake, epoch)
  {
    if items != [] {
      RousedSleepers(items[1..], wake, epoch, t);
      var rest := Without(items[1..], t);
      assert ([items[0]] + rest)[1..] == rest;
    }
  }

  lemma {:induction false} RousedBoth(a: seq<Sleeper>, b: seq<Sleeper>, t: Task)
    ensures Roused(a + b, t) == Roused(a, t) + Roused(b, t)
  {
    if a == [] {
      assert a + b == b;
    } else {
      RousedBoth(a[1..], b, t);
      RousedHead(a, b, t);
    }
  }

  lemma RousedHead(a: seq<Sleeper>, b: seq<Sleeper>, t: Task)
    requires a != [] && Roused(a[1..] + b, t) == Roused(a[1..], t) + Roused(b, t)
    ensures Roused(a + b, t) == Roused(a, t) + Roused(b, t)
  {
    assert (a + b)[1..] == a[1..] + b && (a + b)[0] == a[0];
    assert [a[0]] + (Roused(a[1..], t) + Roused(b, t)) == ([a[0]] + Roused(a[1..], t)) + Roused(b, t);
  }

  lemma TakeReady(st: Store, wake: map<Task, nat>, d: ListId, o: ListId, epoch: nat, t: Task)
    requires Ok(st) && t in st.where
    ensures ReadyOf(Take(st, t)) == ReadyWithout(PlacesOf(st, wake, d, o, epoch), t)
  {
    hide Ok, Take, At, TurnsOf, Sleepers, TurnsWithout;
    forall p: nat ensures ReadyOf(Take(st, t))[p] == ReadyWithout(PlacesOf(st, wake, d, o, epoch), t)[p] {
      TakenTurns(st, t, Ready(p));
    }
  }

  lemma TakeSleepers(st: Store, wake: map<Task, nat>, d: ListId, o: ListId, epoch: nat, t: Task)
    requires Ok(st) && t in st.where
    ensures Sleepers(At(Take(st, t), d).items, wake, epoch) + Sleepers(At(Take(st, t), o).items, wake, epoch + 1)
         == Roused(Sleepers(At(st, d).items, wake, epoch) + Sleepers(At(st, o).items, wake, epoch + 1), t)
  {
    hide Ok, Take, At, Sleepers, Without, Roused;
    TakenItems(st, t, d);
    TakenItems(st, t, o);
    RousedSleepers(At(st, d).items, wake, epoch, t);
    RousedSleepers(At(st, o).items, wake, epoch + 1, t);
    RousedBoth(Sleepers(At(st, d).items, wake, epoch), Sleepers(At(st, o).items, wake, epoch + 1), t);
  }

  /** uxListRemove */
  lemma TakePlaces(st: Store, wake: map<Task, nat>, d: ListId, o: ListId, epoch: nat, t: Task)
    requires Ok(st) && t in st.where
    ensures PlacesOf(Take(st, t), wake, d, o, epoch) == Gone(PlacesOf(st, wake, d, o, epoch), t)
  {
    hide Ok, Take, At, ReadyOf, ReadyWithout, Sleepers, Without, Roused;
    TakeReady(st, wake, d, o, epoch, t);
    TakeSleepers(st, wake, d, o, epoch, t);
    TakenItems(st, t, Suspended);
    TakenItems(st, t, Terminating);
  }

  lemma TakeWaits(ev: Store, t: Task)
    requires Ok(ev) && t in ev.where
    ensures WaitsOf(Take(ev, t)) == Quit(WaitsOf(ev), t)
  {
    hide Ok, Take, At, Without;
    TakenItems(ev, t, PendingReady);
    forall q: nat ensures WaitsOf(Take(ev, t)).waiting[q] == Quit(WaitsOf(ev), t).waiting[q] {
      TakenItems(ev, t, Event(q));
    }
  }

  // ---- Joining a list at the end -----------------------------------------------------------

  lemma JoinedTurns(r: Ring<Task>, t: Task)
    requires r.index <= |r.items|
    ensures TurnsOf(InsertEnd(r, t)) == Join(TurnsOf(r), t)
  {
    var r' := InsertEnd(r, t);
    if r.index == 0 {
      assert r'.items == r.items + [t];
    } else {
      assert r'.items[..r'.index] == r.items[..r.index - 1] + [t, r.items[r.index - 1]];
      assert r'.items[r'.index..] == r.items[r.index..];
    }
  }

  lemma EndItems(st: Store, l: ListId, t: Task)
    requires Ok(st) && t !in st.where && !l.Ready?
    ensures At(PutEnd(st, l, t), l).items == At(st, l).items + [t]
  {
    assert Proper(st, l);
    hide Ok, PutEnd;
    var r := At(st, l);
    assert r.items[..|r.items|] + [t] + r.items[|r.items|..] == r.items + [t];
  }

  lemma JoinedReady(st: Store, st': Store, t: Task, p: nat)
    requires forall m :: m != Ready(p) ==> At(st', m) == At(st, m)
    requires TurnsOf(At(st', Ready(p))) == Join(TurnsOf(At(st, Ready(p))), t)
    ensures ReadyOf(st') == ReadyOf(st)[p := Join(ReadyOf(st)[p], t)]
  {
    hide At, TurnsOf, Join;
  }

  /** vListInsertEnd into the ready list of a priority. */
  lemma ReadyPlaces(st: Store, wake: map<Task, nat>, d: ListId, o: ListId, epoch: nat, t: Task, p: nat)
    requires Ok(st) && t !in st.where && !d.Ready? && !o.Ready?
    ensures PlacesOf(PutEnd(st, Ready(p), t), wake, d, o, epoch) == InTurn(PlacesOf(st, wake, d, o, epoch), t, p)
  {
    assert Proper(st, Ready(p));
    hide Ok, PutEnd, At, TurnsOf, Sleepers, Join, InsertEnd;
    JoinedTurns(At(st, Ready(p)), t);
    JoinedReady(st, PutEnd(st, Ready(p), t), t, p);
  }

  lemma ParkPlaces(st: Store, wake: map<Task, nat>, d: ListId, o: ListId, epoch: nat, t: Task)
    requires Ok(st) && t !in st.where && d != Suspended && o != Suspended
    ensures var a := PlacesOf(st, wake, d, o, epoch);
            PlacesOf(PutEnd(st, Suspended, t), wake, d, o, epoch) == a.(parked := a.parked + [t])
  {
    hide Ok, PutEnd, At, ReadyOf, Sleepers, InsertEnd;
    EndItems(st, Suspended, t);
    SameReady(st, PutEnd(st, Suspended, t), Suspended);
  }

  lemma EndPlaces(st: Store, wake: map<Task, nat>, d: ListId, o: ListId, epoch: nat, t: Task)
    requires Ok(st) && t !in st.where && d != Terminating && o != Terminating
    ensures var a := PlacesOf(st, wake, d, o, epoch);
            PlacesOf(PutEnd(st, Terminating, t), wake, d, o, epoch) == a.(ended := a.ended + [t])
  {
    hide Ok, PutEnd, At, ReadyOf, Sleepers, InsertEnd;
    EndItems(st, Terminating, t);
    SameReady(st, PutEnd(st, Terminating, t), Terminating);
  }

  lemma HoldWaits(ev: Store, t: Task)
    requires Ok(ev) && t !in ev.where
    ensures WaitsOf(PutEnd(ev, PendingReady, t)) == WaitsOf(ev).(held := WaitsOf(ev).held + [t])
  {
    hide Ok, PutEnd, At, InsertEnd;
    EndItems(ev, PendingReady, t);
  }

  // ---- Joining a list in order -------------------------------------------------------------

  /** Both ways to say where vListInsert puts an item. */
  lemma InsertedItems(st: Store, l: ListId, t: Task, val: map<Task, nat>)
    requires Ok(st) && t !in st.where && t in val && forall x :: x in At(st, l).items ==> x in val
    ensures At(PutSorted(st, l, t, val), l).items == Inserted(At(st, l).items, val, t)
  {
    var items := At(st, l).items;
    var vals := seq(|items|, k requires 0 <= k < |items| => val[items[k]]);
    assert vals == Values(items, val);
    InsertedIsAtSortedPos(items, val, t);
    hide Ok, At, PutSorted, Inserted, SortedPos;
  }

  lemma {:induction false} SleepersInserted(items: seq<Task>, wake: map<Task, nat>, epoch: nat, t: Task)
    requires t in wake && forall x :: x in items ==> x in wake
    ensures Sleepers(Inserted(items, wake, t), wake, epoch)
            == Bedded(Sleepers(items, wake, epoch), Sleeper(t, Time(epoch, wake[t])))
  {
    var all := Inserted(items, wake, t);
    if items != [] && wake[items[0]] <= wake[t] {
      SleepersInserted(items[1..], wake, epoch, t);
      assert all[1..] == Inserted(items[1..], wake, t);
    } else {
      assert all[1..] == items;
    }
  }

  lemma OtherWake(items: seq<Task>, wake: map<Task, nat>, epoch: nat, t: Task, w: nat)
    requires t !in items
    ensures Sleepers(items, wake[t := w], epoch) == Sleepers(items, wake, epoch)
  {
    var wake' := wake[t := w];
    var s, s' := Sleepers(items, wake, epoch), Sleepers(items, wake', epoch);
    assert forall i :: 0 <= i < |items| ==> items[i] != t && s[i] == s'[i];
  }

  lemma {:induction false} BeddedAfter(a: seq<Sleeper>, b: seq<Sleeper>, x: Sleeper)
    requires forall i :: 0 <= i < |a| ==> a[i].due <= x.due
    ensures Bedded(a + b, x) == a + Bedded(b, x)
  {
    if a == [] {
      assert a + b == b;
    } else {
      BeddedAfter(a[1..], b, x);
      assert (a + b)[1..] == a[1..] + b;
    }
  }

  lemma {:induction false} BeddedBefore(a: seq<Sleeper>, b: seq<Sleeper>, x: Sleeper)
    requires b != [] ==> x.due < b[0].due
    ensures Bedded(a + b, x) == Bedded(a, x) + b
  {
    if a == [] {
      assert a + b == b;
      assert [x] + a == [x];
    } else {
      BeddedBefore(a[1..], b, x);
      assert (a + b)[1..] == a[1..] + b;
    }
  }

  /** What the delayed lists hold is due before the end of the epoch, or in the next one. */
  ghost predicate WakeBounded(st: Store, wake: map<Task, nat>, d: ListId, o: ListId) {
    && (forall x :: x in At(st, d).items ==> x in wake && wake[x] < WRAP)
    && (forall x :: x in At(st, o).items ==> x in wake && wake[x] < WRAP)
  }

  lemma NewSleeper(st: Store, wake: map<Task, nat>, l: ListId, epoch: nat, t: Task, w: nat)
    requires Ok(st) && t !in st.where && forall x :: x in At(st, l).items ==> x in wake
    ensures forall x :: x in At(st, l).items ==> x in wake[t := w]
    ensures var items := At(st, l).items; var wake' := wake[t := w];
            Sleepers(At(PutSorted(st, l, t, wake'), l).items, wake', epoch)
            == Bedded(Sleepers(items, wake, epoch), Sleeper(t, Time(epoch, w)))
  {
    var wake' := wake[t := w];
    var items := At(st, l).items;
    assert t !in items;
    hide Ok, At, PutSorted, Bedded, Inserted;
    InsertedItems(st, l, t, wake');
    OtherWake(items, wake, epoch, t, w);
    SleepersInserted(items, wake', epoch, t);
  }

  lemma SameSleepers(st: Store, wake: map<Task, nat>, l: ListId, epoch: nat, t: Task, w: nat)
    requires Ok(st) && t !in st.where
    ensures Sleepers(At(st, l).items, wake[t := w], epoch) == Sleepers(At(st, l).items, wake, epoch)
  {
    assert t !in At(st, l).items;
    hide Ok, At;
    OtherWake(At(st, l).items, wake, epoch, t, w);
  }

  lemma EarlySleepers(st: Store, wake: map<Task, nat>, l: ListId, epoch: nat)
    requires forall x :: x in At(st, l).items ==> x in wake && wake[x] < WRAP
    ensures var s := Sleepers(At(st, l).items, wake, epoch);
            forall i :: 0 <= i < |s| ==> s[i].due < Time(epoch + 1, 0)
  {
    hide At;
  }

  lemma LateSleepers(st: Store, wake: map<Task, nat>, l: ListId, epoch: nat)
    requires forall x :: x in At(st, l).items ==> x in wake && wake[x] < WRAP
    ensures var s := Sleepers(At(st, l).items, wake, epoch + 1); s != [] ==> Time(epoch + 1, 0) <= s[0].due
  {
    hide At;
  }

  /** vListInsert into the delayed list of the current epoch. */
  lemma SleepPlaces(st: Store, wake: map<Task, nat>, d: ListId, o: ListId, epoch: nat, t: Task, w: nat)
    requires Ok(st) && t !in st.where && WakeBounded(st, wake, d, o) && w < WRAP && d != o
    requires !d.Ready? && d != Suspended && d != Terminating
    ensures forall x :: x in At(st, d).items ==> x in wake[t := w]
    ensures var a := PlacesOf(st, wake, d, o, epoch); var wake' := wake[t := w];
            PlacesOf(PutSorted(st, d, t, wake'), wake', d, o, epoch)
            == a.(sleeping := Bedded(a.sleeping, Sleeper(t, Time(epoch, w))))
  {
    hide Ok, At, PutSorted, ReadyOf, Bedded, Sleepers, SortedPos, Values, Placed, SortedBy;
    var dl, ol := At(st, d).items, At(st, o).items;
    NewSleeper(st, wake, d, epoch, t, w);
    SameSleepers(st, wake, o, epoch + 1, t, w);
    LateSleepers(st, wake, o, epoch);
    SameReady(st, PutSorted(st, d, t, wake[t := w]), d);
    BeddedBefore(Sleepers(dl, wake, epoch), Sleepers(ol, wake, epoch + 1), Sleeper(t, Time(epoch, w)));
  }

  /** vListInsert into the delayed list of the next epoch. */
  lemma OverflowPlaces(st: Store, wake: map<Task, nat>, d: ListId, o: ListId, epoch: nat, t: Task, w: nat)
    requires Ok(st) && t !in st.where && WakeBounded(st, wake, d, o) && w < WRAP && d != o
    requires !o.Ready? && o != Suspended && o != Terminating
    ensures forall x :: x in At(st, o).items ==> x in wake[t := w]
    ensures var a := PlacesOf(st, wake, d, o, epoch); var wake' := wake[t := w];
            PlacesOf(PutSorted(st, o, t, wake'), wake', d, o, epoch)
            == a.(sleeping := Bedded(a.sleeping, Sleeper(t, Time(epoch + 1, w))))
  {
    hide Ok, At, PutSorted, ReadyOf, Bedded, Sleepers, SortedPos, Values, Placed, SortedBy;
    var dl, ol := At(st, d).items, At(st, o).items;
    NewSleeper(st, wake, o, epoch + 1, t, w);
    SameSleepers(st, wake, d, epoch, t, w);
    EarlySleepers(st, wake, d, epoch);
    SameReady(st, PutSorted(st, o, t, wake[t := w]), o);
    BeddedAfter(Sleepers(dl, wake, epoch), Sleepers(ol, wake, epoch + 1), Sleeper(t, Time(epoch + 1, w)));
  }

  lemma {:induction false} InsertedQueued(items: seq<Task>, rank: map<Task, nat>, prio: map<Task, nat>, t: Task,
                                          top: nat)
    requires forall x :: x in items || x == t ==> x in rank && x in prio && rank[x] + prio[x] == top
    ensures Inserted(items, rank, t) == Queued(items, prio, t)
  {
    if items != [] {
      InsertedQueued(items[1..], rank, prio, t, top);
    }
  }

  /** vListInsert into an event list, by the complement of the priority. */
  lemma QueueWaits(ev: Store, rank: map<Task, nat>, prio: map<Task, nat>, q: nat, t: Task, top: nat)
    requires Ok(ev) && t !in ev.where
    requires forall x :: x in ev.where || x == t ==> x in rank && x in prio && rank[x] + prio[x] == top
    ensures forall x :: x in At(ev, Event(q)).items ==> x in ev.where && x in rank
    ensures var w := WaitsOf(ev);
            WaitsOf(PutSorted(ev, Event(q), t, rank))
            == w.(waiting := w.waiting[q := Queued(w.waiting[q], prio, t)])
  {
    Listing(ev, Event(q));
    hide Ok, At, PutSorted, Queued, Inserted, SortedPos, Values, Placed, SortedBy;
    InsertedItems(ev, Event(q), t, rank);
    InsertedQueued(At(ev, Event(q)).items, rank, prio, t, top);
    QueuedInto(ev, PutSorted(ev, Event(q), t, rank), q, Queued(At(ev, Event(q)).items, prio, t));
  }

  lemma QueuedInto(ev: Store, ev': Store, q: nat, items: seq<Task>)
    requires OnlyList(ev, ev', Event(q)) && At(ev', Event(q)).items == items
    ensures WaitsOf(ev') == WaitsOf(ev).(waiting := WaitsOf(ev).waiting[q := items])
  {
    hide At;
  }

  // ---- Walking and the end of an epoch -------------------------------------------------------

  lemma AdvancedTurns(r: Ring<Task>)
    requires r.items != [] && r.index <= |r.items|
    ensures TurnsOf(Rings.Advance(r)) == NextTurn(TurnsOf(r))
    ensures NextTurn(TurnsOf(r)).had != []
    ensures var had := NextTurn(TurnsOf(r)).had; Current(Rings.Advance(r)) == had[|had| - 1]
  {
  }

  /** When the current delayed list is empty, the lists may change places for the next epoch. */
  lemma SwitchedPlaces(st: Store, wake: map<Task, nat>, d: ListId, o: ListId, epoch: nat)
    requires At(st, d).items == []
    ensures PlacesOf(st, wake, o, d, epoch + 1) == PlacesOf(st, wake, d, o, epoch)
  {
  }

  lemma QuitAbsent(ev: Store, t: Task)
    requires Ok(ev) && t !in ev.where
    ensures Quit(WaitsOf(ev), t) == WaitsOf(ev)
  {
    var w := WaitsOf(ev);
    forall q: nat ensures Quit(w, t).waiting[q] == w.waiting[q] {
      assert t !in At(ev, Event(q)).items;
      WithoutAbsent(At(ev, Event(q)).items, t);
    }
    assert t !in At(ev, PendingReady).items;
    WithoutAbsent(At(ev, PendingReady).items, t);
  }

  lemma Listing(st: Store, l: ListId)
    requires Ok(st)
    ensures forall t :: t in At(st, l).items <==> t in st.where && st.where[t] == l
  {
    hide At;
  }

  lemma DueTime(epoch: nat, tick: nat, ticks: nat)
    requires tick < WRAP && 1 <= ticks <= MAX_DELAY
    ensures var w := Plus(tick, ticks); Time(if w < tick then epoch + 1 else epoch, w) == Time(epoch, tick) + ticks
    ensures Plus(tick, ticks) < WRAP
  {
  }

  // ---- Moves between lists -----------------------------------------------------------------

  /** The delayed lists of a scheduler are two lists of their own. */
  predicate DelayLists(d: ListId, o: ListId) {
    (d == DelayedA && o == DelayedB) || (d == DelayedB && o == DelayedA)
  }

  /** From its list to the end of a ready list. */
  lemma ReadyMove(st: Store, wake: map<Task, nat>, d: ListId, o: ListId, epoch: nat, t: Task, p: nat)
    requires Ok(st) && t in st.where && DelayLists(d, o)
    ensures PlacesOf(Relocate(st, t, Ready(p)), wake, d, o, epoch)
         == InTurn(Gone(PlacesOf(st, wake, d, o, epoch), t), t, p)
  {
    hide Ok, At, Take, PutEnd, PlacesOf, Gone, InTurn;
    TakePlaces(st, wake, d, o, epoch, t);
    ReadyPlaces(Take(st, t), wake, d, o, epoch, t, p);
  }

  lemma ParkMove(st: Store, wake: map<Task, nat>, d: ListId, o: ListId, epoch: nat, t: Task)
    requires Ok(st) && t in st.where && DelayLists(d, o)
    ensures var places := Gone(PlacesOf(st, wake, d, o, epoch), t);
            PlacesOf(Relocate(st, t, Suspended), wake, d, o, epoch) == places.(parked := places.parked + [t])
  {
    hide Ok, At, Take, PutEnd, PlacesOf, Gone;
    TakePlaces(st, wake, d, o, epoch, t);
    ParkPlaces(Take(st, t), wake, d, o, epoch, t);
  }

  lemma EndMove(st: Store, wake: map<Task, nat>, d: ListId, o: ListId, epoch: nat, t: Task)
    requires Ok(st) && t in st.where && DelayLists(d, o)
    ensures var places := Gone(PlacesOf(st, wake, d, o, epoch), t);
            PlacesOf(Relocate(st, t, Terminating), wake, d, o, epoch) == places.(ended := places.ended + [t])
  {
    hide Ok, At, Take, PutEnd, PlacesOf, Gone;
    TakePlaces(st, wake, d, o, epoch, t);
    EndPlaces(Take(st, t), wake, d, o, epoch, t);
  }

  lemma TakenBounded(st: Store, wake: map<Task, nat>, d: ListId, o: ListId, t: Task)
    requires Ok(st) && t in st.where && WakeBounded(st, wake, d, o)
    ensures WakeBounded(Take(st, t), wake, d, o)
  {
    TakenItems(st, t, d);
    TakenItems(st, t, o);
    WithoutMembers(At(st, d).items, t) by { AllProper(st, d); }
    WithoutMembers(At(st, o).items, t) by { AllProper(st, o); }
    hide Ok, At, Take, Without;
  }

  /** From its list into a delayed list, at the place of its wake time. */
  lemma SleepMove(st: Store, wake: map<Task, nat>, d: ListId, o: ListId, epoch: nat, t: Task, w: nat, l: ListId)
    requires Ok(st) && t in st.where && WakeBounded(st, wake, d, o) && DelayLists(d, o) && w < WRAP
    requires (l == d || l == o) && l != st.where[t] && SortedBy(At(st, l).items, wake[t := w])
    ensures var wake' := wake[t := w]; var places := Gone(PlacesOf(st, wake, d, o, epoch), t);
            var due := Time(if l == d then epoch else epoch + 1, w);
            PlacesOf(RelocateSorted(st, t, l, wake'), wake', d, o, epoch)
            == places.(sleeping := Bedded(places.sleeping, Sleeper(t, due)))
  {
    hide Ok, At, Take, PutSorted, PlacesOf, WakeBounded, Gone, Bedded, SortedBy, Placed;
    TakePlaces(st, wake, d, o, epoch, t);
    TakenBounded(st, wake, d, o, t);
    if l == d {
      SleepPlaces(Take(st, t), wake, d, o, epoch, t, w);
    } else {
      OverflowPlaces(Take(st, t), wake, d, o, epoch, t, w);
    }
  }

  // ---- The heads of the lists --------------------------------------------------------------

  lemma {:induction false} RousedAbsent(s: seq<Sleeper>, t: Task)
    requires forall i :: 0 <= i < |s| ==> s[i].task != t
    ensures Roused(s, t) == s
  {
    if s != [] {
      RousedAbsent(s[1..], t);
    }
  }

  lemma FirstOfBoth(dl: seq<Task>, ol: seq<Task>, wake: map<Task, nat>, epoch: nat)
    requires NoDup(dl) && dl != [] && dl[0] !in ol
    ensures var s := Sleepers(dl, wake, epoch) + Sleepers(ol, wake, epoch + 1); Roused(s, dl[0]) == s[1..]
  {
    var a, b := Sleepers(dl, wake, epoch), Sleepers(ol, wake, epoch + 1);
    RousedAbsent(a[1..], dl[0]);
    RousedAbsent(b, dl[0]);
    RousedBoth(a, b, dl[0]);
    assert (a + b)[1..] == a[1..] + b;
  }

  /** The head of the current delayed list is the first sleeper, and sleeps only once. */
  lemma FirstSleeper(st: Store, wake: map<Task, nat>, d: ListId, o: ListId, epoch: nat)
    requires Ok(st) && WakeBounded(st, wake, d, o) && d != o && At(st, d).items != []
    ensures var t := At(st, d).items[0]; var s := PlacesOf(st, wake, d, o, epoch).sleeping;
            s != [] && t in wake && s[0] == Sleeper(t, Time(epoch, wake[t])) && Roused(s, t) == s[1..]
  {
    AllProper(st, d);
    assert At(st, d).items[0] in At(st, d).items;
    assert At(st, d).items[0] in st.where && st.where[At(st, d).items[0]] == d;
    assert At(st, d).items[0] !in At(st, o).items;
    hide Ok, At, NoDup;
    FirstOfBoth(At(st, d).items, At(st, o).items, wake, epoch);
  }

  lemma NobodyDue(st: Store, wake: map<Task, nat>, d: ListId, o: ListId, epoch: nat, tick: nat)
    requires tick < WRAP
    requires var dl := At(st, d).items; dl != [] ==> dl[0] in wake && tick < wake[dl[0]]
    ensures DueTasks(PlacesOf(st, wake, d, o, epoch).sleeping, Time(epoch, tick)) == []
  {
  }

  lemma FirstHeld(ev: Store)
    requires Ok(ev) && At(ev, PendingReady).items != []
    ensures Quit(WaitsOf(ev), At(ev, PendingReady).items[0]).held == WaitsOf(ev).held[1..]
  {
    var items := At(ev, PendingReady).items;
    assert Proper(ev, PendingReady);
    WithoutAt(items, 0);
    hide Ok, At, Without;
  }

  lemma TurnsMembers(r: Ring<Task>)
    ensures Everyone(TurnsOf(r)) == r.items
  {
  }

  lemma AllProper(st: Store, l: ListId)
    requires Ok(st)
    ensures Proper(st, l)
  {
  }

  lemma WalkedReady(st: Store, st': Store, p: nat)
    requires forall m :: m != Ready(p) ==> At(st', m) == At(st, m)
    requires TurnsOf(At(st', Ready(p))) == NextTurn(TurnsOf(At(st, Ready(p))))
    ensures ReadyOf(st') == ReadyOf(st)[p := NextTurn(ReadyOf(st)[p])]
  {
    hide At, TurnsOf, NextTurn;
  }

  lemma LooksUp(st: Store, p: nat)
    ensures p in ReadyOf(st) && ReadyOf(st)[p] == TurnsOf(At(st, Ready(p)))
  {
  }

  /** listGET_OWNER_OF_NEXT_ENTRY on the ready list of a priority. */
  lemma WalkedPlaces(st: Store, st': Store, wake: map<Task, nat>, d: ListId, o: ListId, epoch: nat, p: nat)
    requires At(st, Ready(p)).items != [] && At(st, Ready(p)).index <= |At(st, Ready(p)).items| && DelayLists(d, o)
    requires var ring := Rings.Advance(At(st, Ready(p)));
             forall m :: At(st', m) == if m == Ready(p) then ring else At(st, m)
    ensures var places := PlacesOf(st, wake, d, o, epoch); var r := NextTurn(ReadyAt(places, p));
            && PlacesOf(st', wake, d, o, epoch) == places.(ready := places.ready[p := r])
            && r.had != [] && Current(Rings.Advance(At(st, Ready(p)))) == r.had[|r.had| - 1]
  {
    hide Sleepers, TurnsOf, NextTurn, Rings.Advance, Current, ReadyOf, At;
    AdvancedTurns(At(st, Ready(p)));
    LooksUp(st, p);
    WalkedReady(st, st', p);
  }
}
