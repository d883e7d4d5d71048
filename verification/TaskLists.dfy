/** The lists that hold one kind of list item of every task: the item's container
    (pvContainer) and the list contents, kept consistent by insertion and removal. */
module TaskLists {
  import opened Rings

  type Task = nat

  datatype ListId = Ready(p: nat) | DelayedA | DelayedB | Suspended | Terminating | PendingReady | Event(q: nat)

  /** `where` gives the list each item is in; an absent task's item is in no list. */
  datatype Store = Store(lists: map<ListId, Ring<Task>>, where: map<Task, ListId>)

  function At(st: Store, l: ListId): Ring<Task> {
    if l in st.lists then st.lists[l] else Ring([], 0)
  }

  /** Only ready lists are walked; the index of any other list stays on its end marker. */
  ghost predicate Proper(st: Store, l: ListId) {
    At(st, l).Valid() && (l.Ready? || At(st, l).index == 0)
  }

  /** Each list holds exactly the items that name it as their container, once each. */
  ghost predicate Ok(st: Store) {
    && (forall l :: Proper(st, l))
    && (forall t, l :: t in At(st, l).items <==> t in st.where && st.where[t] == l)
  }

  /** uxListRemove of an item that is in a list. */
  function Take(st: Store, t: Task): (st': Store)
    requires Ok(st) && t in st.where
    ensures Ok(st') && st'.where == st.where - {t}
    ensures forall l :: l != st.where[t] ==> At(st', l) == At(st, l)
    ensures var r := At(st, st.where[t]);
            r.index <= |r.items| && At(st', st.where[t]) == RemoveAt(r, IndexOf(r.items, t))
    ensures |At(st', st.where[t]).items| + 1 == |At(st, st.where[t]).items|
  {
    var l := st.where[t];
    assert Proper(st, l);
    var r := At(st, l);
    var j := IndexOf(r.items, t);
    RemovalMembers(r, j);
    var st' := Store(st.lists[l := RemoveAt(r, j)], st.where - {t});
    assert forall m :: At(st', m) == if m == l then RemoveAt(r, j) else At(st, m);
    assert forall m :: Proper(st', m) by {
      forall m ensures Proper(st', m) { assert Proper(st, m); }
    }
    st'
  }

  /** Inserting an item that is in no list at place `i` of list `l`. */
  function PutAt(st: Store, l: ListId, i: nat, t: Task): (st': Store)
    requires Ok(st) && t !in st.where && i <= |At(st, l).items|
    ensures Ok(st') && st'.where == st.where[t := l]
    ensures forall m :: m != l ==> At(st', m) == At(st, m)
    ensures At(st, l).index <= |At(st, l).items| && At(st', l) == InsertAt(At(st, l), i, t)
  {
    assert Proper(st, l);
    var r := At(st, l);
    InsertionMembers(r, i, t);
    var st' := Store(st.lists[l := InsertAt(r, i, t)], st.where[t := l]);
    assert forall m :: At(st', m) == if m == l then InsertAt(r, i, t) else At(st, m);
    assert forall m :: Proper(st', m) by {
      forall m ensures Proper(st', m) { assert Proper(st, m); }
    }
    st'
  }

  /** vListInsertEnd */
  function PutEnd(st: Store, l: ListId, t: Task): (st': Store)
    requires Ok(st) && t !in st.where
    ensures Ok(st') && st'.where == st.where[t := l]
    ensures forall m :: m != l ==> At(st', m) == At(st, m)
    ensures At(st, l).index <= |At(st, l).items| && At(st', l) == InsertEnd(At(st, l), t)
    ensures |At(st', l).items| == |At(st, l).items| + 1
  {
    assert Proper(st, l);
    PutAt(st, l, EndPos(At(st, l)), t)
  }

  function Values(items: seq<Task>, val: map<Task, nat>): (vs: seq<nat>)
    requires forall t :: t in items ==> t in val
    ensures |vs| == |items| && forall i :: 0 <= i < |items| ==> vs[i] == val[items[i]]
  {
    if items == [] then [] else [val[items[0]]] + Values(items[1..], val)
  }

  ghost predicate SortedBy(items: seq<Task>, val: map<Task, nat>) {
    && (forall t :: t in items ==> t in val)
    && (forall i, j :: 0 <= i < j < |items| ==> val[items[i]] <= val[items[j]])
  }

  /** `t` stands behind every item of at most its value and in front of every item of a larger one;
      nobody else changes places. */
  ghost predicate Placed(items: seq<Task>, items': seq<Task>, val: map<Task, nat>, t: Task) {
    exists i: nat :: i <= |items| && items' == items[..i] + [t] + items[i..] && Parts(items, val, i, t)
  }

  ghost predicate Parts(items: seq<Task>, val: map<Task, nat>, i: nat, t: Task) {
    t in val && forall j :: 0 <= j < |items| && items[j] in val ==> (j < i <==> val[items[j]] <= val[t])
  }

  /** vListInsert: at the place that keeps the list in item-value order, behind items of the same value. */
  function PutSorted(st: Store, l: ListId, t: Task, val: map<Task, nat>): (st': Store)
    requires Ok(st) && t !in st.where && t in val
    requires forall x :: x in At(st, l).items ==> x in val
    ensures Ok(st') && st'.where == st.where[t := l]
    ensures forall m :: m != l ==> At(st', m) == At(st, m)
    ensures var r := At(st, l);
            r.index <= |r.items| && At(st', l) == InsertAt(r, SortedPos(Values(r.items, val), val[t]), t)
    ensures SortedBy(At(st, l).items, val) ==>
              SortedBy(At(st', l).items, val) && Placed(At(st, l).items, At(st', l).items, val, t)
    ensures |At(st', l).items| == |At(st, l).items| + 1
  {
    var items := At(st, l).items;
    var i := SortedPos(Values(items, val), val[t]);
    assert SortedBy(items, val) ==> SortedBy(items[..i] + [t] + items[i..], val)
                                    && Placed(items, items[..i] + [t] + items[i..], val, t) by {
      if SortedBy(items, val) {
        SortedPlace(items, val, i, t);
      }
    }
    PutAt(st, l, i, t)
  }

  lemma SortedPlace(items: seq<Task>, val: map<Task, nat>, i: nat, t: Task)
    requires SortedBy(items, val) && t in val && i == SortedPos(Values(items, val), val[t])
    ensures i <= |items| && SortedBy(items[..i] + [t] + items[i..], val)
    ensures Placed(items, items[..i] + [t] + items[i..], val, t)
  {
    assert Sorted(Values(items, val));
    SortedInsertIsStable(Values(items, val), val[t]);
    assert Parts(items, val, i, t) by {
      forall j | 0 <= j < |items| ensures j < i <==> val[items[j]] <= val[t] {
        assert Values(items, val)[j] == val[items[j]];
      }
    }
    InsertKeepsSorted(items, val, i, t);
  }

  /** What stays true when the item of `t` goes from its list to list `l`. */
  ghost predicate Moved(st: Store, st': Store, t: Task, l: ListId)
    requires Ok(st) && t in st.where
  {
    && Ok(st') && st'.where == st.where[t := l]
    && (forall m :: m != l && m != st.where[t] ==> At(st', m) == At(st, m))
    && (l != st.where[t] ==> At(st', st.where[t]) == At(Take(st, t), st.where[t]))
    && |At(st', l).items| == |At(st, l).items| + if l == st.where[t] then 0 else 1
  }

  /** The item leaves its list and goes to the end of list `l`. */
  function Relocate(st: Store, t: Task, l: ListId): (st': Store)
    requires Ok(st) && t in st.where
    ensures Moved(st, st', t, l)
  {
    PutEnd(Take(st, t), l, t)
  }

  /** The item leaves its list and is inserted into list `l` in item-value order. */
  function RelocateSorted(st: Store, t: Task, l: ListId, val: map<Task, nat>): (st': Store)
    requires Ok(st) && t in st.where && l != st.where[t] && t in val && SortedBy(At(st, l).items, val)
    ensures Moved(st, st', t, l) && SortedBy(At(st', l).items, val)
  {
    RelocatedSorted(st, t, l, val);
    PutSorted(Take(st, t), l, t, val)
  }

  lemma RelocatedSorted(st: Store, t: Task, l: ListId, val: map<Task, nat>)
    requires Ok(st) && t in st.where && l != st.where[t] && t in val && SortedBy(At(st, l).items, val)
    ensures t !in Take(st, t).where && At(Take(st, t), l).items == At(st, l).items
    ensures Moved(st, PutSorted(Take(st, t), l, t, val), t, l)
    ensures SortedBy(At(PutSorted(Take(st, t), l, t, val), l).items, val)
  {
    hide Ok, At, Take, PutSorted;
  }

  // ---- Proofs about single rings ------------------------------------------------

  lemma RemovalMembers(r: Ring<Task>, j: nat)
    requires r.Valid() && j < |r.items|
    ensures RemoveAt(r, j).Valid()
    ensures forall t :: t in RemoveAt(r, j).items <==> t in r.items && t != r.items[j]
  {
    var s := RemoveAt(r, j).items;
    assert forall i :: 0 <= i < |s| ==> s[i] == r.items[if i < j then i else i + 1];
    forall t | t in r.items && t != r.items[j] ensures t in s {
      var i := IndexOf(r.items, t);
      assert s[if i < j then i else i - 1] == t;
    }
  }

  lemma InsertionMembers(r: Ring<Task>, i: nat, x: Task)
    requires r.Valid() && i <= |r.items| && x !in r.items
    ensures InsertAt(r, i, x).Valid()
    ensures forall t :: t in InsertAt(r, i, x).items <==> t in r.items || t == x
  {
    var s := InsertAt(r, i, x).items;
    assert forall k :: 0 <= k < |s| ==> s[k] == if k < i then r.items[k] else if k == i then x else r.items[k - 1];
    forall t | t in r.items ensures t in s {
      var k := IndexOf(r.items, t);
      assert s[if k < i then k else k + 1] == t;
    }
    assert s[i] == x;
  }

  lemma InsertKeepsSorted(items: seq<Task>, val: map<Task, nat>, i: nat, t: Task)
    requires SortedBy(items, val) && t in val && i <= |items|
    requires forall j :: 0 <= j < |items| ==> (j < i <==> val[items[j]] <= val[t])
    ensures SortedBy(items[..i] + [t] + items[i..], val)
  {
  }

  lemma RemoveKeepsSorted(items: seq<Task>, val: map<Task, nat>, j: nat)
    requires SortedBy(items, val) && j < |items|
    ensures SortedBy(items[..j] + items[j + 1..], val)
  {
  }

  lemma InOwn(st: Store, t: Task)
    requires Ok(st) && t in st.where
    ensures t in At(st, st.where[t]).items
  {
  }

  lemma TakeKeepsSorted(st: Store, t: Task, val: map<Task, nat>, l: ListId)
    requires Ok(st) && t in st.where
    ensures SortedBy(At(st, l).items, val) ==> SortedBy(At(Take(st, t), l).items, val)
  {
    hide Ok, At, SortedBy, Take;
    if l == st.where[t] && SortedBy(At(st, l).items, val) {
      assert t in At(st, l).items by { InOwn(st, t); }
      RemoveKeepsSorted(At(st, l).items, val, IndexOf(At(st, l).items, t));
    }
  }

  // ---- Counting -------------------------------------------------------------------

  ghost function Total(st: Store, ls: set<ListId>): nat
    decreases |ls|
  {
    if ls == {} then 0
    else
      var l :| l in ls;
      |At(st, l).items| + Total(st, ls - {l})
  }

  ghost function TasksIn(st: Store, ls: set<ListId>): set<Task> {
    set t | t in st.where && st.where[t] in ls
  }

  /** The lengths of the lists sum to the number of items that are in them. */
  lemma {:induction false} ListLengthsSum(st: Store, ls: set<ListId>)
    requires Ok(st)
    ensures Total(st, ls) == |TasksIn(st, ls)|
    decreases |ls|
  {
    hide Ok;
    if ls == {} {
      assert TasksIn(st, ls) == {};
    } else {
      var l :| l in ls && Total(st, ls) == |At(st, l).items| + Total(st, ls - {l});
      ListLengthsSum(st, ls - {l});
      OneListCount(st, l);
      var rest, here := TasksIn(st, ls - {l}), TasksIn(st, {l});
      assert TasksIn(st, ls) == rest + here && rest !! here;
    }
  }

  lemma OneListCount(st: Store, l: ListId)
    requires Ok(st)
    ensures |TasksIn(st, {l})| == |At(st, l).items|
  {
    assert TasksIn(st, {l}) == Members(At(st, l).items);
    assert Proper(st, l);
    MembersCount(At(st, l).items);
  }

  ghost function Members(s: seq<Task>): set<Task> {
    set t | t in s
  }

  lemma {:induction false} MembersCount(s: seq<Task>)
    requires NoDup(s)
    ensures |Members(s)| == |s|
  {
    if s == [] {
      assert Members(s) == {};
    } else {
      MembersCount(s[1..]);
      assert Members(s) == {s[0]} + Members(s[1..]);
    }
  }

  /** A list that exactly one item names as its container holds just that item. */
  lemma OnlyMember(st: Store, l: ListId, t: Task)
    requires Ok(st) && forall x :: x in st.where && st.where[x] == l <==> x == t
    ensures At(st, l).items == [t]
  {
    var items := At(st, l).items;
    assert Proper(st, l);
    assert t in st.where && st.where[t] == l;
    assert t in items;
    forall x | x in items ensures x == t {
      assert x in st.where && st.where[x] == l;
    }
    assert Members(items) == {t};
    MembersCount(items);
    assert items[0] in items;
  }
}
