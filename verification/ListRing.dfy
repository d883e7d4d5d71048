/** list.c and list.h: the intrusive circular doubly linked list, relinked in
    place, with its end marker and walking index. Each operation is proved to act
    on the list as the operation of module Rings with the same name does. */
module ListRing {
  import opened Rings

  class ListItem {
    var value: nat
    var next: ListItem?
    var prev: ListItem?
    var container: List?

    /** vListInitialiseItem: the item is in no list. */
    constructor (v: nat)
      ensures value == v && container == null
    {
      value := v;
      container := null;
      next := null;
      prev := null;
    }
  }

  class List {
    const end: ListItem
    var index: ListItem
    var count: nat
    ghost var nodes: seq<ListItem>   // the end marker, then the members in order
    ghost var at: nat                // where in `nodes` the index stands
    ghost var known: set<ListItem>   // the items that have ever been inserted

    /** A well-formed ring: following `next` from the end marker passes the members
        in order and returns, `prev` is its inverse, the members are exactly the items
        that name this list as their container, and the count and the index are those of
        the ring. */
    ghost predicate Valid()
      reads this, nodes, known
    {
      && nodes != [] && nodes[0] == end
      && RingOk(nodes, this)
      && KnownOk(known, nodes, this)
      && count + 1 == |nodes|
      && at < |nodes|
      && index == nodes[at]
    }

    ghost function Value(): Ring<ListItem>
      requires nodes != []
      reads this
    {
      Ring(nodes[1..], at)
    }

    ghost function Values(): seq<nat>
      requires nodes != []
      reads this, nodes
    {
      ValuesOf(nodes[1..])
    }

    /** vListInitialise */
    constructor ()
      ensures Valid() && fresh(end) && Value() == Ring([], 0)
    {
      end := new ListItem(MAX_DELAY);
      nodes := [end];
      known := {};
      at := 0;
      count := 0;
      index := end;
      new;
      end.next := end;
      end.prev := end;
      assert LinkOk(nodes, 0);
    }

    /** `x` goes between `before` and `after` and names this list. */
    method Relink(x: ListItem, before: ListItem, after: ListItem, ghost i: nat)
      requires Valid() && x !in nodes
      requires i < |nodes| && before == nodes[i] && after == nodes[Succ(i, |nodes|)]
      modifies x`next, x`prev, x`container, before`next, after`prev
      ensures before.next == x && x.next == after && after.prev == x && x.prev == before && x.container == this
      ensures forall k :: 0 <= k < |nodes| && k != i ==> LinkOk(nodes, k)
      ensures MembersOk(nodes, this)
      ensures forall y :: y in known && y != x ==> (y.container == this <==> Member(nodes, y))
    {
      hide Member, ValuesOf;
      x.next := after;
      x.prev := before;
      after.prev := x;
      before.next := x;
      x.container := this;
      forall k | 0 <= k < |nodes| && k != i ensures LinkOk(nodes, k) {
        assert old(LinkOk(nodes, k)) && Differ(nodes, k, i);
        assert Differ(nodes, Succ(k, |nodes|), Succ(i, |nodes|));
      }
    }

    /** The part shared by both insertions: relink, name the container and count. */
    method Link(x: ListItem, before: ListItem, after: ListItem, ghost i: nat)
      requires Valid() && x != end && x.container == null && x.value <= MAX_DELAY
      requires i < |nodes| && before == nodes[i] && after == nodes[Succ(i, |nodes|)]
      modifies this, x`next, x`prev, x`container, before`next, after`prev
      ensures Valid() && x.container == this
      ensures Value() == Rings.InsertAt(old(Value()), i, x)
    {
      hide Member, ValuesOf, LinkOk, Differ, MembersOk;
      ghost var ns := nodes;
      NotMember(ns, x, this);
      Relink(x, before, after, i);
      count := count + 1;
      nodes, at := Spliced(ns, i, x), if at > i then at + 1 else at;
      known := known + {x};
      SpliceRing(ns, i, x, old(at), this);
      ItemsSpliced(ns, i, x);
      SpliceKnown(old(known), ns, i, x, this);
    }

    /** vListInsertEnd */
    method InsertEnd(x: ListItem)
      requires Valid() && x != end && x.container == null && x.value <= MAX_DELAY
      modifies this, x`next, x`prev, x`container, nodes`next, nodes`prev
      ensures Valid() && x.container == this
      ensures Value() == Rings.InsertEnd(old(Value()), x)
    {
      ghost var i := EndPos(Value());
      assert LinkOk(nodes, i) && nodes[Succ(i, |nodes|)] == index;
      Link(x, index.prev, index, i);
    }

    /** vListInsert: in item-value order, behind the members of equal value. */
    method Insert(x: ListItem)
      requires Valid() && x != end && x.container == null && x.value <= MAX_DELAY
      modifies this, x`next, x`prev, x`container, nodes`next, nodes`prev
      ensures Valid() && x.container == this
      ensures Value() == Rings.InsertAt(old(Value()), SortedPos(old(Values()), x.value), x)
    {
      ghost var i := SortedPos(Values(), x.value);
      var cursor := FindPlace(x.value);
      assert LinkOk(nodes, i);
      Link(x, cursor, cursor.next, i);
    }

    /** The search of vListInsert for the node behind which value `v` belongs. */
    method FindPlace(v: nat) returns (cursor: ListItem)
      requires Valid() && v <= MAX_DELAY
      ensures SortedPos(Values(), v) < |nodes| && cursor == nodes[SortedPos(Values(), v)]
    {
      ghost var n := |nodes| - 1;
      ghost var i := SortedPos(Values(), v);
      cursor := end;
      assert LinkOk(nodes, 0) && LinkOk(nodes, n) && Succ(n, |nodes|) == 0;
      assert forall k :: 0 <= k < n ==> Values()[k] == nodes[k + 1].value;
      if v == MAX_DELAY {
        cursor := end.prev;
        assert i == n;
      } else {
        ghost var k := 0;
        while cursor.next.value <= v
          invariant k <= i && cursor == nodes[k] && LinkOk(nodes, k)
          decreases n - k
        {
          assert k < n && Values()[k] == nodes[k + 1].value;
          cursor := cursor.next;
          k := k + 1;
          assert LinkOk(nodes, k);
        }
        assert k < n ==> Values()[k] == nodes[k + 1].value;
        assert k == i;
      }
    }

    /** `before` and `after` are joined past `x`, which is then in no list. */
    method Bypass(x: ListItem, before: ListItem, after: ListItem, ghost j: nat)
      requires Valid() && 0 < j < |nodes| && nodes[j] == x
      requires before == nodes[j - 1] && after == nodes[Succ(j, |nodes|)]
      modifies x`container, before`next, after`prev
      ensures before.next == after && after.prev == before && x.container == null
      ensures forall k :: 0 <= k < |nodes| && k != j - 1 && k != j ==> LinkOk(nodes, k)
      ensures forall k :: 0 < k < |nodes| && k != j ==> nodes[k].container == this && nodes[k].value <= MAX_DELAY
      ensures nodes[0].value == MAX_DELAY && nodes[0].container == null
      ensures forall y :: y in known && y != x ==> (y.container == this <==> Member(nodes, y))
    {
      hide Member, ValuesOf;
      ghost var n := |nodes|;
      after.prev := before;
      before.next := after;
      x.container := null;
      forall k | 0 <= k < n && k != j - 1 && k != j ensures LinkOk(nodes, k) {
        assert old(LinkOk(nodes, k)) && Differ(nodes, k, j - 1);
        assert Differ(nodes, Succ(k, n), Succ(j, n));
      }
      forall k | 0 < k < n && k != j ensures nodes[k].container == this && nodes[k].value <= MAX_DELAY {
        assert Differ(nodes, k, j);
      }
    }

    /** The removal of a member at ghost position `j` that the index does not stand on. */
    method Unlink(x: ListItem, before: ListItem, after: ListItem, ghost j: nat)
      requires Valid() && 0 < j < |nodes| && nodes[j] == x && at != j
      requires before == nodes[j - 1] && after == nodes[Succ(j, |nodes|)]
      modifies this`count, this`nodes, this`at, x`container, before`next, after`prev
      ensures Valid() && x !in nodes && x.container == null
      ensures Value() == RemoveAt(old(Value()), j - 1)
    {
      hide Member, ValuesOf, LinkOk, Differ, MembersOk, Unspliced;
      ghost var ns := nodes;
      Bypass(x, before, after, j);
      count := count - 1;
      nodes, at := Unspliced(ns, j), if at >= j then at - 1 else at;
      UnspliceRing(ns, j, old(at), this);
      ItemsUnspliced(ns, j);
      UnspliceKnown(known, ns, j, this);
    }

    /** uxListRemove; the list is found through the item's container. */
    method Remove(x: ListItem) returns (left: nat, ghost j: nat)
      requires Valid() && x.container == this && x in known
      modifies this, x`container, nodes`next, nodes`prev
      ensures Valid() && x !in nodes && x.container == null
      ensures j < |old(nodes)| - 1 && old(Value()).items[j] == x && Value() == RemoveAt(old(Value()), j)
      ensures left == |Value().items|
    {
      ghost var p :| 0 < p < |nodes| && nodes[p] == x;
      j := p - 1;
      assert LinkOk(nodes, j) && LinkOk(nodes, p);
      if index == x {
        assert at != p ==> Differ(nodes, at, p);
        index, at := x.prev, p - 1;
      }
      Unlink(x, x.prev, x.next, p);
      left := count;
    }

    /** listGET_OWNER_OF_NEXT_ENTRY */
    method NextEntry() returns (x: ListItem)
      requires Valid() && |nodes| > 1
      modifies this`index, this`at
      ensures Valid()
      ensures Value() == Advance(old(Value())) && x == Current(Value())
    {
      assert LinkOk(nodes, at);
      index := index.next;
      at := Succ(at, |nodes|);
      assert at != 0 ==> Differ(nodes, at, 0);
      if index == end {
        assert LinkOk(nodes, at);
        index := index.next;
        at := at + 1;
      }
      x := index;
    }
  }

  /** The move of an item from one list to the end of another (uxListRemove, vListInsertEnd), as in
      every change of a task's state. Both lists stay well-formed although they share the item. */
  method Move(a: List, b: List, x: ListItem) returns (left: nat, ghost j: nat)
    requires a.Valid() && b.Valid() && a != b && a.end != b.end
    requires x.container == a && x in a.known && x != b.end
    modifies a, b, x`next, x`prev, x`container, a.nodes`next, a.nodes`prev, b.nodes`next, b.nodes`prev
    ensures a.Valid() && b.Valid() && x.container == b
    ensures j < |old(a.nodes)| - 1 && old(a.Value()).items[j] == x
    ensures a.Value() == RemoveAt(old(a.Value()), j) && left == |a.Value().items|
    ensures b.Value() == Rings.InsertEnd(old(b.Value()), x)
  {
    hide RingOk, Member, ValuesOf;
    Apart(a, b);
    IsMember(a, x);
    left, j := a.Remove(x);
    Apart(a, b);
    b.InsertEnd(x);
  }

  lemma IsMember(a: List, x: ListItem)
    requires a.Valid() && x.container == a && x in a.known
    ensures x in a.nodes && x.value <= MAX_DELAY
  {
  }

  /** Two lists share no node. */
  lemma Apart(a: List, b: List)
    requires a.Valid() && b.Valid() && a != b && a.end != b.end
    ensures forall k :: 0 <= k < |a.nodes| ==> a.nodes[k] !in b.nodes
    ensures forall k :: 0 <= k < |b.nodes| ==> b.nodes[k] !in a.nodes
  {
  }

  ghost function Succ(i: nat, n: nat): nat {
    if i + 1 == n then 0 else i + 1
  }

  ghost predicate LinksOk(nodes: seq<ListItem>)
    reads nodes
  {
    forall k :: 0 <= k < |nodes| ==> LinkOk(nodes, k)
  }

  ghost predicate MembersOk(nodes: seq<ListItem>, list: List)
    requires nodes != []
    reads nodes
  {
    && nodes[0].value == MAX_DELAY && nodes[0].container == null
    && forall k :: 0 < k < |nodes| ==> nodes[k].container == list && nodes[k].value <= MAX_DELAY
  }

  /** Among the items ever inserted, those that name the list as their container are its members. */
  ghost predicate KnownOk(known: set<ListItem>, nodes: seq<ListItem>, list: List)
    requires nodes != []
    reads known
  {
    && nodes[0] !in known
    && (forall k :: 0 < k < |nodes| ==> nodes[k] in known)
    && (forall x :: x in known ==> (x.container == list <==> Member(nodes, x)))
  }

  ghost predicate Member(nodes: seq<ListItem>, x: ListItem) {
    exists k :: 0 < k < |nodes| && nodes[k] == x
  }

  ghost function ValuesOf(items: seq<ListItem>): (vals: seq<nat>)
    reads items
    ensures |vals| == |items|
  {
    seq(|items|, i requires 0 <= i < |items| reads items => items[i].value)
  }

  ghost function Spliced(nodes: seq<ListItem>, i: nat, x: ListItem): seq<ListItem>
    requires i < |nodes|
  {
    nodes[..i + 1] + [x] + nodes[i + 1..]
  }

  ghost function Unspliced(nodes: seq<ListItem>, j: nat): seq<ListItem>
    requires j < |nodes|
  {
    nodes[..j] + nodes[j + 1..]
  }

  lemma ItemsSpliced(nodes: seq<ListItem>, i: nat, x: ListItem)
    requires i < |nodes|
    ensures Spliced(nodes, i, x)[1..] == nodes[1..][..i] + [x] + nodes[1..][i..]
  {
  }

  lemma ItemsUnspliced(nodes: seq<ListItem>, j: nat)
    requires 0 < j < |nodes|
    ensures |Unspliced(nodes, j)| == |nodes| - 1 && Unspliced(nodes, j)[0] == nodes[0]
    ensures Unspliced(nodes, j)[1..] == nodes[1..][..j - 1] + nodes[1..][j..]
  {
  }

  ghost predicate LinkOk(nodes: seq<ListItem>, k: nat)
    requires k < |nodes|
    reads nodes
  {
    nodes[k].next == nodes[Succ(k, |nodes|)] && nodes[Succ(k, |nodes|)].prev == nodes[k]
  }

  ghost predicate Differ(nodes: seq<ListItem>, i: nat, j: nat)
    requires i < |nodes| && j < |nodes|
  {
    nodes[i] != nodes[j]
  }

  /** All nodes are different; `Differ` limits how the verifier uses it. */
  ghost predicate Distinct(nodes: seq<ListItem>) {
    forall i, j :: 0 <= i < |nodes| && 0 <= j < |nodes| && i != j ==> Differ(nodes, i, j)
  }

  ghost predicate RingOk(nodes: seq<ListItem>, list: List)
    requires nodes != []
    reads nodes
  {
    LinksOk(nodes) && Distinct(nodes) && MembersOk(nodes, list)
  }

  lemma SplicedAt(nodes: seq<ListItem>, i: nat, x: ListItem)
    requires i < |nodes|
    ensures |Spliced(nodes, i, x)| == |nodes| + 1
    ensures forall k :: 0 <= k <= |nodes| ==>
              Spliced(nodes, i, x)[k] == if k <= i then nodes[k] else if k == i + 1 then x else nodes[k - 1]
  {
  }

  lemma SpliceDistinct(nodes: seq<ListItem>, i: nat, x: ListItem)
    requires i < |nodes| && Distinct(nodes) && x !in nodes
    ensures Distinct(Spliced(nodes, i, x))
  {
    SplicedAt(nodes, i, x);
    var ns, n := Spliced(nodes, i, x), |nodes|;
    hide Spliced;
    forall a, b | 0 <= a <= n && 0 <= b <= n && a != b ensures Differ(ns, a, b) {
      if a != i + 1 && b != i + 1 {
        assert Differ(nodes, if a <= i then a else a - 1, if b <= i then b else b - 1);
      }
    }
  }

  lemma SpliceMembers(nodes: seq<ListItem>, i: nat, x: ListItem, list: List)
    requires i < |nodes| && MembersOk(nodes, list) && x.container == list && x.value <= MAX_DELAY
    ensures MembersOk(Spliced(nodes, i, x), list)
  {
    SplicedAt(nodes, i, x);
    hide Spliced;
  }

  /** An item in no list is no member. */
  lemma NotMember(nodes: seq<ListItem>, x: ListItem, list: List)
    requires nodes != [] && MembersOk(nodes, list) && x != nodes[0] && x.container == null
    ensures x !in nodes
  {
  }

  lemma SpliceKnown(known: set<ListItem>, nodes: seq<ListItem>, i: nat, x: ListItem, list: List)
    requires i < |nodes| && x != nodes[0] && nodes[0] !in known && x.container == list
    requires forall k :: 0 < k < |nodes| ==> nodes[k] in known
    requires forall y :: y in known && y != x ==> (y.container == list <==> Member(nodes, y))
    ensures KnownOk(known + {x}, Spliced(nodes, i, x), list)
  {
    SplicedAt(nodes, i, x);
    var ns := Spliced(nodes, i, x);
    hide Spliced;
    forall y | y in known + {x} ensures y.container == list <==> Member(ns, y) {
      if y == x {
        assert ns[i + 1] == x;
      } else if Member(nodes, y) {
        var k :| 0 < k < |nodes| && nodes[k] == y;
        assert ns[if k <= i then k else k + 1] == y;
      }
    }
  }

  lemma UnspliceKnown(known: set<ListItem>, nodes: seq<ListItem>, j: nat, list: List)
    requires 0 < j < |nodes| && nodes[0] !in known && nodes[j].container != list
    requires forall k :: 0 < k < |nodes| ==> nodes[k] in known
    requires forall y :: y in known && y != nodes[j] ==> (y.container == list <==> Member(nodes, y))
    requires nodes[j] !in Unspliced(nodes, j)
    ensures KnownOk(known, Unspliced(nodes, j), list)
  {
    var ns := Unspliced(nodes, j);
    assert forall a :: 0 <= a < |ns| ==> ns[a] == nodes[if a < j then a else a + 1];
    forall y | y in known ensures y.container == list <==> Member(ns, y) {
      if y != nodes[j] && Member(nodes, y) {
        var k :| 0 < k < |nodes| && nodes[k] == y;
        assert ns[if k < j then k else k - 1] == y;
      }
    }
  }

  lemma SpliceLinks(nodes: seq<ListItem>, i: nat, x: ListItem)
    requires i < |nodes|
    requires var s := nodes[Succ(i, |nodes|)];
             nodes[i].next == x && x.next == s && s.prev == x && x.prev == nodes[i]
    requires forall k :: 0 <= k < |nodes| && k != i ==> LinkOk(nodes, k)
    ensures LinksOk(Spliced(nodes, i, x))
  {
    SplicedAt(nodes, i, x);
    var ns, n := Spliced(nodes, i, x), |nodes|;
    hide Spliced;
    forall k | 0 <= k <= n ensures LinkOk(ns, k) {
      if k < i {
        assert LinkOk(nodes, k);
      } else if k > i + 1 {
        assert LinkOk(nodes, k - 1);
      }
    }
  }

  /** Relinking the four pointers around the new node gives a ring again. */
  lemma SpliceRing(nodes: seq<ListItem>, i: nat, x: ListItem, at: nat, list: List)
    requires i < |nodes| && Distinct(nodes) && x !in nodes && MembersOk(nodes, list)
    requires x.container == list && x.value <= MAX_DELAY
    requires var s := nodes[Succ(i, |nodes|)];
             nodes[i].next == x && x.next == s && s.prev == x && x.prev == nodes[i]
    requires forall k :: 0 <= k < |nodes| && k != i ==> LinkOk(nodes, k)
    requires at < |nodes|
    ensures RingOk(Spliced(nodes, i, x), list)
    ensures nodes[at] == Spliced(nodes, i, x)[if at > i then at + 1 else at]
  {
    SpliceDistinct(nodes, i, x);
    SpliceMembers(nodes, i, x, list);
    SpliceLinks(nodes, i, x);
    SplicedAt(nodes, i, x);
  }

  /** Bypassing node `j` gives a ring again. */
  lemma UnspliceRing(nodes: seq<ListItem>, j: nat, at: nat, list: List)
    requires 0 < j < |nodes| && Distinct(nodes)
    requires var s, p := nodes[Succ(j, |nodes|)], nodes[j - 1]; p.next == s && s.prev == p
    requires forall k :: 0 <= k < |nodes| && k != j && k != j - 1 ==> LinkOk(nodes, k)
    requires nodes[0].value == MAX_DELAY && nodes[0].container == null
    requires forall k :: 0 < k < |nodes| && k != j ==> nodes[k].container == list && nodes[k].value <= MAX_DELAY
    requires at < |nodes| && at != j
    ensures RingOk(Unspliced(nodes, j), list)
    ensures nodes[j] !in Unspliced(nodes, j)
    ensures nodes[at] == Unspliced(nodes, j)[if at >= j then at - 1 else at]
  {
    var ns, n := Unspliced(nodes, j), |nodes|;
    forall a, b | 0 <= a < n - 1 && 0 <= b < n - 1 && a != b ensures Differ(ns, a, b) {
      assert Differ(nodes, if a < j then a else a + 1, if b < j then b else b + 1);
    }
    forall a | 0 <= a < n - 1 ensures ns[a] != nodes[j] {
      assert Differ(nodes, if a < j then a else a + 1, j);
    }
    forall k | 0 <= k < n - 1 ensures LinkOk(ns, k) {
      if k + 1 < j {
        assert LinkOk(nodes, k);
        assert ns[k] == nodes[k] && ns[k + 1] == nodes[k + 1];
      } else if k >= j {
        assert LinkOk(nodes, k + 1);
        assert ns[k] == nodes[k + 1];
        assert ns[Succ(k, n - 1)] == nodes[Succ(k + 1, n)];
      }
    }
  }
}
