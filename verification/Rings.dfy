/** The list of list.c as a value: the members from the end marker onwards, and
    the place of the walking index. `index == 0` is the end marker itself and
    `index == k` is member `items[k - 1]`. */
module Rings {

  /** TickType_t is a 32-bit unsigned integer; portMAX_DELAY is its largest value. */
  const WRAP: nat := 0x1_0000_0000
  const MAX_DELAY: nat := WRAP - 1

  /** 32-bit addition; it wraps at most once. */
  function Plus(a: nat, b: nat): nat
    requires a < WRAP && b < WRAP
  {
    if a + b < WRAP then a + b else a + b - WRAP
  }

  /** 32-bit subtraction. */
  function Minus(a: nat, b: nat): nat
    requires a < WRAP && b < WRAP
  {
    if a >= b then a - b else a + WRAP - b
  }

  /** The unbounded time of tick count `low` after `epoch` wraps. */
  function Time(epoch: nat, low: nat): nat {
    epoch * WRAP + low
  }

  datatype Ring<T> = Ring(items: seq<T>, index: nat) {
    ghost predicate Valid() {
      index <= |items| && NoDup(items)
    }

    /** The members in the order in which repeated walking will return them. */
    ghost function Upcoming(): seq<T>
      requires index <= |items|
    {
      items[index..] + items[..index]
    }
  }

  ghost predicate NoDup<T>(s: seq<T>) {
    forall i, j :: 0 <= i < j < |s| ==> s[i] != s[j]
  }

  function InsertAt<T>(r: Ring<T>, i: nat, x: T): (r': Ring<T>)
    requires r.index <= |r.items| && i <= |r.items|
    ensures r'.index <= |r'.items|
  {
    Ring(r.items[..i] + [x] + r.items[i..], if r.index > i then r.index + 1 else r.index)
  }

  /** vListInsertEnd puts the new member just behind the walking index. */
  function EndPos<T>(r: Ring<T>): nat {
    if r.index == 0 then |r.items| else r.index - 1
  }

  function InsertEnd<T>(r: Ring<T>, x: T): (r': Ring<T>)
    requires r.index <= |r.items|
    ensures r'.index <= |r'.items|
  {
    InsertAt(r, EndPos(r), x)
  }

  function RemoveAt<T>(r: Ring<T>, j: nat): (r': Ring<T>)
    requires j < |r.items| && r.index <= |r.items|
    ensures r'.index <= |r'.items|
  {
    Ring(r.items[..j] + r.items[j + 1..], if r.index > j then r.index - 1 else r.index)
  }

  /** listGET_OWNER_OF_NEXT_ENTRY: step the index, skipping the end marker. */
  function Advance<T>(r: Ring<T>): (r': Ring<T>)
    requires r.items != [] && r.index <= |r.items|
    ensures 1 <= r'.index <= |r'.items|
  {
    r.(index := if r.index == |r.items| then 1 else r.index + 1)
  }

  function Current<T>(r: Ring<T>): T
    requires 1 <= r.index <= |r.items|
  {
    r.items[r.index - 1]
  }

  /** Where vListInsert places value `v`: before the first strictly larger value. */
  function SortedPos(vals: seq<nat>, v: nat): (i: nat)
    ensures i <= |vals|
    ensures forall j :: 0 <= j < i ==> vals[j] <= v
    ensures i < |vals| ==> v < vals[i]
  {
    if vals == [] || v < vals[0] then 0 else 1 + SortedPos(vals[1..], v)
  }

  ghost predicate Sorted(vals: seq<nat>) {
    forall i, j :: 0 <= i < j < |vals| ==> vals[i] <= vals[j]
  }

  function IndexOf<T(==)>(s: seq<T>, x: T): (i: nat)
    requires x in s
    ensures i < |s| && s[i] == x
  {
    if s[0] == x then 0 else 1 + IndexOf(s[1..], x)
  }

  function Without<T(==)>(s: seq<T>, x: T): seq<T> {
    if s == [] then [] else if s[0] == x then Without(s[1..], x) else [s[0]] + Without(s[1..], x)
  }

  lemma ConsNoDup<T>(x: T, s: seq<T>)
    ensures NoDup(s) && x !in s ==> NoDup([x] + s)
  {
    if NoDup(s) && x !in s {
      var l := [x] + s;
      assert forall i :: 1 <= i < |l| ==> l[i] == s[i - 1] && l[i] in s;
    }
  }

  lemma {:induction false} WithoutMembers<T>(s: seq<T>, x: T)
    requires NoDup(s)
    ensures NoDup(Without(s, x)) && forall y :: y in Without(s, x) <==> y in s && y != x
  {
    if s != [] {
      assert s == [s[0]] + s[1..];
      WithoutMembers(s[1..], x);
      ConsNoDup(s[0], Without(s[1..], x));
    }
  }

  // ---- Sorted, stable insertion ------------------------------------------------

  /** vListInsert keeps a sorted list sorted, and a new member goes behind every
      member of the same value (also for portMAX_DELAY, the end marker's value). */
  lemma SortedInsertIsStable(vals: seq<nat>, v: nat)
    requires Sorted(vals)
    ensures var i := SortedPos(vals, v);
            && Sorted(vals[..i] + [v] + vals[i..])
            && (forall j :: 0 <= j < |vals| && vals[j] == v ==> j < i)
            && (forall j :: 0 <= j < |vals| ==> (j < i <==> vals[j] <= v))
  {
    var i := SortedPos(vals, v);
    forall j | i <= j < |vals| ensures v < vals[j] {
      assert v < vals[i];
    }
  }

  // ---- Walking -------------------------------------------------------------------

  lemma AdvanceRotates<T>(r: Ring<T>)
    requires r.items != [] && r.index <= |r.items|
    ensures Current(Advance(r)) == r.Upcoming()[0]
    ensures Advance(r).Upcoming() == r.Upcoming()[1..] + [r.Upcoming()[0]]
    ensures Advance(r).items == r.items
  {
  }

  function Walk<T>(r: Ring<T>, n: nat): (res: (Ring<T>, seq<T>))
    requires r.items != [] && r.index <= |r.items|
    ensures res.0.items == r.items && res.0.index <= |res.0.items|
    ensures |res.1| == n
    decreases n
  {
    if n == 0 then (r, [])
    else
      var r1 := Advance(r);
      var (r2, visited) := Walk(r1, n - 1);
      (r2, [Current(r1)] + visited)
  }

  lemma RotateOnce<T>(u: seq<T>, v: seq<T>, n: nat)
    requires u != [] && v == u[1..] + [u[0]] && 0 < n <= |u|
    ensures [u[0]] + v[..n - 1] == u[..n]
    ensures v[n - 1..] + v[..n - 1] == u[n..] + u[..n]
  {
    assert v[..n - 1] == u[1..n];
    assert v[n - 1..] == u[n..] + [u[0]];
  }

  lemma {:induction false} WalkRotates<T>(r: Ring<T>, n: nat)
    requires r.items != [] && r.index <= |r.items| && n <= |r.items|
    ensures Walk(r, n).1 == r.Upcoming()[..n]
    ensures Walk(r, n).0.Upcoming() == r.Upcoming()[n..] + r.Upcoming()[..n]
    decreases n
  {
    if n == 0 {
      assert r.Upcoming()[0..] + r.Upcoming()[..0] == r.Upcoming();
    } else {
      AdvanceRotates(r);
      WalkRotates(Advance(r), n - 1);
      RotateOnce(r.Upcoming(), Advance(r).Upcoming(), n);
    }
  }

  /** One round of walking returns every member exactly once, in upcoming order,
      and leaves the order of the next round unchanged. */
  lemma RoundRobin<T>(r: Ring<T>)
    requires r.Valid() && r.items != []
    ensures var (r', visited) := Walk(r, |r.items|);
            && visited == r.Upcoming()
            && r'.Upcoming() == r.Upcoming()
            && multiset(visited) == multiset(r.items)
            && NoDup(visited)
  {
    WalkRotates(r, |r.items|);
    WholeRound(r.Upcoming());
    UpcomingSameMembers(r);
    UpcomingNoDup(r);
  }

  lemma WholeRound<T>(u: seq<T>)
    ensures u[..|u|] == u && u[|u|..] + u[..|u|] == u
  {
  }

  lemma UpcomingSameMembers<T>(r: Ring<T>)
    requires r.index <= |r.items|
    ensures multiset(r.Upcoming()) == multiset(r.items) && |r.Upcoming()| == |r.items|
  {
    assert r.items == r.items[..r.index] + r.items[r.index..];
  }

  lemma UpcomingNoDup<T>(r: Ring<T>)
    requires r.Valid()
    ensures NoDup(r.Upcoming())
  {
    var u, n := r.Upcoming(), |r.items|;
    forall i, j | 0 <= i < j < |u| ensures u[i] != u[j] {
      var i' := if i < n - r.index then i + r.index else i - (n - r.index);
      var j' := if j < n - r.index then j + r.index else j - (n - r.index);
      assert u[i] == r.items[i'] && u[j] == r.items[j'] && i' != j';
    }
  }

  /** A member inserted at the end is returned after all others, except that the
      member the index stands on (just returned) comes after it. */
  lemma EndInsertedGoesLast<T>(r: Ring<T>, x: T)
    requires r.index <= |r.items|
    ensures var u := r.Upcoming(); var u' := InsertEnd(r, x).Upcoming();
            if r.index == 0 then u' == u + [x]
            else u' == u[..|u| - 1] + [x] + [Current(r)]
  {
  }

  /** Removing a member, even the one under the index, skips nobody. */
  lemma RemovalSkipsNobody<T>(r: Ring<T>, j: nat)
    requires r.Valid() && j < |r.items|
    ensures RemoveAt(r, j).Upcoming() == Without(r.Upcoming(), r.items[j])
    ensures RemoveAt(r, j).Valid()
  {
    var x := r.items[j];
    var u := r.Upcoming();
    var k := if j >= r.index then j - r.index else |r.items| - r.index + j;
    assert u[k] == x;
    UpcomingNoDup(r);
    WithoutAt(u, k);
    RemovalUpcoming(r, j, k);
    RemovalNoDup(r.items, j);
  }

  lemma RemovalNoDup<T>(s: seq<T>, j: nat)
    requires NoDup(s) && j < |s|
    ensures NoDup(s[..j] + s[j + 1..])
  {
    var u := s[..j] + s[j + 1..];
    forall a, b | 0 <= a < b < |u| ensures u[a] != u[b] {
      assert u[a] == s[if a < j then a else a + 1] && u[b] == s[if b < j then b else b + 1];
    }
  }

  lemma RemovalUpcoming<T>(r: Ring<T>, j: nat, k: nat)
    requires r.index <= |r.items| && j < |r.items|
    requires k == if j >= r.index then j - r.index else |r.items| - r.index + j
    ensures RemoveAt(r, j).Upcoming() == r.Upcoming()[..k] + r.Upcoming()[k + 1..]
  {
    if j >= r.index {
      assert (r.items[..j] + r.items[j + 1..])[r.index..] == r.items[r.index..j] + r.items[j + 1..];
    } else {
      assert (r.items[..j] + r.items[j + 1..])[..r.index - 1] == r.items[..j] + r.items[j + 1..r.index];
    }
  }

  lemma {:induction false} WithoutAt<T>(s: seq<T>, k: nat)
    requires k < |s| && NoDup(s)
    ensures Without(s, s[k]) == s[..k] + s[k + 1..]
  {
    if k == 0 {
      WithoutAbsent(s[1..], s[0]);
    } else {
      WithoutAt(s[1..], k - 1);
      assert s[..k] + s[k + 1..] == [s[0]] + (s[1..][..k - 1] + s[1..][k..]);
    }
  }

  lemma {:induction false} WithoutAbsent<T>(s: seq<T>, x: T)
    requires x !in s
    ensures Without(s, x) == s
  {
    if s != [] {
      WithoutAbsent(s[1..], x);
    }
  }
}
