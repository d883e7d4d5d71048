/** Sequences in the order of the values of their items, as vListInsert and the free list of
    heap_2.c keep them. */
module SortedLists {
  import opened Rings

  /** In order of value, without repetition. */
  ghost predicate InOrder(list: seq<nat>, value: map<nat, nat>) {
    && (forall x :: x in list ==> x in value)
    && (forall i, j :: 0 <= i < j < |list| ==> value[list[i]] <= value[list[j]])
    && NoDup(list)
  }

  /** vListInsert on the sequence of items: before the first item of larger value. */
  function Inserted(list: seq<nat>, value: map<nat, nat>, t: nat): seq<nat>
    requires t in value && forall x :: x in list ==> x in value
  {
    if list == [] || value[list[0]] > value[t] then [t] + list else [list[0]] + Inserted(list[1..], value, t)
  }

  /** This is the insertion at the place that vListInsert searches for. */
  lemma {:induction false} InsertedIsAtSortedPos(list: seq<nat>, value: map<nat, nat>, t: nat)
    requires t in value && forall x :: x in list ==> x in value
    ensures var i := SortedPos(seq(|list|, k requires 0 <= k < |list| => value[list[k]]), value[t]);
            Inserted(list, value, t) == list[..i] + [t] + list[i..]
  {
    var vals := seq(|list|, k requires 0 <= k < |list| => value[list[k]]);
    if list != [] && value[list[0]] <= value[t] {
      var rest := list[1..];
      var restVals := seq(|rest|, k requires 0 <= k < |rest| => value[rest[k]]);
      assert vals[1..] == restVals;
      InsertedIsAtSortedPos(rest, value, t);
      var i := SortedPos(restVals, value[t]);
      assert SortedPos(vals, value[t]) == i + 1;
      assert [list[0]] + (rest[..i] + [t] + rest[i..]) == list[..i + 1] + [t] + list[i + 1..];
    } else {
      assert SortedPos(vals, value[t]) == 0;
      assert list[..0] + [t] + list[0..] == [t] + list;
    }
  }

  lemma ConsInOrder(x: nat, list: seq<nat>, value: map<nat, nat>)
    requires InOrder(list, value) && x in value && x !in list && forall y :: y in list ==> value[x] <= value[y]
    ensures InOrder([x] + list, value)
  {
    var l := [x] + list;
    assert forall i :: 1 <= i < |l| ==> l[i] == list[i - 1] && l[i] in list;
  }

  lemma TailInOrder(list: seq<nat>, value: map<nat, nat>)
    requires InOrder(list, value) && list != []
    ensures InOrder(list[1..], value) && list[0] !in list[1..] && list[0] in value
    ensures forall x :: x in list ==> value[list[0]] <= value[x]
    ensures forall x :: x in list <==> x == list[0] || x in list[1..]
  {
    assert list == [list[0]] + list[1..];
  }

  lemma OrderDefined(list: seq<nat>, value: map<nat, nat>)
    requires InOrder(list, value)
    ensures forall x :: x in list ==> x in value
  {
  }

  lemma {:induction false} InsertedInOrder(list: seq<nat>, value: map<nat, nat>, t: nat)
    requires InOrder(list, value) && t in value && t !in list
    ensures InOrder(Inserted(list, value, t), value)
    ensures forall x :: x in Inserted(list, value, t) <==> x in list || x == t
  {
    hide InOrder;
    assert forall x :: x in list ==> x in value by { OrderDefined(list, value); }
    if list == [] {
      ConsInOrder(t, list, value);
    } else {
      TailInOrder(list, value);
      if value[list[0]] > value[t] {
        ConsInOrder(t, list, value);
      } else {
        InsertedInOrder(list[1..], value, t);
        ConsInOrder(list[0], Inserted(list[1..], value, t), value);
      }
    }
  }

  lemma OtherValue(list: seq<nat>, value: map<nat, nat>, t: nat, v: nat)
    requires InOrder(list, value) && t !in list
    ensures InOrder(list, value[t := v])
  {
  }

  lemma {:induction false} WithoutInOrder(list: seq<nat>, value: map<nat, nat>, t: nat)
    requires InOrder(list, value)
    ensures InOrder(Without(list, t), value)
    ensures forall x :: x in Without(list, t) <==> x in list && x != t
  {
    hide InOrder;
    if list != [] {
      TailInOrder(list, value);
      WithoutInOrder(list[1..], value, t);
      if list[0] != t {
        ConsInOrder(list[0], Without(list[1..], t), value);
      }
    } else {
      assert Without(list, t) == list;
    }
  }
}
