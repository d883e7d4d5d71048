/** The linked free list of heap_2.c, searched and relinked in place. */
module HeapMemory {
  import opened Options
  import opened Rings
  import opened SortedLists
  import opened Heaps

  /** The address of a header: xStart, xEnd, or a block in the heap. */
  datatype Addr = Start | End | Block(offset: nat)

  /** Node `i` of the list: xStart, then the free blocks, then xEnd. */
  function Node(free: seq<nat>, i: nat): Addr {
    if i == 0 then Start else if i <= |free| then Block(free[i - 1]) else End
  }

  ghost predicate LinkAt(next: map<Addr, Addr>, free: seq<nat>, i: nat) {
    Node(free, i) in next && next[Node(free, i)] == Node(free, i + 1)
  }

  /** Following the links from xStart goes through `free` and ends at xEnd, which has none. */
  ghost predicate Chain(next: map<Addr, Addr>, free: seq<nat>) {
    (forall i :: 0 <= i <= |free| ==> LinkAt(next, free, i)) && End !in next
  }

  lemma NodesDiffer(free: seq<nat>, i: nat, j: nat)
    requires NoDup(free) && i <= |free| && j <= |free| && i != j
    ensures Node(free, i) != Node(free, j)
  {
  }

  lemma InsertedNode(free: seq<nat>, i: nat, b: nat, k: nat)
    requires i <= |free| && k <= |free| + 2
    ensures var l := free[..i] + [b] + free[i..];
            Node(l, k) == if k <= i then Node(free, k) else if k == i + 1 then Block(b) else Node(free, k - 1)
  {
  }

  lemma ChainInsert(next: map<Addr, Addr>, free: seq<nat>, i: nat, b: nat)
    requires Chain(next, free) && NoDup(free) && b !in free && i <= |free|
    ensures LinkAt(next, free, i)
    ensures Chain(next[Block(b) := next[Node(free, i)]][Node(free, i) := Block(b)], free[..i] + [b] + free[i..])
  {
    assert LinkAt(next, free, i);
    var l := free[..i] + [b] + free[i..];
    var next' := next[Block(b) := next[Node(free, i)]][Node(free, i) := Block(b)];
    forall k | 0 <= k <= |l| ensures LinkAt(next', l, k) {
      InsertedNode(free, i, b, k);
      InsertedNode(free, i, b, k + 1);
      if k < i {
        assert LinkAt(next, free, k);
        NodesDiffer(free, k, i);
      } else if k > i + 1 {
        assert LinkAt(next, free, k - 1);
        NodesDiffer(free, k - 1, i);
      }
    }
  }

  lemma RemovedNode(free: seq<nat>, i: nat, k: nat)
    requires i < |free| && k <= |free|
    ensures var l := free[..i] + free[i + 1..];
            Node(l, k) == if k <= i then Node(free, k) else Node(free, k + 1)
  {
  }

  lemma ChainRemove(next: map<Addr, Addr>, free: seq<nat>, i: nat)
    requires Chain(next, free) && NoDup(free) && i < |free|
    ensures LinkAt(next, free, i) && LinkAt(next, free, i + 1)
    ensures Chain(next[Node(free, i) := next[Node(free, i + 1)]], free[..i] + free[i + 1..])
  {
    assert LinkAt(next, free, i) && LinkAt(next, free, i + 1);
    var l := free[..i] + free[i + 1..];
    var next' := next[Node(free, i) := next[Node(free, i + 1)]];
    forall k | 0 <= k <= |l| ensures LinkAt(next', l, k) {
      RemovedNode(free, i, k);
      RemovedNode(free, i, k + 1);
      if k < i {
        assert LinkAt(next, free, k);
        NodesDiffer(free, k, i);
      } else if k > i {
        assert LinkAt(next, free, k + 1);
        NodesDiffer(free, k + 1, i);
      }
    }
  }

  lemma {:induction false} BySizeAt(free: seq<nat>, size: map<nat, nat>, b: nat, i: nat)
    requires b in size && (forall x :: x in free ==> x in size) && i <= |free|
    requires forall j :: 0 <= j < i ==> size[free[j]] < size[b]
    requires i < |free| ==> size[free[i]] >= size[b]
    ensures BySize(free, size, b) == free[..i] + [b] + free[i..]
  {
    if i > 0 {
      BySizeAt(free[1..], size, b, i - 1);
      assert free == [free[0]] + free[1..];
    }
  }

  lemma {:induction false} FirstFitAt(free: seq<nat>, size: map<nat, nat>, wanted: nat, i: nat)
    requires (forall x :: x in free ==> x in size) && i <= |free|
    requires forall j :: 0 <= j < i ==> size[free[j]] < wanted
    requires i < |free| ==> size[free[i]] >= wanted
    ensures FirstFit(free, size, wanted) == i
  {
    if i > 0 {
      FirstFitAt(free[1..], size, wanted, i - 1);
    }
  }

  class HeapMemory {
    var next: map<Addr, Addr>          // pxNextFreeBlock
    var size: map<nat, nat>            // xBlockSize of the blocks in the heap
    var freeBytesRemaining: nat
    var initialised: bool              // xHeapHasBeenInitialised
    ghost var free: seq<nat>
    ghost var used: set<nat>

    ghost function Value(): Heap
      reads this
    {
      if initialised then Heap(free, used, size, freeBytesRemaining) else Init()
    }

    ghost predicate Valid()
      reads this
    {
      && Inv(Value())
      && (initialised ==> Chain(next, free))
      && (!initialised ==> freeBytesRemaining == ADJUSTED_HEAP_SIZE && used == {})
    }

    /** The state before the first call of pvPortMalloc. */
    constructor ()
      ensures Valid() && Value() == Init()
    {
      InitInv();
      next, size, freeBytesRemaining, initialised := map[], map[], ADJUSTED_HEAP_SIZE, false;
      free, used := [], {};
    }

    function SizeOf(a: Addr): nat
      requires a.Block? ==> a.offset in size
      reads this
    {
      match a
      case Start => 0
      case End => ADJUSTED_HEAP_SIZE
      case Block(b) => size[b]
    }

    /** prvHeapInit */
    method HeapInit()
      requires Valid() && !initialised
      modifies this
      ensures Valid() && initialised && Value() == old(Value())
    {
      next := map[Start := Block(0), Block(0) := End];
      size := map[0 := ADJUSTED_HEAP_SIZE];
      free := [0];
      initialised := true;
      assert LinkAt(next, free, 0) && LinkAt(next, free, 1);
    }

    /** prvInsertBlockIntoFreeList */
    method InsertBlockIntoFreeList(b: nat)
      requires Chain(next, free) && InOrder(free, size) && b in size && b !in free && size[b] <= ADJUSTED_HEAP_SIZE
      modifies this`next, this`free
      ensures Chain(next, free) && free == BySize(old(free), size, b)
    {
      var at := Start;
      ghost var i := 0;
      assert LinkAt(next, free, 0);
      while SizeOf(next[at]) < size[b]
        invariant i <= |free| && at == Node(free, i) && LinkAt(next, free, i)
        invariant i < |free| ==> free[i] in free
        invariant forall j :: 0 <= j < i ==> size[free[j]] < size[b]
        decreases |free| - i
      {
        at := next[at];
        i := i + 1;
        assert LinkAt(next, free, i);
      }
      BySizeAt(free, size, b, i);
      ChainInsert(next, free, i, b);
      next := next[Block(b) := next[at]][at := Block(b)];
      free := free[..i] + [b] + free[i..];
    }

    /** The search loop of pvPortMalloc: the first adequate block and its predecessor. */
    method FindBlock(wanted: nat) returns (previous: Addr, block: Addr)
      requires Chain(next, free) && InOrder(free, size) && wanted < ADJUSTED_HEAP_SIZE
      ensures previous == Node(free, FirstFit(free, size, wanted))
      ensures block == Node(free, FirstFit(free, size, wanted) + 1)
    {
      ghost var i := 0;
      assert LinkAt(next, free, 0);
      previous, block := Start, next[Start];
      while SizeOf(block) < wanted && block in next
        invariant i <= |free| && previous == Node(free, i) && block == Node(free, i + 1)
        invariant i < |free| ==> free[i] in free
        invariant forall j :: 0 <= j < i ==> size[free[j]] < wanted
        decreases |free| - i
      {
        assert LinkAt(next, free, i + 1);
        previous := block;
        block := next[block];
        i := i + 1;
      }
      assert i < |free| ==> LinkAt(next, free, i + 1);
      FirstFitAt(free, size, wanted, i);
    }

    /** Unlinking the block found, splitting it if it is large. */
    method TakeFound(previous: Addr, b: nat, ghost i: nat, wanted: nat)
      requires Valid() && initialised && i < |free| && b == free[i] && previous == Node(free, i)
      requires 0 < wanted <= size[b] && wanted % ALIGNMENT == 0 && freeBytesRemaining >= size[b]
      modifies this
      ensures Valid() && initialised && Value() == TakeBlock(old(Value()), i, wanted)
    {
      hide Inv, Chain, InOrder, LinkAt, BySize, Init;
      ghost var h := Value();
      TakeKeeps(h, i, wanted);
      ListParts(h);
      BlockParts(h, i);
      RemoveInOrder(free, size, i);
      ChainRemove(next, free, i);
      LinkParts(next, free, i);
      next := next[previous := next[Block(b)]];
      free := free[..i] + free[i + 1..];
      used := used + {b};
      if size[b] - wanted > MINIMUM_BLOCK_SIZE {
        SplitFacts(h, i, wanted, size[b + wanted := size[b] - wanted][b := wanted]);
        size := size[b + wanted := size[b] - wanted][b := wanted];
        InsertBlockIntoFreeList(b + wanted);
      }
      freeBytesRemaining := freeBytesRemaining - size[b];
    }

    /** pvPortMalloc */
    method Malloc(n: nat) returns (r: Option<nat>)
      requires Valid()
      modifies this
      ensures Valid() && (Value(), r) == Heaps.Malloc(old(Value()), n)
    {
      hide Inv, Chain, InOrder, Init, Padded, TakeBlock, FirstFit;
      if !initialised {
        HeapInit();
      }
      var wanted := Padded(n);
      r := None;
      if 0 < wanted < ADJUSTED_HEAP_SIZE {
        ListParts(Value());
        var previous, block := FindBlock(wanted);
        FitParts(Value(), wanted);
        ghost var i := FirstFit(free, size, wanted);
        if block != End {
          PaddedAligned(n);
          FreeBytesCover(Value(), i);
          r := Some(block.offset + STRUCT_SIZE);
          TakeFound(previous, block.offset, i, wanted);
        }
      }
    }

    /** vPortFree */
    method Free(p: Option<nat>)
      requires Valid() && (p.Some? ==> p.value >= STRUCT_SIZE && p.value - STRUCT_SIZE in used)
      modifies this
      ensures Valid()
      ensures Value() == if p.Some? then Heaps.Free(old(Value()), p.value) else old(Value())
    {
      if p.Some? {
        var b := p.value - STRUCT_SIZE;
        assert IsBlock(Value(), b);
        FreeKeeps(Value(), p.value);
        hide Inv;
        ListParts(Value());
        UsedPart(Value(), b);
        InsertBlockIntoFreeList(b);
        used := used - {b};
        freeBytesRemaining := freeBytesRemaining + size[b];
      }
    }
  }

  lemma ListParts(h: Heap)
    requires Inv(h)
    ensures InOrder(h.free, h.size) && NoDup(h.free)
  {
  }

  lemma BlockParts(h: Heap, i: nat)
    requires Inv(h) && i < |h.free|
    ensures h.free[i] in h.size && h.free[i] !in h.free[..i] + h.free[i + 1..]
  {
    RemoveInOrder(h.free, h.size, i);
  }

  lemma FitParts(h: Heap, wanted: nat)
    requires Inv(h)
    ensures (forall x :: x in h.free ==> x in h.size) && FirstFit(h.free, h.size, wanted) <= |h.free|
    ensures var i := FirstFit(h.free, h.size, wanted);
            i < |h.free| ==> h.free[i] in h.free && h.size[h.free[i]] >= wanted
  {
  }

  lemma LinkParts(next: map<Addr, Addr>, free: seq<nat>, i: nat)
    requires i < |free| && LinkAt(next, free, i + 1)
    ensures Block(free[i]) in next && Node(free, i + 1) == Block(free[i])
  {
  }

  lemma UsedPart(h: Heap, b: nat)
    requires Inv(h) && b in h.used
    ensures b in h.size && h.size[b] <= ADJUSTED_HEAP_SIZE && b !in h.free
  {
    assert IsBlock(h, b);
  }

  lemma SplitFacts(h: Heap, i: nat, w: nat, size: map<nat, nat>)
    requires Inv(h) && i < |h.free| && 0 < w < h.size[h.free[i]]
    requires size == h.size[h.free[i] + w := h.size[h.free[i]] - w][h.free[i] := w]
    ensures var rest := h.free[..i] + h.free[i + 1..];
            InOrder(rest, size) && h.free[i] + w !in rest && h.size[h.free[i]] <= ADJUSTED_HEAP_SIZE
  {
    var b := h.free[i];
    assert IsBlock(h, b);
    CutIsNew(h, b, w);
    RemoveInOrder(h.free, h.size, i);
    RestInOrder(h.free[..i] + h.free[i + 1..], h.size, size);
  }
}
