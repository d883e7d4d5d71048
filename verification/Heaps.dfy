/** The allocator of heap_2.c. Addresses are offsets from the aligned start of the heap; a
    block is named by the offset of its header. */
module Heaps {
  import opened Options
  import opened Rings
  import opened SortedLists

  const SIZE_WRAP: nat := 0x1_0000_0000        // size_t has 32 bits
  const ALIGNMENT: nat := 8                     // portBYTE_ALIGNMENT
  const STRUCT_SIZE: nat := 8                   // heapSTRUCT_SIZE
  const MINIMUM_BLOCK_SIZE: nat := 16           // heapMINIMUM_BLOCK_SIZE
  const ADJUSTED_HEAP_SIZE: nat := 20 * 1024 - ALIGNMENT

  /** `free` is the list of free blocks in list order, `used` the blocks handed out. */
  datatype Heap = Heap(free: seq<nat>, used: set<nat>, size: map<nat, nat>, remaining: nat)

  // ---- The operations ----------------------------------------------------------------------

  /** prvHeapInit */
  function Init(): Heap {
    Heap([0], {}, map[0 := ADJUSTED_HEAP_SIZE], ADJUSTED_HEAP_SIZE)
  }

  /** The wanted size with the block header, rounded up to the alignment, in size_t. */
  function Padded(n: nat): nat {
    if n == 0 then 0
    else
      var a := (n + STRUCT_SIZE) % SIZE_WRAP;
      if a % ALIGNMENT == 0 then a else (a + ALIGNMENT - a % ALIGNMENT) % SIZE_WRAP
  }

  /** prvInsertBlockIntoFreeList: before the first block that is not smaller. */
  function BySize(free: seq<nat>, size: map<nat, nat>, b: nat): seq<nat>
    requires b in size && forall x :: x in free ==> x in size
  {
    if free == [] || size[free[0]] >= size[b] then [b] + free else [free[0]] + BySize(free[1..], size, b)
  }

  /** Index of the first adequate block in the free list, or its length. */
  function FirstFit(free: seq<nat>, size: map<nat, nat>, wanted: nat): (i: nat)
    requires forall x :: x in free ==> x in size
    ensures i <= |free| && (i < |free| ==> size[free[i]] >= wanted)
    ensures forall j :: 0 <= j < i ==> size[free[j]] < wanted
  {
    if free == [] || size[free[0]] >= wanted then 0 else 1 + FirstFit(free[1..], size, wanted)
  }

  /** Taking the block at index `i` of the free list, and splitting it if it is large. */
  function TakeBlock(h: Heap, i: nat, wanted: nat): Heap
    requires (forall x :: x in h.free ==> x in h.size) && i < |h.free| && h.size[h.free[i]] >= wanted
    requires h.remaining >= h.size[h.free[i]]
  {
    var b := h.free[i];
    var rest := h.free[..i] + h.free[i + 1..];
    if h.size[b] - wanted > MINIMUM_BLOCK_SIZE then
      var size := h.size[b + wanted := h.size[b] - wanted][b := wanted];
      Heap(BySize(rest, size, b + wanted), h.used + {b}, size, h.remaining - wanted)
    else
      Heap(rest, h.used + {b}, h.size, h.remaining - h.size[b])
  }

  /** pvPortMalloc; the result is the address handed out. */
  function Malloc(h: Heap, n: nat): (r: (Heap, Option<nat>))
    requires Inv(h)
  {
    var wanted := Padded(n);
    if 0 < wanted < ADJUSTED_HEAP_SIZE then
      var i := FirstFit(h.free, h.size, wanted);
      if i < |h.free| then
        FreeBytesCover(h, i);
        (TakeBlock(h, i, wanted), Some(h.free[i] + STRUCT_SIZE))
      else (h, None)
    else (h, None)
  }

  /** vPortFree of an address that was handed out and not freed since. */
  function Free(h: Heap, p: nat): Heap
    requires Inv(h) && p >= STRUCT_SIZE && p - STRUCT_SIZE in h.used
  {
    var b := p - STRUCT_SIZE;
    assert IsBlock(h, b);
    Heap(BySize(h.free, h.size, b), h.used - {b}, h.size, h.remaining + h.size[b])
  }

  // ---- The invariant -------------------------------------------------------------------------

  ghost predicate IsBlock(h: Heap, b: nat) {
    b in h.free || b in h.used
  }

  ghost predicate InBlock(size: map<nat, nat>, b: nat, a: nat) {
    b in size && b <= a < b + size[b]
  }

  ghost predicate Apart(size: map<nat, nat>, b: nat, c: nat) {
    b in size && c in size && (b + size[b] <= c || c + size[c] <= b)
  }

  ghost predicate BlockOk(size: map<nat, nat>, b: nat) {
    b in size && 0 < size[b] && b + size[b] <= ADJUSTED_HEAP_SIZE && b % ALIGNMENT == 0 && size[b] % ALIGNMENT == 0
  }

  /** Free and used blocks are aligned, lie in the heap, do not overlap, and cover it. */
  ghost predicate Tiles(h: Heap) {
    && (forall b :: IsBlock(h, b) ==> BlockOk(h.size, b))
    && (forall b, c :: IsBlock(h, b) && IsBlock(h, c) && b != c ==> Apart(h.size, b, c))
    && (forall a :: 0 <= a < ADJUSTED_HEAP_SIZE ==> Covered(h, a))
  }

  ghost predicate Covered(h: Heap, a: nat) {
    exists b :: IsBlock(h, b) && InBlock(h.size, b, a)
  }

  ghost function Sum(bs: seq<nat>, size: map<nat, nat>): nat
    requires forall b :: b in bs ==> b in size
  {
    if bs == [] then 0 else size[bs[0]] + Sum(bs[1..], size)
  }

  ghost predicate Inv(h: Heap) {
    && Tiles(h)
    && InOrder(h.free, h.size)
    && (forall b :: b in h.free ==> b !in h.used)
    && h.remaining == Sum(h.free, h.size)
  }

  // ---- Sequences of blocks -------------------------------------------------------------------

  lemma {:induction false} BySizeInOrder(free: seq<nat>, size: map<nat, nat>, b: nat)
    requires InOrder(free, size) && b in size && b !in free
    ensures InOrder(BySize(free, size, b), size)
    ensures forall x :: x in BySize(free, size, b) <==> x in free || x == b
    ensures Sum(BySize(free, size, b), size) == Sum(free, size) + size[b]
  {
    hide InOrder;
    OrderDefined(free, size);
    if free == [] {
      ConsInOrder(b, free, size);
    } else {
      TailInOrder(free, size);
      if size[free[0]] >= size[b] {
        ConsInOrder(b, free, size);
        assert ([b] + free)[1..] == free;
      } else {
        var rest := BySize(free[1..], size, b);
        BySizeInOrder(free[1..], size, b);
        ConsInOrder(free[0], rest, size);
        assert ([free[0]] + rest)[1..] == rest;
      }
    }
  }

  lemma RemoveInOrder(bs: seq<nat>, size: map<nat, nat>, i: nat)
    requires InOrder(bs, size) && i < |bs|
    ensures var rest := bs[..i] + bs[i + 1..];
            InOrder(rest, size) && (forall x :: x in rest <==> x in bs && x != bs[i])
  {
    var rest := bs[..i] + bs[i + 1..];
    assert forall k :: 0 <= k < |rest| ==> rest[k] == bs[if k < i then k else k + 1];
    forall x | x in bs && x != bs[i] ensures x in rest {
      var k := IndexOf(bs, x);
      assert rest[if k < i then k else k - 1] == x;
    }
  }

  lemma {:induction false} RemoveSum(bs: seq<nat>, size: map<nat, nat>, i: nat)
    requires (forall b :: b in bs ==> b in size) && i < |bs|
    ensures var rest := bs[..i] + bs[i + 1..];
            (forall b :: b in rest ==> b in size) && Sum(bs, size) == Sum(rest, size) + size[bs[i]]
  {
    var rest := bs[..i] + bs[i + 1..];
    if i == 0 {
      assert rest == bs[1..];
    } else {
      RemoveSum(bs[1..], size, i - 1);
      assert rest[1..] == bs[1..][..i - 1] + bs[1..][i..];
      assert rest[0] == bs[0];
    }
  }

  lemma {:induction false} SumOther(bs: seq<nat>, size: map<nat, nat>, size': map<nat, nat>)
    requires forall b :: b in bs ==> b in size && b in size' && size'[b] == size[b]
    ensures Sum(bs, size') == Sum(bs, size)
  {
    if bs != [] {
      SumOther(bs[1..], size, size');
    }
  }

  lemma FreeBytesCover(h: Heap, i: nat)
    requires Inv(h) && i < |h.free|
    ensures h.remaining >= h.size[h.free[i]]
  {
    RemoveSum(h.free, h.size, i);
  }

  // ---- Preservation --------------------------------------------------------------------------

  lemma InitInv()
    ensures Inv(Init())
  {
    var h := Init();
    assert Sum(h.free, h.size) == ADJUSTED_HEAP_SIZE + Sum([], h.size);
    forall a | 0 <= a < ADJUSTED_HEAP_SIZE ensures Covered(h, a) {
      assert IsBlock(h, 0) && InBlock(h.size, 0, a);
    }
  }

  /** The same blocks with the same sizes tile the heap, whoever has them. */
  lemma SameBlocksTile(h: Heap, h': Heap)
    requires Tiles(h) && h'.size == h.size && forall b :: IsBlock(h', b) <==> IsBlock(h, b)
    ensures Tiles(h')
  {
    forall a | 0 <= a < ADJUSTED_HEAP_SIZE ensures Covered(h', a) {
      assert Covered(h, a);
    }
  }

  lemma AlignedSplit(b: nat, s: nat, w: nat)
    requires b % ALIGNMENT == 0 && s % ALIGNMENT == 0 && w % ALIGNMENT == 0 && w <= s
    ensures (b + w) % ALIGNMENT == 0 && (s - w) % ALIGNMENT == 0
  {
  }

  /** Block `b` is cut at `w` into two blocks. */
  lemma SplitTiles(h: Heap, h': Heap, b: nat, w: nat)
    requires Tiles(h) && IsBlock(h, b) && 0 < w < h.size[b] && w % ALIGNMENT == 0
    requires h'.size == h.size[b + w := h.size[b] - w][b := w]
    requires forall x :: IsBlock(h', x) <==> IsBlock(h, x) || x == b + w
    ensures Tiles(h') && !IsBlock(h, b + w)
    ensures forall x :: IsBlock(h, x) && x != b ==> x in h.size && x in h'.size && h'.size[x] == h.size[x]
  {
    var c := b + w;
    assert BlockOk(h.size, b);
    AlignedSplit(b, h.size[b], w);
    CutIsNew(h, b, w);
    forall x | IsBlock(h', x) ensures BlockOk(h'.size, x) {
      if x != b && x != c { assert BlockOk(h.size, x); }
    }
    forall x, y | IsBlock(h', x) && IsBlock(h', y) && x != y ensures Apart(h'.size, x, y) {
      assert x != b && x != c ==> Apart(h.size, x, b);
      assert y != b && y != c ==> Apart(h.size, y, b);
      assert x != c && y != c ==> Apart(h.size, x, y);
    }
    forall a | 0 <= a < ADJUSTED_HEAP_SIZE ensures Covered(h', a) {
      assert Covered(h, a);
      var x: nat :| IsBlock(h, x) && InBlock(h.size, x, a);
      assert InBlock(h'.size, if x == b && a >= c then c else x, a);
    }
  }

  lemma PaddedAligned(n: nat)
    ensures Padded(n) % ALIGNMENT == 0 && Padded(n) < SIZE_WRAP
  {
  }

  lemma TakeKeeps(h: Heap, i: nat, wanted: nat)
    requires Inv(h) && i < |h.free| && 0 < wanted <= h.size[h.free[i]] && wanted % ALIGNMENT == 0
    ensures h.remaining >= h.size[h.free[i]]
    ensures var h' := TakeBlock(h, i, wanted); var b := h.free[i];
            && Inv(h') && b !in h.used && h'.used == h.used + {b}
            && b in h'.size && wanted <= h'.size[b] <= wanted + MINIMUM_BLOCK_SIZE
            && (forall x :: x in h.used ==> x in h.size && x in h'.size && h'.size[x] == h.size[x])
  {
    var b := h.free[i];
    FreeBytesCover(h, i);
    RemoveInOrder(h.free, h.size, i);
    RemoveSum(h.free, h.size, i);
    var h' := TakeBlock(h, i, wanted);
    var rest := h.free[..i] + h.free[i + 1..];
    if h.size[b] - wanted > MINIMUM_BLOCK_SIZE {
      TakeSplits(h, b, rest, wanted, h');
    } else {
      SameBlocksTile(h, h');
      assert forall x :: x in h.used ==> IsBlock(h, x);
    }
  }

  lemma TakeSplits(h: Heap, b: nat, rest: seq<nat>, w: nat, h': Heap)
    requires Tiles(h) && InOrder(rest, h.size) && b !in rest && IsBlock(h, b) && b !in h.used
    requires 0 < w < h.size[b] && w % ALIGNMENT == 0
    requires forall x :: IsBlock(h, x) <==> x in rest || x in h.used || x == b
    requires forall x :: x in rest ==> x !in h.used
    requires h'.size == h.size[b + w := h.size[b] - w][b := w] && h'.used == h.used + {b}
    requires (forall x :: x in rest ==> x in h'.size) && h'.free == BySize(rest, h'.size, b + w)
    requires h'.remaining == Sum(rest, h.size) + h.size[b] - w
    ensures Inv(h')
    ensures forall x :: x in h.used ==> x in h.size && x in h'.size && h'.size[x] == h.size[x]
  {
    var c := b + w;
    assert !IsBlock(h, c) by { CutIsNew(h, b, w); }
    RestInOrder(rest, h.size, h'.size);
    SumOther(rest, h.size, h'.size);
    BySizeInOrder(rest, h'.size, c);
    SplitTiles(h, h', b, w);
  }

  lemma CutIsNew(h: Heap, b: nat, w: nat)
    requires Tiles(h) && IsBlock(h, b) && 0 < w < h.size[b]
    ensures !IsBlock(h, b + w)
  {
    var c: nat := b + w;
    assert IsBlock(h, c) ==> Apart(h.size, b, c);
  }

  lemma RestInOrder(rest: seq<nat>, size: map<nat, nat>, size': map<nat, nat>)
    requires InOrder(rest, size) && forall x :: x in rest ==> x in size' && size'[x] == size[x]
    ensures InOrder(rest, size')
  {
  }

  lemma FreeKeeps(h: Heap, p: nat)
    requires Inv(h) && p >= STRUCT_SIZE && p - STRUCT_SIZE in h.used
    ensures Inv(Free(h, p))
    ensures forall x :: x in Free(h, p).free <==> x in h.free || x == p - STRUCT_SIZE
  {
    var b := p - STRUCT_SIZE;
    assert IsBlock(h, b);
    BySizeInOrder(h.free, h.size, b);
    SameBlocksTile(h, Free(h, p));
  }

  lemma MallocKeeps(h: Heap, n: nat)
    requires Inv(h)
    ensures Inv(Malloc(h, n).0)
  {
    PaddedAligned(n);
    var wanted := Padded(n);
    if 0 < wanted < ADJUSTED_HEAP_SIZE {
      var i := FirstFit(h.free, h.size, wanted);
      if i < |h.free| {
        TakeKeeps(h, i, wanted);
      }
    }
  }

  // ---- Best fit ------------------------------------------------------------------------------

  /** malloc fails exactly for a padded size of zero, one not below the heap size, or when no
      free block is large enough; otherwise it hands out a smallest adequate free block, which
      is at most the minimum block size larger than asked for, and touches no block in use. */
  lemma MallocIsBestFit(h: Heap, n: nat)
    requires Inv(h)
    ensures var (h', r) := Malloc(h, n); var wanted := Padded(n);
            && (r.None? <==>
                  wanted == 0 || wanted >= ADJUSTED_HEAP_SIZE || forall b :: b in h.free ==> h.size[b] < wanted)
            && (r.None? ==> h' == h)
            && (r.Some? ==> r.value >= STRUCT_SIZE && Allocated(h, h', r.value - STRUCT_SIZE, wanted))
  {
    hide Padded, Tiles, Sum, TakeBlock, InOrder, Allocated;
    PaddedAligned(n);
    OrderDefined(h.free, h.size);
    var wanted := Padded(n);
    if 0 < wanted < ADJUSTED_HEAP_SIZE {
      var i := FirstFit(h.free, h.size, wanted);
      if i < |h.free| {
        FreeBytesCover(h, i);
        assert h.free[i] in h.free;
        FoundIsBest(h, i, wanted);
      } else {
        assert forall b :: b in h.free ==> h.size[b] < wanted;
      }
    }
  }

  lemma FoundIsBest(h: Heap, i: nat, wanted: nat)
    requires Inv(h) && i < |h.free| && i == FirstFit(h.free, h.size, wanted) && 0 < wanted && wanted % ALIGNMENT == 0
    ensures h.remaining >= h.size[h.free[i]] && Allocated(h, TakeBlock(h, i, wanted), h.free[i], wanted)
  {
    hide Tiles, BySize, FirstFit;
    TakeKeeps(h, i, wanted);
    FirstIsSmallest(h.free, h.size, wanted);
    assert h.free[i] in h.free;
  }

  ghost predicate Allocated(h: Heap, h': Heap, b: nat, wanted: nat)
    requires Inv(h)
  {
    && b in h.free && b !in h.used && h'.used == h.used + {b} && b in h'.size
    && h.size[b] >= wanted && (forall c :: c in h.free && h.size[c] >= wanted ==> h.size[b] <= h.size[c])
    && wanted <= h'.size[b] <= wanted + MINIMUM_BLOCK_SIZE
    && h'.remaining + h'.size[b] == h.remaining
    && (forall x :: x in h.used ==> x in h.size && x in h'.size && h'.size[x] == h.size[x])
  }

  lemma FirstIsSmallest(free: seq<nat>, size: map<nat, nat>, wanted: nat)
    requires InOrder(free, size)
    ensures var i := FirstFit(free, size, wanted);
            i < |free| ==> forall c :: c in free && size[c] >= wanted ==> size[free[i]] <= size[c]
  {
    var i := FirstFit(free, size, wanted);
    if i < |free| {
      forall c | c in free && size[c] >= wanted ensures size[free[i]] <= size[c] {
        var k := IndexOf(free, c);
      }
    }
  }

  /** A block goes in front of the first block that is not smaller, so blocks of one size are handed out
      last in, first out. */
  lemma {:induction false} BySizePlaces(free: seq<nat>, size: map<nat, nat>, b: nat)
    requires b in size && forall x :: x in free ==> x in size
    ensures var i := FirstFit(free, size, size[b]); BySize(free, size, b) == free[..i] + [b] + free[i..]
  {
    if free != [] && size[free[0]] < size[b] {
      BySizePlaces(free[1..], size, b);
      FurtherOn(free, b, FirstFit(free[1..], size, size[b]));
    } else {
      assert free[..0] + [b] + free[0..] == [b] + free;
    }
  }

  lemma FurtherOn(free: seq<nat>, b: nat, i: nat)
    requires i < |free|
    ensures free[..i + 1] + [b] + free[i + 1..] == [free[0]] + (free[1..][..i] + [b] + free[1..][i..])
  {
  }

  /** The block handed out is the first adequate one in the list. It keeps its size if what it has too
      much is no more than the minimum block size; otherwise it is cut to the wanted size and the rest
      is one new free block. No other block changes its size or its state. */
  ghost predicate Handed(h: Heap, h': Heap, i: nat, wanted: nat)
    requires (forall x :: x in h.free ==> x in h.size) && i < |h.free|
  {
    var b, spare := h.free[i], h.size[h.free[i]] - wanted;
    && spare >= 0 && (forall j :: 0 <= j < i ==> h.size[h.free[j]] < wanted) && h'.used == h.used + {b}
    && if spare <= MINIMUM_BLOCK_SIZE
       then && h'.size == h.size && h'.remaining == h.remaining - h.size[b]
            && (forall x :: x in h'.free <==> x in h.free && x != b)
       else && b + wanted !in h.free && h'.size == h.size[b + wanted := spare][b := wanted]
            && h'.remaining == h.remaining - wanted
            && (forall x :: x in h'.free <==> (x in h.free && x != b) || x == b + wanted)
  }

  lemma MallocHands(h: Heap, n: nat)
    requires Inv(h) && Malloc(h, n).1.Some?
    ensures forall x :: x in h.free ==> x in h.size
    ensures var i := FirstFit(h.free, h.size, Padded(n));
            i < |h.free| && Malloc(h, n).1.value == h.free[i] + STRUCT_SIZE && Handed(h, Malloc(h, n).0, i, Padded(n))
  {
    hide Padded, Tiles, Sum, TakeBlock, InOrder, Handed;
    PaddedAligned(n);
    OrderDefined(h.free, h.size);
    var i := FirstFit(h.free, h.size, Padded(n));
    FreeBytesCover(h, i);
    TakenIs(h, i, Padded(n));
  }

  lemma TakenIs(h: Heap, i: nat, wanted: nat)
    requires Inv(h) && i < |h.free| && 0 < wanted <= h.size[h.free[i]] && h.remaining >= h.size[h.free[i]]
    requires forall j :: 0 <= j < i ==> h.size[h.free[j]] < wanted
    ensures Handed(h, TakeBlock(h, i, wanted), i, wanted)
  {
    hide Tiles, InOrder, Sum, BySize;
    var b := h.free[i];
    var rest := h.free[..i] + h.free[i + 1..];
    RemoveInOrder(h.free, h.size, i);
    OrderDefined(h.free, h.size);
    if h.size[b] - wanted > MINIMUM_BLOCK_SIZE {
      RestIn(h, rest, b, wanted);
    }
  }

  lemma RestIn(h: Heap, rest: seq<nat>, b: nat, w: nat)
    requires Inv(h) && b in h.free && InOrder(rest, h.size) && b in h.size && 0 < w < h.size[b]
    requires forall x :: x in rest <==> x in h.free && x != b
    ensures b + w !in h.free && (forall x :: x in rest ==> x in h.size)
    ensures forall x :: x in BySize(rest, h.size[b + w := h.size[b] - w][b := w], b + w) <==> x in rest || x == b + w
  {
    hide Sum, BySize;
    CutIsNew(h, b, w);
    OrderDefined(rest, h.size);
    RestOrder(rest, h.size, b, w);
    BySizeInOrder(rest, h.size[b + w := h.size[b] - w][b := w], b + w);
  }

  lemma RestOrder(rest: seq<nat>, size: map<nat, nat>, b: nat, w: nat)
    requires InOrder(rest, size) && b in size && 0 < w < size[b] && b !in rest && b + w !in rest
    ensures InOrder(rest, size[b + w := size[b] - w][b := w])
  {
  }

  /** A freed block is free, in its place by size, and nothing else changes. */
  lemma FreeReturns(h: Heap, p: nat)
    requires Inv(h) && p >= STRUCT_SIZE && p - STRUCT_SIZE in h.used
    ensures p - STRUCT_SIZE in h.size && forall x :: x in h.free ==> x in h.size
    ensures var h', b := Free(h, p), p - STRUCT_SIZE; var i := FirstFit(h.free, h.size, h.size[b]);
            && h'.free == h.free[..i] + [b] + h.free[i..] && h'.used == h.used - {b} && b !in h'.used
            && h'.size == h.size && h'.remaining == h.remaining + h.size[b]
  {
    hide Tiles, InOrder, BySize, FirstFit;
    UsedNotFree(h, p - STRUCT_SIZE);
    OrderDefined(h.free, h.size);
    BySizePlaces(h.free, h.size, p - STRUCT_SIZE);
  }

  /** The memory handed out holds the requested size if and only if the size with the header
      does not wrap size_t. */
  lemma CapacityIff(h: Heap, n: nat)
    requires Inv(h) && n < SIZE_WRAP && Malloc(h, n).1.Some?
    ensures var (h', r) := Malloc(h, n);
            && r.value >= STRUCT_SIZE && r.value - STRUCT_SIZE in h'.size
            && (h'.size[r.value - STRUCT_SIZE] >= n + STRUCT_SIZE <==> n + STRUCT_SIZE <= SIZE_WRAP)
  {
    MallocIsBestFit(h, n);
    PaddedSize(n);
    hide Padded;
  }

  lemma PaddedSize(n: nat)
    requires n < SIZE_WRAP
    ensures n + STRUCT_SIZE > SIZE_WRAP ==> Padded(n) == STRUCT_SIZE
    ensures 0 < n && n + STRUCT_SIZE <= SIZE_WRAP - ALIGNMENT ==>
              n + STRUCT_SIZE <= Padded(n) < n + STRUCT_SIZE + ALIGNMENT
    ensures SIZE_WRAP - ALIGNMENT < n + STRUCT_SIZE <= SIZE_WRAP ==> Padded(n) == 0
    ensures n == 0 ==> Padded(n) == 0
  {
  }

  /** The largest request: the size wraps and a block with no room at all is handed out. */
  lemma WrappedRequestGetsNothing()
    ensures Inv(Init()) && var (h', r) := Malloc(Init(), SIZE_WRAP - 1);
            r == Some(STRUCT_SIZE) && 0 in h'.size && h'.size[0] == STRUCT_SIZE
  {
    InitInv();
    PaddedSize(SIZE_WRAP - 1);
  }

  // ---- Runs ----------------------------------------------------------------------------------

  datatype Op = Alloc(n: nat) | Release(p: nat)

  /** Only an address that was handed out and not freed since is freed. */
  ghost predicate Allowed(h: Heap, op: Op) {
    op.Release? ==> op.p >= STRUCT_SIZE && op.p - STRUCT_SIZE in h.used
  }

  function Step(h: Heap, op: Op): (h': Heap)
    requires Inv(h) && Allowed(h, op)
    ensures Inv(h')
  {
    match op
    case Alloc(n) => MallocKeeps(h, n); Malloc(h, n).0
    case Release(p) => FreeKeeps(h, p); Free(h, p)
  }

  ghost predicate ValidRun(h: Heap, ops: seq<Op>)
    requires Inv(h)
    decreases |ops|
  {
    ops == [] || (Allowed(h, ops[0]) && ValidRun(Step(h, ops[0]), ops[1..]))
  }

  ghost function Run(h: Heap, ops: seq<Op>): (h': Heap)
    requires Inv(h) && ValidRun(h, ops)
    ensures Inv(h')
    decreases |ops|
  {
    if ops == [] then h else Run(Step(h, ops[0]), ops[1..])
  }

  ghost function SetSum(bs: set<nat>, size: map<nat, nat>): nat
    requires forall b :: b in bs ==> b in size
    decreases |bs|
  {
    if bs == {} then 0
    else
      var b :| b in bs;
      size[b] + SetSum(bs - {b}, size)
  }

  lemma {:induction false} SetSumTake(bs: set<nat>, size: map<nat, nat>, x: nat)
    requires (forall b :: b in bs ==> b in size) && x in bs
    ensures SetSum(bs, size) == size[x] + SetSum(bs - {x}, size)
    decreases |bs|
  {
    var b :| b in bs && SetSum(bs, size) == size[b] + SetSum(bs - {b}, size);
    if b != x {
      SetSumTake(bs - {b}, size, x);
      SetSumTake(bs - {x}, size, b);
      assert bs - {b} - {x} == bs - {x} - {b};
    }
  }

  lemma {:induction false} SetSumOther(bs: set<nat>, size: map<nat, nat>, size': map<nat, nat>)
    requires forall b :: b in bs ==> b in size && b in size' && size'[b] == size[b]
    ensures SetSum(bs, size') == SetSum(bs, size)
    decreases |bs|
  {
    if bs != {} {
      var b :| b in bs && SetSum(bs, size) == size[b] + SetSum(bs - {b}, size);
      SetSumTake(bs, size', b);
      SetSumOther(bs - {b}, size, size');
    }
  }

  ghost predicate Conserved(h: Heap)
    requires Inv(h)
  {
    UsedDefined(h);
    h.remaining + SetSum(h.used, h.size) == ADJUSTED_HEAP_SIZE
  }

  lemma UsedDefined(h: Heap)
    requires Inv(h)
    ensures forall b :: b in h.used ==> b in h.size
  {
    forall b | b in h.used ensures b in h.size {
      assert IsBlock(h, b);
    }
  }

  lemma StepConserves(h: Heap, op: Op)
    requires Inv(h) && Allowed(h, op) && Conserved(h)
    ensures Conserved(Step(h, op))
  {
    hide Inv, Malloc, Free, Conserved;
    match op
    case Alloc(n) => MallocKeeps(h, n); AllocConserves(h, n);
    case Release(p) => FreeKeeps(h, p); FreeConserves(h, p);
  }

  lemma AllocConserves(h: Heap, n: nat)
    requires Inv(h) && Conserved(h) && Inv(Malloc(h, n).0)
    ensures Conserved(Malloc(h, n).0)
  {
    hide Malloc, Inv;
    var h' := Malloc(h, n).0;
    UsedDefined(h);
    UsedDefined(h');
    MallocIsBestFit(h, n);
    if Malloc(h, n).1.Some? {
      var b := Malloc(h, n).1.value - STRUCT_SIZE;
      SetSumTake(h'.used, h'.size, b);
      assert h'.used - {b} == h.used;
      SetSumOther(h.used, h.size, h'.size);
    }
  }

  lemma FreeConserves(h: Heap, p: nat)
    requires Inv(h) && Conserved(h) && p >= STRUCT_SIZE && p - STRUCT_SIZE in h.used && Inv(Free(h, p))
    ensures Conserved(Free(h, p))
  {
    hide Inv, BySize;
    UsedDefined(h);
    UsedDefined(Free(h, p));
    SetSumTake(h.used, h.size, p - STRUCT_SIZE);
  }

  lemma {:induction false} RunConserves(h: Heap, ops: seq<Op>)
    requires Inv(h) && ValidRun(h, ops) && Conserved(h)
    ensures Conserved(Run(h, ops))
    decreases |ops|
  {
    hide Inv, Step, Conserved;
    if ops != [] {
      StepConserves(h, ops[0]);
      RunConserves(Step(h, ops[0]), ops[1..]);
    }
  }

  /** Over every run of allocations and correct frees, the free and used blocks tile the heap
      without overlap, everything is aligned, the free list is in order of size, the count of
      free bytes is the sum of the free blocks, and free and used bytes make up the heap. */
  lemma HeapPartition(ops: seq<Op>)
    requires (InitInv(); ValidRun(Init(), ops))
    ensures var h := (InitInv(); Run(Init(), ops));
            && Tiles(h) && InOrder(h.free, h.size) && h.remaining == Sum(h.free, h.size) && Conserved(h)
  {
    InitInv();
    assert Init().used == {};
    RunConserves(Init(), ops);
  }

  // ---- Freeing gives back what was taken -------------------------------------------------------

  ghost predicate AllReleases(ops: seq<Op>) {
    forall op :: op in ops ==> op.Release?
  }

  lemma {:induction false} FreedStaysFree(h: Heap, ops: seq<Op>, b: nat)
    requires Inv(h) && ValidRun(h, ops) && AllReleases(ops) && b in h.size
    requires b in h.free || (b in h.used && Release(b + STRUCT_SIZE) in ops)
    ensures var h' := Run(h, ops); b in h'.free && b in h'.size && h'.size[b] == h.size[b]
    decreases |ops|
  {
    hide Inv, BySize, Free;
    if ops != [] {
      assert ops[0] in ops;
      FreeKeeps(h, ops[0].p);
      FreedOne(h, ops[0].p, b);
      assert ops == [ops[0]] + ops[1..];
      FreedStaysFree(Step(h, ops[0]), ops[1..], b);
    }
  }

  lemma FreedOne(h: Heap, p: nat, b: nat)
    requires Inv(h) && p >= STRUCT_SIZE && p - STRUCT_SIZE in h.used
    ensures var h' := Free(h, p);
            && h'.size == h.size && h'.used == h.used - {p - STRUCT_SIZE}
            && (b in h'.free <==> b in h.free || b == p - STRUCT_SIZE)
  {
    hide Tiles, InOrder, BySize;
    UsedNotFree(h, p - STRUCT_SIZE);
    BySizeInOrder(h.free, h.size, p - STRUCT_SIZE);
  }

  lemma UsedNotFree(h: Heap, b: nat)
    requires Inv(h) && b in h.used
    ensures b !in h.free && b in h.size && InOrder(h.free, h.size)
  {
    hide InOrder;
    assert IsBlock(h, b);
  }

  /** A request that succeeded and was freed succeeds again when only frees came between. */
  lemma MallocSucceedsAgain(h: Heap, n: nat, ops: seq<Op>)
    requires Inv(h) && Malloc(h, n).1.Some?
    requires (MallocKeeps(h, n); ValidRun(Malloc(h, n).0, ops)) && AllReleases(ops)
    requires Release(Malloc(h, n).1.value) in ops
    ensures var h' := (MallocKeeps(h, n); Run(Malloc(h, n).0, ops)); Malloc(h', n).1.Some?
  {
    hide Malloc, Inv, Padded, Run, ValidRun;
    MallocKeeps(h, n);
    MallocIsBestFit(h, n);
    var (h1, r) := Malloc(h, n);
    FreedStaysFree(h1, ops, r.value - STRUCT_SIZE);
    MallocIsBestFit(Run(h1, ops), n);
  }
}
