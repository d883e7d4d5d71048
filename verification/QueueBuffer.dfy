/** The storage area of a queue: items of `itemSize` bytes copied in and out of one array, with
    byte offsets for pcWriteTo and pcReadFrom, proved to be the ring buffer of slots. */
module QueueBuffer {
  import opened QueueStorage

  type Byte = bv8
  type Item = seq<Byte>

  lemma SlotInside(k: nat, n: nat, size: nat)
    requires k < n
    ensures 0 <= k * size <= k * size + size <= n * size && k * size + size == (k + 1) * size
  {
    SlotOrder(k + 1, n, size);
  }

  lemma SlotOrder(j: nat, k: nat, size: nat)
    requires j <= k
    ensures j * size <= k * size
  {
  }

  lemma SlotsApart(j: nat, k: nat, size: nat)
    requires j != k
    ensures j * size + size <= k * size || k * size + size <= j * size
  {
    if j < k {
      SlotOrder(j + 1, k, size);
      assert (j + 1) * size == j * size + size;
    } else {
      SlotOrder(k + 1, j, size);
      assert (k + 1) * size == k * size + size;
    }
  }

  class QueueBuffer {
    const length: nat
    const itemSize: nat
    const bytes: array<Byte>
    var writeTo: nat
    var readFrom: nat
    var messagesWaiting: nat
    ghost var write: nat
    ghost var read: nat

    /** The bytes of slot `k`. */
    ghost function Slot(k: nat): Item
      requires bytes.Length == length * itemSize && k < length
      reads bytes
    {
      SlotInside(k, length, itemSize);
      bytes[k * itemSize..k * itemSize + itemSize]
    }

    ghost function Slots(): (slots: seq<Item>)
      requires bytes.Length == length * itemSize
      reads bytes
      ensures |slots| == length && forall k :: 0 <= k < length ==> slots[k] == Slot(k)
    {
      seq(length, k requires 0 <= k < length && bytes.Length == length * itemSize reads bytes => Slot(k))
    }

    ghost function Value(): Buffer<Item>
      requires bytes.Length == length * itemSize
      reads this, bytes
    {
      Buffer(Slots(), read, write, messagesWaiting)
    }

    /** The offsets stand on item boundaries inside the storage area. */
    ghost predicate Ok()
      reads this, bytes
    {
      && itemSize > 0 && bytes.Length == length * itemSize
      && Valid(Value())
      && writeTo == write * itemSize && readFrom == read * itemSize
    }

    constructor (length: nat, itemSize: nat)
      requires length > 0 && itemSize > 0
      ensures Ok() && Contents(Value()) == [] && this.length == length && this.itemSize == itemSize && fresh(bytes)
    {
      this.length, this.itemSize := length, itemSize;
      bytes := new Byte[length * itemSize];
      messagesWaiting, writeTo, write := 0, 0, 0;
      readFrom, read := (length - 1) * itemSize, length - 1;
    }

    /** memcpy of an item to an offset of the storage area. */
    method CopyBytes(offset: nat, item: Item)
      requires offset + |item| <= bytes.Length
      modifies bytes
      ensures bytes[offset..offset + |item|] == item
      ensures bytes[..offset] == old(bytes[..offset]) && bytes[offset + |item|..] == old(bytes[offset + |item|..])
    {
      var i := 0;
      while i < |item|
        invariant i <= |item|
        invariant bytes[offset..offset + i] == item[..i]
        invariant bytes[..offset] == old(bytes[..offset])
        invariant bytes[offset + |item|..] == old(bytes[offset + |item|..])
      {
        bytes[offset + i] := item[i];
        i := i + 1;
      }
    }

    /** The item is copied into slot `k`. */
    method CopyIn(offset: nat, item: Item, ghost k: nat)
      requires bytes.Length == length * itemSize && k < length && offset == k * itemSize && |item| == itemSize
      modifies bytes
      ensures Slot(k) == item && forall j :: 0 <= j < length && j != k ==> Slot(j) == old(Slot(j))
    {
      SlotInside(k, length, itemSize);
      CopyBytes(offset, item);
      forall j | 0 <= j < length && j != k ensures Slot(j) == old(Slot(j)) {
        SlotInside(j, length, itemSize);
        SlotsApart(j, k, itemSize);
        OtherSlot(bytes[..], old(bytes[..]), offset, itemSize, j * itemSize);
      }
    }

    /** prvCopyDataToQueue, queueSEND_TO_BACK */
    method SendBack(item: Item)
      requires Ok() && |item| == itemSize && messagesWaiting < length
      modifies this`writeTo, this`write, this`messagesWaiting, bytes
      ensures Ok() && Value() == SendToBack(old(Value()), item) && Contents(Value()) == old(Contents(Value())) + [item]
    {
      SendToBackAppends(Value(), item);
      SlotInside(write, length, itemSize);
      CopyIn(writeTo, item, write);
      assert Value().slots == old(Value()).slots[write := item];
      writeTo := writeTo + itemSize;
      AtEnd(write, length, itemSize);
      write := After(write, length);
      if writeTo >= bytes.Length {
        writeTo := 0;
      }
      messagesWaiting := messagesWaiting + 1;
    }

    /** prvCopyDataToQueue, queueSEND_TO_FRONT and queueOVERWRITE */
    method SendFront(item: Item, overwrite: bool)
      requires Ok() && |item| == itemSize && (if overwrite then length == 1 else messagesWaiting < length)
      modifies this`readFrom, this`read, this`messagesWaiting, bytes
      ensures Ok() && Value() == SendToFront(old(Value()), item, overwrite)
      ensures Contents(Value()) == if overwrite then [item] else [item] + old(Contents(Value()))
    {
      if overwrite { OverwriteReplaces(Value(), item); } else { SendToFrontPrepends(Value(), item); }
      SlotInside(read, length, itemSize);
      CopyIn(readFrom, item, read);
      assert Value().slots == old(Value()).slots[read := item];
      StartOf(read, length, itemSize);
      if readFrom < itemSize {
        readFrom := bytes.Length - itemSize;
      } else {
        readFrom := readFrom - itemSize;
      }
      read := Before(read, length);
      if overwrite && messagesWaiting > 0 {
        messagesWaiting := messagesWaiting - 1;
      }
      messagesWaiting := messagesWaiting + 1;
    }

    /** prvCopyDataFromQueue */
    method CopyOut() returns (item: Item)
      requires Ok() && messagesWaiting > 0
      modifies this`readFrom, this`read
      ensures bytes.Length == length * itemSize && (Value(), item) == CopyFrom(old(Value()))
      ensures readFrom == read * itemSize
    {
      SlotInside(read, length, itemSize);
      AtEnd(read, length, itemSize);
      readFrom := readFrom + itemSize;
      if readFrom >= bytes.Length {
        readFrom := 0;
      }
      read := After(read, length);
      SlotInside(read, length, itemSize);
      item := bytes[readFrom..readFrom + itemSize];
      assert item == Slot(read);
      assert Value().slots == old(Value()).slots;
    }

    /** The storage part of xQueueReceive. */
    method ReceiveItem() returns (item: Item)
      requires Ok() && messagesWaiting > 0
      modifies this`readFrom, this`read, this`messagesWaiting
      ensures Ok() && (Value(), item) == Receive(old(Value()))
      ensures item == old(Contents(Value()))[0] && Contents(Value()) == old(Contents(Value()))[1..]
    {
      hide Valid, Contents;
      ReceiveTakesFirst(Value());
      item := CopyOut();
      messagesWaiting := messagesWaiting - 1;
    }

    /** The storage part of xQueuePeek. */
    method PeekItem() returns (item: Item)
      requires Ok() && messagesWaiting > 0
      modifies this`readFrom, this`read
      ensures Ok() && (Value(), item) == Peek(old(Value()))
      ensures item == old(Contents(Value()))[0] && Contents(Value()) == old(Contents(Value()))
    {
      hide Valid, Contents;
      PeekLeavesAll(Value());
      var original := readFrom;
      ghost var originalRead := read;
      item := CopyOut();
      readFrom, read := original, originalRead;
    }

    /** The storage part of xQueueGenericReset. */
    method ResetBuffer()
      requires Ok()
      modifies this`readFrom, this`read, this`writeTo, this`write, this`messagesWaiting
      ensures Ok() && Value() == Reset(old(Value())) && Contents(Value()) == []
    {
      ResetEmpties(Value());
      messagesWaiting, writeTo, write := 0, 0, 0;
      readFrom, read := (length - 1) * itemSize, length - 1;
    }
  }

  lemma OtherSlot(now: seq<Byte>, was: seq<Byte>, offset: nat, size: nat, at: nat)
    requires |now| == |was| && offset + size <= |now| && at + size <= |now|
    requires now[..offset] == was[..offset] && now[offset + size..] == was[offset + size..]
    requires at + size <= offset || offset + size <= at
    ensures now[at..at + size] == was[at..at + size]
  {
    forall k | at <= k < at + size ensures now[k] == was[k] {
      if at + size <= offset {
        assert now[..offset][k] == was[..offset][k];
      } else {
        assert now[offset + size..][k - offset - size] == was[offset + size..][k - offset - size];
      }
    }
  }

  /** Moving one item on reaches the end of the storage area only from the last slot. */
  lemma AtEnd(k: nat, n: nat, size: nat)
    requires k < n && size > 0
    ensures k * size + size >= n * size <==> k + 1 == n
    ensures k + 1 < n ==> k * size + size == After(k, n) * size
  {
    assert (k + 1) * size == k * size + size;
    if k + 1 < n {
      SlotInside(k + 1, n, size);
    }
  }

  /** Moving one item back leaves the storage area only from the first slot. */
  lemma StartOf(k: nat, n: nat, size: nat)
    requires k < n && size > 0
    ensures k * size < size <==> k == 0
    ensures Before(k, n) * size == if k == 0 then n * size - size else k * size - size
  {
    assert (n - 1) * size == n * size - size;
    if k > 0 {
      SlotOrder(1, k, size);
      assert (k - 1) * size == k * size - size;
    }
  }
}
