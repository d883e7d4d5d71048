/** The ring buffer of queue.c by item slots, and the bounded deque it stands for. `read` is the
    slot before the front item (pcReadFrom) and `write` the slot after the last one (pcWriteTo). */
module QueueStorage {
  datatype Buffer<T> = Buffer(slots: seq<T>, read: nat, write: nat, count: nat)

  /** The slot after `i`, going back to the start of the storage area at its end. */
  function After(i: nat, n: nat): nat {
    if i + 1 >= n then 0 else i + 1
  }

  function Before(i: nat, n: nat): nat
    requires n > 0
  {
    if i == 0 then n - 1 else i - 1
  }

  /** Slot number `i` counted from `start`, around the ring. */
  function Around(start: nat, i: nat, n: nat): nat {
    if start + i < n then start + i else start + i - n
  }

  ghost predicate Valid<T>(b: Buffer<T>) {
    var n := |b.slots|;
    && n > 0 && b.read < n && b.write < n && b.count <= n
    && b.write == Around(After(b.read, n), b.count, n) % n
  }

  /** The items in the order in which they will be received. */
  ghost function Contents<T>(b: Buffer<T>): (items: seq<T>)
    requires Valid(b)
    ensures |items| == b.count
  {
    seq(b.count, i requires 0 <= i < b.count => b.slots[Around(After(b.read, |b.slots|), i, |b.slots|)])
  }

  // ---- queue.c -----------------------------------------------------------------------------

  /** xQueueGenericReset: the storage keeps its bytes. */
  function Reset<T>(b: Buffer<T>): Buffer<T>
    requires |b.slots| > 0
  {
    b.(count := 0, write := 0, read := |b.slots| - 1)
  }

  /** prvCopyDataToQueue at the back. */
  function SendToBack<T>(b: Buffer<T>, x: T): Buffer<T>
    requires Valid(b)
  {
    b.(slots := b.slots[b.write := x], write := After(b.write, |b.slots|), count := b.count + 1)
  }

  /** prvCopyDataToQueue at the front, or over the item in a queue of length 1. */
  function SendToFront<T>(b: Buffer<T>, x: T, overwrite: bool): Buffer<T>
    requires Valid(b)
  {
    b.(slots := b.slots[b.read := x], read := Before(b.read, |b.slots|),
       count := (if overwrite && b.count > 0 then b.count - 1 else b.count) + 1)
  }

  /** prvCopyDataFromQueue: the read pointer moves on and that item is copied out. */
  function CopyFrom<T>(b: Buffer<T>): (r: (Buffer<T>, T))
    requires Valid(b)
  {
    var read := After(b.read, |b.slots|);
    (b.(read := read), b.slots[read])
  }

  function Receive<T>(b: Buffer<T>): (r: (Buffer<T>, T))
    requires Valid(b) && b.count > 0
  {
    var (b1, x) := CopyFrom(b);
    (b1.(count := b.count - 1), x)
  }

  /** xQueuePeek: the read pointer is put back after the copy. */
  function Peek<T>(b: Buffer<T>): (r: (Buffer<T>, T))
    requires Valid(b) && b.count > 0
  {
    var (b1, x) := CopyFrom(b);
    (b1.(read := b.read), x)
  }

  // ---- Each operation is the deque operation -------------------------------------------------

  lemma AroundMod(s: nat, i: nat, n: nat)
    requires s < n && i <= n
    ensures Around(s, i, n) <= n && Around(s, i, n) % n == if Around(s, i, n) == n then 0 else Around(s, i, n)
    ensures i < n ==> Around(s, i, n) < n
  {
  }

  lemma ResetEmpties<T>(b: Buffer<T>)
    requires |b.slots| > 0
    ensures Valid(Reset(b)) && Contents(Reset(b)) == []
  {
  }

  lemma SendToBackAppends<T>(b: Buffer<T>, x: T)
    requires Valid(b) && b.count < |b.slots|
    ensures var b' := SendToBack(b, x); Valid(b') && Contents(b') == Contents(b) + [x]
  {
    var n, s := |b.slots|, After(b.read, |b.slots|);
    AroundMod(s, b.count, n);
    AroundMod(s, b.count + 1, n);
    var b' := SendToBack(b, x);
    assert b.write == Around(s, b.count, n);
    assert Valid(b');
    forall i | 0 <= i < b.count ensures Contents(b')[i] == Contents(b)[i] {
      assert Around(s, i, n) != b.write;
    }
  }

  lemma SendToFrontPrepends<T>(b: Buffer<T>, x: T)
    requires Valid(b) && b.count < |b.slots|
    ensures var b' := SendToFront(b, x, false); Valid(b') && Contents(b') == [x] + Contents(b)
  {
    var n, s := |b.slots|, After(b.read, |b.slots|);
    var b' := SendToFront(b, x, false);
    assert After(b'.read, n) == b.read;
    AroundMod(s, b.count, n);
    AroundMod(b.read, b.count + 1, n);
    assert Valid(b');
    forall i | 0 <= i < b.count ensures Contents(b')[i + 1] == Contents(b)[i] {
      assert Around(b.read, i + 1, n) == Around(s, i, n) != b.read;
    }
  }

  lemma OverwriteReplaces<T>(b: Buffer<T>, x: T)
    requires Valid(b) && |b.slots| == 1
    ensures var b' := SendToFront(b, x, true); Valid(b') && Contents(b') == [x]
  {
  }

  lemma ReceiveTakesFirst<T>(b: Buffer<T>)
    requires Valid(b) && b.count > 0
    ensures var (b', x) := Receive(b);
            Valid(b') && x == Contents(b)[0] && Contents(b') == Contents(b)[1..]
  {
    var n, s := |b.slots|, After(b.read, |b.slots|);
    AroundMod(s, b.count, n);
    AroundMod(After(s, n), b.count - 1, n);
    var b' := Receive(b).0;
    assert Valid(b');
    forall i | 0 <= i < b.count - 1 ensures Contents(b')[i] == Contents(b)[i + 1] {
      assert Around(After(s, n), i, n) == Around(s, i + 1, n);
    }
  }

  lemma PeekLeavesAll<T>(b: Buffer<T>)
    requires Valid(b) && b.count > 0
    ensures Peek(b) == (b, Contents(b)[0])
  {
  }

  // ---- Runs ----------------------------------------------------------------------------------

  datatype Op<T> = Back(x: T) | Front(x: T) | Overwrite(x: T) | Take | Look | Clear

  /** pdPASS or errQUEUE_FULL of a send, the item or errQUEUE_EMPTY of a receive or peek. */
  datatype Reply<T> = Sent | Full | Got(x: T) | Empty

  /** What the operations mean on a deque with room for `n` items; a failed one changes nothing. */
  function DequeStep<T>(items: seq<T>, n: nat, op: Op<T>): (seq<T>, Reply<T>) {
    match op
    case Back(x) => if |items| < n then (items + [x], Sent) else (items, Full)
    case Front(x) => if |items| < n then ([x] + items, Sent) else (items, Full)
    case Overwrite(x) => ([x], Sent)
    case Take => if items == [] then (items, Empty) else (items[1..], Got(items[0]))
    case Look => if items == [] then (items, Empty) else (items, Got(items[0]))
    case Clear => ([], Sent)
  }

  function BufferStep<T>(b: Buffer<T>, op: Op<T>): (Buffer<T>, Reply<T>)
    requires Valid(b)
  {
    match op
    case Back(x) => if b.count < |b.slots| then (SendToBack(b, x), Sent) else (b, Full)
    case Front(x) => if b.count < |b.slots| then (SendToFront(b, x, false), Sent) else (b, Full)
    case Overwrite(x) => (SendToFront(b, x, true), Sent)
    case Take => if b.count == 0 then (b, Empty) else var (b', x) := Receive(b); (b', Got(x))
    case Look => if b.count == 0 then (b, Empty) else var (b', x) := Peek(b); (b', Got(x))
    case Clear => (Reset(b), Sent)
  }

  /** Overwriting is for queues of length 1. */
  ghost predicate OpAllowed<T>(n: nat, op: Op<T>) {
    op.Overwrite? ==> n == 1
  }

  lemma StepRefines<T>(b: Buffer<T>, op: Op<T>)
    requires Valid(b) && OpAllowed(|b.slots|, op)
    ensures var (b', r) := BufferStep(b, op);
            && Valid(b') && |b'.slots| == |b.slots|
            && (Contents(b'), r) == DequeStep(Contents(b), |b.slots|, op)
  {
    hide Valid, Contents;
    Bounds(b);
    match op
    case Back(x) => if b.count < |b.slots| { SendToBackAppends(b, x); }
    case Front(x) => if b.count < |b.slots| { SendToFrontPrepends(b, x); }
    case Overwrite(x) => OverwriteReplaces(b, x);
    case Take => if b.count > 0 { ReceiveTakesFirst(b); }
    case Look => if b.count > 0 { PeekLeavesAll(b); }
    case Clear => ResetEmpties(b);
  }

  lemma Bounds<T>(b: Buffer<T>)
    requires Valid(b)
    ensures b.read < |b.slots| && b.write < |b.slots| && 0 < |b.slots| && b.count <= |b.slots|
  {
  }

  ghost function BufferRun<T>(b: Buffer<T>, ops: seq<Op<T>>): (r: (Buffer<T>, seq<Reply<T>>))
    requires Valid(b) && forall op :: op in ops ==> OpAllowed(|b.slots|, op)
    ensures Valid(r.0)
    decreases |ops|
  {
    if ops == [] then (b, [])
    else
      StepRefines(b, ops[0]);
      var (b', r) := BufferStep(b, ops[0]);
      assert forall op :: op in ops[1..] ==> op in ops;
      var (end, rs) := BufferRun(b', ops[1..]);
      (end, [r] + rs)
  }

  ghost function DequeRun<T>(items: seq<T>, n: nat, ops: seq<Op<T>>): (seq<T>, seq<Reply<T>>)
    decreases |ops|
  {
    if ops == [] then (items, [])
    else
      var (items', r) := DequeStep(items, n, ops[0]);
      var (end, rs) := DequeRun(items', n, ops[1..]);
      (end, [r] + rs)
  }

  /** For every sequence of operations the ring buffer replies as the deque does, failures included,
      and ends with the deque's items, counted by uxMessagesWaiting. */
  lemma {:induction false} StorageRefinesDeque<T>(b: Buffer<T>, ops: seq<Op<T>>)
    requires Valid(b) && forall op :: op in ops ==> OpAllowed(|b.slots|, op)
    ensures var (end, replies) := BufferRun(b, ops);
            (Contents(end), replies) == DequeRun(Contents(b), |b.slots|, ops) && end.count == |Contents(end)|
    decreases |ops|
  {
    hide Valid, BufferStep;
    if ops != [] {
      StepRefines(b, ops[0]);
      var (b', r) := BufferStep(b, ops[0]);
      assert forall op :: op in ops[1..] ==> op in ops;
      StorageRefinesDeque(b', ops[1..]);
    }
  }
}
