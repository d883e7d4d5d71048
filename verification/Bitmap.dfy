/** The ready bitmap of portmacro.h: a 32-bit word in uxTopReadyPriority. */
module Bitmap {

  function Bit(p: nat): bv32
    requires p < 32
  {
    (1 as bv32) << p
  }

  predicate Has(word: bv32, p: nat)
    requires p < 32
  {
    word & Bit(p) != 0
  }

  /** portRECORD_READY_PRIORITY */
  function Record(word: bv32, p: nat): bv32
    requires p < 32
  {
    word | Bit(p)
  }

  /** portRESET_READY_PRIORITY */
  function Reset(word: bv32, p: nat): bv32
    requires p < 32
  {
    word & !Bit(p)
  }

  ghost function BitSet(word: bv32): set<nat> {
    set p: nat | p < 32 && Has(word, p)
  }

  lemma OneBit(p: nat, q: nat)
    requires p < 32 && q < 32
    ensures Bit(p) != 0 && (p != q ==> Bit(p) & Bit(q) == 0)
  {
  }

  lemma RecordSame(word: bv32, p: nat)
    requires p < 32
    ensures Has(Record(word, p), p)
  {
    OneBit(p, p);
    OrSame(word, Bit(p));
  }

  lemma RecordOther(word: bv32, p: nat, q: nat)
    requires p < 32 && q < 32 && p != q
    ensures Has(Record(word, p), q) <==> Has(word, q)
  {
    OneBit(p, q);
    OrOther(word, Bit(p), Bit(q));
  }

  lemma ResetSame(word: bv32, p: nat)
    requires p < 32
    ensures !Has(Reset(word, p), p)
  {
    AndSame(word, Bit(p));
  }

  lemma ResetOther(word: bv32, p: nat, q: nat)
    requires p < 32 && q < 32 && p != q
    ensures Has(Reset(word, p), q) <==> Has(word, q)
  {
    OneBit(p, q);
    AndOther(word, Bit(p), Bit(q));
  }

  lemma OrSame(w: bv32, b: bv32)
    requires b != 0
    ensures (w | b) & b != 0
  {
  }

  lemma OrOther(w: bv32, b: bv32, c: bv32)
    requires b & c == 0
    ensures (w | b) & c == w & c
  {
  }

  lemma AndSame(w: bv32, b: bv32)
    ensures (w & !b) & b == 0
  {
  }

  lemma AndOther(w: bv32, b: bv32, c: bv32)
    requires b & c == 0
    ensures (w & !b) & c == w & c
  {
  }

  lemma RecordAdds(word: bv32, p: nat)
    requires p < 32
    ensures BitSet(Record(word, p)) == BitSet(word) + {p}
  {
    hide Bit, Record, Has;
    forall q: nat | q < 32 ensures Has(Record(word, p), q) <==> Has(word, q) || q == p {
      if p == q { RecordSame(word, p); } else { RecordOther(word, p, q); }
    }
  }

  lemma ResetRemoves(word: bv32, p: nat)
    requires p < 32
    ensures BitSet(Reset(word, p)) == BitSet(word) - {p}
  {
    hide Bit, Reset, Has;
    forall q: nat | q < 32 ensures Has(Reset(word, p), q) <==> Has(word, q) && q != p {
      if p == q { ResetSame(word, p); } else { ResetOther(word, p, q); }
    }
  }

  /** __clz: the number of zero bits above the highest set bit, found by scanning. */
  method CountLeadingZeros(word: bv32) returns (n: nat)
    ensures n <= 32 && (forall p: nat :: 32 - n <= p < 32 ==> !Has(word, p))
    ensures n < 32 ==> Has(word, 31 - n)
  {
    n := 0;
    while n < 32 && !Has(word, 31 - n)
      invariant n <= 32 && forall p: nat :: 32 - n <= p < 32 ==> !Has(word, p)
    {
      n := n + 1;
    }
  }

  /** portGET_HIGHEST_PRIORITY */
  method HighestPriority(word: bv32) returns (p: nat)
    requires exists q: nat :: q < 32 && Has(word, q)
    ensures p < 32 && p in BitSet(word) && forall q :: q in BitSet(word) ==> q <= p
  {
    var n := CountLeadingZeros(word);
    p := 31 - n;
  }
}
