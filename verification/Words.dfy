/** 32-bit words read as polynomials over GF(2), lowest power in the highest bit.

    The operators below name the machine operations, so that proofs about the shift
    register can use their algebra without looking at single bits. */
module Words {

  function Xor(a: bv32, b: bv32): bv32 { a ^ b }

  function Half(a: bv32): bv32 { a >> 1 }

  predicate Odd(a: bv32) { a & 1 == 1 }

  lemma XorHalf(a: bv32, b: bv32)
    ensures Half(Xor(a, b)) == Xor(Half(a), Half(b))
  {}

  lemma XorOdd(a: bv32, b: bv32)
    ensures Odd(Xor(a, b)) <==> Odd(a) != Odd(b)
  {}

  lemma XorComm(a: bv32, b: bv32)
    ensures Xor(a, b) == Xor(b, a)
  {}

  lemma XorUnit(a: bv32)
    ensures Xor(a, 0) == a && Xor(0, a) == a && Xor(a, a) == 0
  {}

  lemma XorAssoc(a: bv32, b: bv32, c: bv32)
    ensures Xor(Xor(a, b), c) == Xor(a, Xor(b, c))
  {}

  lemma XorSwap(a: bv32, b: bv32, c: bv32)
    ensures Xor(Xor(a, b), c) == Xor(Xor(a, c), b)
  {
    hide Xor;
    XorAssoc(a, b, c);
    XorAssoc(a, c, b);
    XorComm(b, c);
  }

  lemma XorCancel(a: bv32, b: bv32, c: bv32)
    ensures Xor(Xor(a, c), Xor(b, c)) == Xor(a, b)
  {
    hide Xor;
    XorAssoc(Xor(a, c), b, c);
    XorSwap(a, c, b);
    XorAssoc(Xor(a, b), c, c);
    XorUnit(c);
    XorUnit(Xor(a, b));
  }

  lemma XorPairs(a: bv32, b: bv32, c: bv32, d: bv32)
    ensures Xor(Xor(a, b), Xor(c, d)) == Xor(Xor(a, c), Xor(b, d))
  {
    hide Xor;
    XorAssoc(Xor(a, b), c, d);
    XorSwap(a, b, c);
    XorAssoc(Xor(a, c), b, d);
  }
}

/** The bit-at-a-time CRC: the meaning every fast form below is measured against. */
module CrcSpec {
  import opened Words

  /** One step of the reflected shift register with feedback polynomial `p`. */
  function Step(p: bv32, r: bv32): bv32 {
    if Odd(r) then Xor(Half(r), p) else Half(r)
  }

  function Steps(p: bv32, r: bv32, n: nat): bv32
    decreases n
  {
    if n == 0 then r else Steps(p, Step(p, r), n - 1)
  }

  /** The register after one message bit. */
  function FeedBit(p: bv32, r: bv32, bit: bool): bv32 {
    Step(p, Xor(r, if bit then 1 else 0))
  }

  /** The register after the low `k` bits of `b`, lowest bit first. */
  function FeedBits(p: bv32, r: bv32, b: bv32, k: nat): bv32
    decreases k
  {
    if k == 0 then r else FeedBits(p, FeedBit(p, r, Odd(b)), Half(b), k - 1)
  }

  /** The CRC register after the bytes of `m`, one message bit at a time. */
  function Crc(p: bv32, r: bv32, m: seq<bv8>): bv32 {
    if m == [] then r
    else FeedBits(p, Crc(p, r, m[..|m| - 1]), m[|m| - 1] as bv32, 8)
  }

  // ---- linearity

  lemma StepLinear(p: bv32, a: bv32, b: bv32)
    ensures Step(p, Xor(a, b)) == Xor(Step(p, a), Step(p, b))
  {
    hide Xor, Half, Odd;
    XorHalf(a, b);
    XorOdd(a, b);
    XorCancel(Half(a), Half(b), p);
    XorAssoc(Half(a), Half(b), p);
    XorSwap(Half(a), Half(b), p);
  }

  lemma {:induction false} StepsLinear(p: bv32, a: bv32, b: bv32, n: nat)
    ensures Steps(p, Xor(a, b), n) == Xor(Steps(p, a, n), Steps(p, b, n))
    decreases n
  {
    hide Xor, Half, Odd;
    if n != 0 {
      StepLinear(p, a, b);
      StepsLinear(p, Step(p, a), Step(p, b), n - 1);
    }
  }

  lemma {:induction false} StepsAdd(p: bv32, r: bv32, m: nat, n: nat)
    ensures Steps(p, r, m + n) == Steps(p, Steps(p, r, m), n)
    decreases m
  {
    hide Xor, Half, Odd;
    if m != 0 {
      StepsAdd(p, Step(p, r), m - 1, n);
    }
  }

  lemma StepsZero(p: bv32, n: nat)
    ensures Steps(p, 0, n) == 0
  {
    hide Xor;
    StepsLinear(p, 0, 0, n);
    XorUnit(0);
    XorUnit(Steps(p, 0, n));
  }

  // ---- shifting without feedback

  lemma LowBitSplit(b: bv32)
    ensures b == Xor(if Odd(b) then 1 else 0, b & 0xFFFF_FFFE)
    ensures !Odd(b & 0xFFFF_FFFE) && Half(b & 0xFFFF_FFFE) == Half(b)
  {}

  /** `b` has no bit at or above position `k`. */
  predicate Fits(b: bv32, k: nat)
    decreases k
  {
    if k == 0 then b == 0 else Fits(Half(b), k - 1)
  }

  lemma ByteFits(b: bv8)
    ensures Fits(b as bv32, 8)
  {
    var w := b as bv32;
    assert Half(Half(Half(Half(w)))) == w >> 4;
    assert Half(Half(Half(Half(w >> 4)))) == 0;
    assert Fits(w >> 4, 4);
    assert Fits(Half(Half(w)), 6);
  }

  /** Feeding `k` message bits one at a time is the same as adding them all to the
      register first, as the byte-wise forms do. */
  lemma {:induction false} FeedBitsIsSteps(p: bv32, r: bv32, b: bv32, k: nat)
    requires Fits(b, k)
    ensures FeedBits(p, r, b, k) == Steps(p, Xor(r, b), k)
    decreases k
  {
    hide Xor, Half, Odd;
    if k == 0 {
      XorUnit(r);
    } else {
      var bit: bv32 := if Odd(b) then 1 else 0;
      var rest := b & 0xFFFF_FFFE;
      LowBitSplit(b);
      XorAssoc(r, bit, rest);
      StepLinear(p, Xor(r, bit), rest);
      FeedBitsIsSteps(p, Step(p, Xor(r, bit)), Half(b), k - 1);
    }
  }

  lemma FeedByte(p: bv32, r: bv32, b: bv8)
    ensures FeedBits(p, r, b as bv32, 8) == Steps(p, Xor(r, b as bv32), 8)
  {
    hide Xor, Half, Odd;
    ByteFits(b);
    FeedBitsIsSteps(p, r, b as bv32, 8);
  }

  // ---- shifting whole bytes

  function LowByte(r: bv32): bv32 { r & 0xFF }

  function HighBytes(r: bv32): bv32 { r & 0xFFFF_FF00 }

  function Down8(r: bv32): bv32 { r >> 8 }

  lemma HalfOnce(p: bv32, r: bv32, n: nat)
    requires !Odd(r) && 0 < n
    ensures Steps(p, r, n) == Steps(p, Half(r), n - 1)
  {}

  lemma LowByteEven(r: bv32)
    requires LowByte(r) == 0
    ensures !Odd(r) && !Odd(r >> 1) && !Odd(r >> 2) && !Odd(r >> 3)
    ensures !Odd(r >> 4) && !Odd(r >> 5) && !Odd(r >> 6) && !Odd(r >> 7)
  {}

  lemma HalfChain(r: bv32)
    ensures Half(r) == r >> 1 && Half(r >> 1) == r >> 2 && Half(r >> 2) == r >> 3 && Half(r >> 3) == r >> 4
    ensures Half(r >> 4) == r >> 5 && Half(r >> 5) == r >> 6 && Half(r >> 6) == r >> 7 && Half(r >> 7) == Down8(r)
  {}

  /** A clear low byte is shifted out with no feedback. */
  lemma ShiftOutByte(p: bv32, r: bv32)
    requires LowByte(r) == 0
    ensures Steps(p, r, 8) == Down8(r)
  {
    hide Odd, Half, Xor, LowByte, Down8;
    LowByteEven(r);
    HalfChain(r);
    HalfOnce(p, r, 8);
    HalfOnce(p, r >> 1, 7);
    HalfOnce(p, r >> 2, 6);
    HalfOnce(p, r >> 3, 5);
    HalfOnce(p, r >> 4, 4);
    HalfOnce(p, r >> 5, 3);
    HalfOnce(p, r >> 6, 2);
    HalfOnce(p, r >> 7, 1);
  }

  lemma ByteSplit(r: bv32)
    ensures r == Xor(HighBytes(r), LowByte(r))
    ensures LowByte(HighBytes(r)) == 0 && Down8(HighBytes(r)) == Down8(r)
  {}

  /** Eight steps, read as the table look-up of the byte-wise form. */
  lemma EightSteps(p: bv32, r: bv32)
    ensures Steps(p, r, 8) == Xor(Down8(r), Steps(p, LowByte(r), 8))
  {
    hide Xor, Half, Odd, LowByte, HighBytes, Down8;
    ByteSplit(r);
    StepsLinear(p, HighBytes(r), LowByte(r), 8);
    ShiftOutByte(p, HighBytes(r));
  }

  /** Byte `b` in lane `j` of a word, lane 0 the lowest. */
  function Lane(b: bv8, j: nat): bv32
    requires j < 4
  {
    var w := b as bv32;
    if j == 0 then w else if j == 1 then w << 8 else if j == 2 then w << 16 else w << 24
  }

  lemma LaneClear(b: bv8, j: nat)
    requires 0 < j < 4
    ensures LowByte(Lane(b, j)) == 0 && Down8(Lane(b, j)) == Lane(b, j - 1)
  {}

  lemma LaneStep(p: bv32, b: bv8, j: nat, n: nat)
    requires 0 < j < 4
    ensures Steps(p, Lane(b, j), 8 + n) == Steps(p, Lane(b, j - 1), n)
  {
    hide Xor, Half, Odd, LowByte, Down8, Lane;
    LaneClear(b, j);
    ShiftOutByte(p, Lane(b, j));
    StepsAdd(p, Lane(b, j), 8, n);
  }

  /** A byte in lane `j` reaches lane 0 after `8 * j` steps. */
  lemma {:induction false} LaneDown(p: bv32, b: bv8, j: nat, n: nat)
    requires j < 4
    ensures Steps(p, Lane(b, j), 8 * j + n) == Steps(p, Lane(b, 0), n)
  {
    hide Xor, Half, Odd, Lane, Step;
    if j > 0 {
      LaneStep(p, b, j, 8 * (j - 1) + n);
      LaneDown(p, b, j - 1, n);
    }
  }
}
