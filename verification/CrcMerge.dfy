/** Joining CRC registers computed over consecutive stretches of one message. */
module CrcMerge {
  import opened Words
  import opened CrcSpec
  import opened CrcTabular
  import opened XnModP

  /** A little-endian 64-bit load of eight bytes. */
  function Load64(m: seq<bv8>): bv64
    requires |m| == 8
  {
    Xor64(Up(Load32(m, 0), 0), Up(Load32(m, 4), 32))
  }

  lemma FeedWord(p: bv32, r: bv32, b: bv32, k: nat)
    requires 32 <= k
    ensures Feed64(p, r, Up(b, 0), k) == Steps(p, Xor(r, b), k)
  {
    hide Feed64, FeedBits, Steps, Xor;
    Feed64OfWord(p, r, b, k);
    WordFits(b);
    FitsMore(b, 32, k);
    FeedBitsIsSteps(p, r, b, k);
  }

  /** The 64-bit CRC instruction is the bit-at-a-time CRC of those eight bytes. */
  lemma Feed64IsCrc(p: bv32, r: bv32, m: seq<bv8>)
    requires |m| == 8
    ensures Feed64(p, r, Load64(m), 64) == Crc(p, r, m)
  {
    hide Feed64, Steps, Xor, Xor64, Load32, Crc, Up;
    var lo, hi := Load32(m, 0), Load32(m, 4);
    XorUnit(r);
    Feed64Linear(p, r, 0, Up(lo, 0), Up(hi, 32), 64);
    FeedWord(p, r, lo, 64);
    FeedUpIsSteps(p, hi, 32);
    StartCrc(p, r, m);
    Absorb4(p, r, m, 0);
    Absorb4(p, r, m, 4);
    StepsAdd(p, Xor(r, lo), 32, 32);
    StepsLinear(p, Steps(p, Xor(r, lo), 32), hi, 32);
    assert m[..8] == m;
  }

  /** The starting register contributes separately from the message. */
  lemma {:induction false} CrcLinear(p: bv32, r: bv32, m: seq<bv8>)
    ensures Crc(p, r, m) == Xor(Steps(p, r, 8 * |m|), Crc(p, 0, m))
  {
    hide Steps, Xor, Lane, FeedBits;
    if m == [] {
      XorUnit(r);
      StepsNone(p, r);
    } else {
      var k := |m| - 1;
      var init, b := m[..k], Lane(m[k], 0);
      assert m[..k + 1] == m;
      CrcSnoc(p, r, m, k);
      CrcSnoc(p, 0, m, k);
      CrcLinear(p, r, init);
      var s, c := Steps(p, r, 8 * k), Crc(p, 0, init);
      XorAssoc(s, c, b);
      StepsLinear(p, s, Xor(c, b), 8);
      StepsAdd(p, r, 8 * k, 8);
    }
  }

  /** `crc_shift`: the product that stands for `nbytes` zero bytes after `crc`. */
  function CrcShift(p: bv32, crc: bv32, nbytes: nat): bv64
    requires 5 <= nbytes
  {
    CarrylessMul(crc, XN(p, 8 * nbytes - 33))
  }

  lemma CrcShiftMeaning(p: bv32, crc: bv32, nbytes: nat)
    requires 5 <= nbytes
    ensures Feed64(p, 0, CrcShift(p, crc, nbytes), 64) == Steps(p, crc, 8 * nbytes)
  {
    hide Feed64, CarrylessMul, XN, Steps;
    MulByPower(p, crc, 8 * nbytes - 33);
  }

  lemma CrcAppend(p: bv32, r: bv32, a: seq<bv8>, b: seq<bv8>)
    ensures Crc(p, r, a + b) == Xor(Steps(p, Crc(p, r, a), 8 * |b|), Crc(p, 0, b))
  {
    hide Crc, Steps, Xor;
    CrcConcat(p, r, a, b);
    CrcLinear(p, Crc(p, r, a), b);
  }

  /** The registers of three equal stretches computed from zero, and the register of
      everything before them, merge into the register of the whole message. */
  lemma StreamMerge(p: bv32, init: bv32, v: seq<bv8>, a: seq<bv8>, b: seq<bv8>, c: seq<bv8>, last: seq<bv8>)
    requires |a| == |b| == |c| && |last| == 8
    ensures
      var k := |a|;
      var vc := Xor64(Xor64(CrcShift(p, Crc(p, 0, a), 2 * k + 8), CrcShift(p, Crc(p, 0, b), k + 8)),
                      CrcShift(p, Crc(p, init, v), 3 * k + 8));
      Feed64(p, Crc(p, 0, c), Xor64(Load64(last), vc), 64) == Crc(p, init, v + a + b + c + last)
  {
    hide Feed64, Steps, Xor, Xor64, Crc, Load64, CrcShift;
    var k := |a|;
    var cv, c0, c1, c2 := Crc(p, init, v), Crc(p, 0, a), Crc(p, 0, b), Crc(p, 0, c);
    var s0, s1, sv := CrcShift(p, c0, 2 * k + 8), CrcShift(p, c1, k + 8), CrcShift(p, cv, 3 * k + 8);
    MergeFeed(p, c2, Load64(last), s0, s1, sv);
    Feed64IsCrc(p, c2, last);
    CrcShiftMeaning(p, c0, 2 * k + 8);
    CrcShiftMeaning(p, c1, k + 8);
    CrcShiftMeaning(p, cv, 3 * k + 8);
    MergeMessage(p, init, v, a, b, c, last);
  }

  lemma MergeFeed(p: bv32, r: bv32, l: bv64, x: bv64, y: bv64, z: bv64)
    ensures Feed64(p, r, Xor64(l, Xor64(Xor64(x, y), z)), 64) ==
      Xor(Feed64(p, r, l, 64), Xor(Xor(Feed64(p, 0, x, 64), Feed64(p, 0, y, 64)), Feed64(p, 0, z, 64)))
  {
    hide Feed64, Xor, Xor64;
    XorUnit(r);
    XorUnit(0);
    Feed64Linear(p, r, 0, l, Xor64(Xor64(x, y), z), 64);
    Feed64Linear(p, 0, 0, Xor64(x, y), z, 64);
    Feed64Linear(p, 0, 0, x, y, 64);
  }

  lemma MergeMessage(p: bv32, init: bv32, v: seq<bv8>, a: seq<bv8>, b: seq<bv8>, c: seq<bv8>, last: seq<bv8>)
    requires |a| == |b| == |c| && |last| == 8
    ensures
      var k := |a|;
      Crc(p, init, v + a + b + c + last) ==
        Xor(Crc(p, Crc(p, 0, c), last),
            Xor(Xor(Steps(p, Crc(p, 0, a), 8 * (2 * k + 8)), Steps(p, Crc(p, 0, b), 8 * (k + 8))),
                Steps(p, Crc(p, init, v), 8 * (3 * k + 8))))
  {
    hide Steps, Xor, Crc;
    var k := |a|;
    var cv, c0, c1 := Crc(p, init, v), Crc(p, 0, a), Crc(p, 0, b);
    var tail := c + last;
    var n1, n2, n3 := 8 * (k + 8), 8 * (2 * k + 8), 8 * (3 * k + 8);
    assert v + a + b + c + last == v + (a + (b + tail));
    CrcAppend(p, init, v, a + (b + tail));
    CrcAppend(p, 0, a, b + tail);
    CrcAppend(p, 0, b, tail);
    CrcConcat(p, 0, c, last);
    var t := Crc(p, 0, tail);
    var sv, s0, s1 := Steps(p, cv, n3), Steps(p, c0, n2), Steps(p, c1, n1);
    assert Crc(p, init, v + (a + (b + tail))) == Xor(sv, Xor(s0, Xor(s1, t)));
    XorAssoc(s0, s1, t);
    XorAssoc(sv, Xor(s0, s1), t);
    XorComm(sv, Xor(s0, s1));
    XorComm(Xor(Xor(s0, s1), sv), t);
  }
}
