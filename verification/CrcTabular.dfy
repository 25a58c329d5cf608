/** The slicing-by-16/8/4/2/1 table engine and its conditioning. */
module CrcTabular {
  import opened Words
  import opened CrcSpec

  const SLICES: nat := 16
  const CRC32C_POLY: bv32 := 0x82f63b78
  const CRC32_POLY: bv32 := 0xEDB88320

  // ---- the tables

  /** The word holding the small number `i`. */
  function Word(i: nat): bv32
    requires i < 256
  {
    i as bv32
  }

  /** Entry `n`: byte `n % 256`, followed by `n / 256 + 1` zero bytes' worth of steps. */
  function Entry(p: bv32, n: nat): bv32 {
    Steps(p, Word(n % 256), 8 * (n / 256 + 1))
  }

  ghost predicate Tables(p: bv32, t: seq<bv32>) {
    |t| == SLICES * 256 && forall n :: 0 <= n < |t| ==> t[n] == Entry(p, n)
  }

  lemma ByteWidens(b: bv8)
    ensures (b as bv32) as int == b as int
  {}

  lemma WordRoundTrip(w: bv32)
    ensures (w as int) as bv32 == w
  {}

  lemma ByteIndex(b: bv8)
    ensures 0 <= b as int < 256
    ensures Word(b as int) == Lane(b, 0)
  {
    ByteWidens(b);
    WordRoundTrip(b as bv32);
  }

  /** Reading table `k` at byte `b`. */
  lemma Lookup(p: bv32, t: seq<bv32>, k: nat, b: bv8)
    requires Tables(p, t) && k < SLICES
    ensures 0 <= 256 * k + b as int < |t|
    ensures t[256 * k + b as int] == Steps(p, Lane(b, 0), 8 * (k + 1))
  {
    hide Steps, Lane, Word;
    ByteIndex(b);
    var i := b as int;
    assert (256 * k + i) % 256 == i && (256 * k + i) / 256 == k;
  }

  function Byte(r: bv32): bv8 { (r & 0xFF) as bv8 }

  lemma ByteIsLow(r: bv32)
    ensures Lane(Byte(r), 0) == LowByte(r)
  {}

  /** The table after a further zero byte. */
  lemma NextEntry(p: bv32, n: nat, r: bv32)
    requires 256 <= n && r == Entry(p, n - 256)
    ensures Entry(p, n) == Xor(Down8(r), Entry(p, Byte(r) as int))
  {
    hide Steps, Lane, Word, Xor, Down8, LowByte, Byte;
    ByteIndex(Byte(r));
    ByteIsLow(r);
    var x := Word(n % 256);
    assert (n - 256) % 256 == n % 256 && (n - 256) / 256 == n / 256 - 1;
    var k := 8 * (n / 256);
    assert r == Steps(p, x, k);
    StepsAdd(p, x, k, 8);
    EightSteps(p, r);
  }

  /** Fills the sixteen tables in place: the first by eight single steps per entry, the
      others from the entry one table earlier. */
  method ComputeTables(p: bv32) returns (t: array<bv32>)
    ensures fresh(t) && Tables(p, t[..])
  {
    hide Steps, Step, Xor, Half, Odd, Down8, LowByte, Byte, Lane, Word;
    t := new bv32[SLICES * 256];
    var i := 0;
    while i < 256
      invariant 0 <= i <= 256
      invariant forall n :: 0 <= n < i ==> t[n] == Entry(p, n)
    {
      var r := FirstEntry(p, i);
      t[i] := r;
      i := i + 1;
    }
    while i < SLICES * 256
      invariant 256 <= i <= SLICES * 256
      invariant forall n :: 0 <= n < i ==> t[n] == Entry(p, n)
    {
      var r := t[i - 256];
      ByteIndex(Byte(r));
      NextEntry(p, i, r);
      t[i] := Xor(Down8(r), t[Byte(r) as int]);
      i := i + 1;
    }
  }

  method FirstEntry(p: bv32, i: nat) returns (r: bv32)
    requires i < 256
    ensures r == Entry(p, i)
  {
    hide Xor, Half, Odd, Word;
    r := Word(i);
    for j := 0 to 8
      invariant Steps(p, r, 8 - j) == Entry(p, i)
    {
      r := if Odd(r) then Xor(Half(r), p) else Half(r);
    }
  }

  // ---- what one kernel round computes

  lemma CrcSnoc(p: bv32, r: bv32, m: seq<bv8>, i: nat)
    requires i < |m|
    ensures Crc(p, r, m[..i + 1]) == Steps(p, Xor(Crc(p, r, m[..i]), Lane(m[i], 0)), 8)
  {
    hide Steps, Xor, FeedBits;
    assert m[..i + 1][..i] == m[..i];
    FeedByte(p, Crc(p, r, m[..i]), m[i]);
  }

  lemma {:induction false} CrcConcat(p: bv32, r: bv32, a: seq<bv8>, b: seq<bv8>)
    ensures Crc(p, r, a + b) == Crc(p, Crc(p, r, a), b)
  {
    hide FeedBits;
    if b == [] {
      assert a + b == a;
    } else {
      var init := b[..|b| - 1];
      assert (a + b)[..|a + b| - 1] == a + init;
      CrcConcat(p, r, a, init);
    }
  }

  /** A byte added after `8 * k` steps could have been added to lane `k` before them. */
  lemma AbsorbLane(p: bv32, x: bv32, b: bv8, k: nat, n: nat)
    requires k < 4
    ensures Steps(p, Xor(Steps(p, x, 8 * k), Lane(b, 0)), n) == Steps(p, Xor(x, Lane(b, k)), 8 * k + n)
  {
    hide Steps, Xor, Lane;
    StepsNone(p, Lane(b, 0));
    LaneDown(p, b, k, 0);
    StepsLinear(p, x, Lane(b, k), 8 * k);
    StepsAdd(p, Xor(x, Lane(b, k)), 8 * k, n);
  }

  lemma StepsNone(p: bv32, r: bv32)
    ensures Steps(p, r, 0) == r
  {}

  /** A little-endian 16-bit load. */
  function Load16(m: seq<bv8>, i: nat): (w: bv32)
    requires i + 2 <= |m|
    ensures w == (m[i] as bv32) | ((m[i + 1] as bv32) << 8)
  {
    Xor(Lane(m[i], 0), Lane(m[i + 1], 1))
  }

  /** A little-endian 32-bit load. */
  function Load32(m: seq<bv8>, i: nat): (w: bv32)
    requires i + 4 <= |m|
    ensures w == (m[i] as bv32) | ((m[i + 1] as bv32) << 8) | ((m[i + 2] as bv32) << 16) | ((m[i + 3] as bv32) << 24)
  {
    Xor(Xor(Load16(m, i), Lane(m[i + 2], 2)), Lane(m[i + 3], 3))
  }

  lemma Absorb2(p: bv32, r: bv32, m: seq<bv8>, i: nat)
    requires i + 2 <= |m|
    ensures Crc(p, r, m[..i + 2]) == Steps(p, Xor(Crc(p, r, m[..i]), Load16(m, i)), 16)
  {
    hide Steps, Xor, Lane, Crc;
    var c := Crc(p, r, m[..i]);
    var x1 := Xor(c, Lane(m[i], 0));
    CrcSnoc(p, r, m, i);
    CrcSnoc(p, r, m, i + 1);
    AbsorbLane(p, x1, m[i + 1], 1, 8);
    XorAssoc(c, Lane(m[i], 0), Lane(m[i + 1], 1));
  }

  lemma Absorb4(p: bv32, r: bv32, m: seq<bv8>, i: nat)
    requires i + 4 <= |m|
    ensures Crc(p, r, m[..i + 4]) == Steps(p, Xor(Crc(p, r, m[..i]), Load32(m, i)), 32)
  {
    hide Steps, Xor, Lane, Crc, Load16;
    var c := Crc(p, r, m[..i]);
    var x2 := Xor(c, Load16(m, i));
    var x3 := Xor(x2, Lane(m[i + 2], 2));
    Absorb2(p, r, m, i);
    CrcSnoc(p, r, m, i + 2);
    AbsorbLane(p, x2, m[i + 2], 2, 8);
    CrcSnoc(p, r, m, i + 3);
    AbsorbLane(p, x3, m[i + 3], 3, 8);
    XorAssoc(c, Load16(m, i), Lane(m[i + 2], 2));
    XorAssoc(c, Xor(Load16(m, i), Lane(m[i + 2], 2)), Lane(m[i + 3], 3));
  }

  // ---- table slices

  /** Byte `j` of a word: `uint8_t(w >> 8 * j)`. */
  function ByteAt(w: bv32, j: nat): bv8
    requires j < 4
  {
    if j == 0 then Byte(w) else if j == 1 then Byte(w >> 8) else if j == 2 then Byte(w >> 16) else Byte(w >> 24)
  }

  lemma WordIsLanes(w: bv32)
    ensures w == Xor(Xor(Xor(Lane(ByteAt(w, 3), 3), Lane(ByteAt(w, 2), 2)), Lane(ByteAt(w, 1), 1)), Lane(ByteAt(w, 0), 0))
  {}

  /** Table `k` at byte `b`. */
  function At(t: seq<bv32>, k: nat, b: bv8): bv32
    requires |t| == SLICES * 256 && k < SLICES
  {
    ByteIndex(b);
    t[256 * k + b as int]
  }

  /** Four consecutive tables, starting at `k`, read at the bytes of `w` from the top down. */
  function Slice(t: seq<bv32>, k: nat, w: bv32): bv32
    requires |t| == SLICES * 256 && k + 4 <= SLICES
  {
    Xor(Xor(Xor(At(t, k, ByteAt(w, 3)), At(t, k + 1, ByteAt(w, 2))), At(t, k + 2, ByteAt(w, 1))), At(t, k + 3, ByteAt(w, 0)))
  }

  lemma SliceLane(p: bv32, t: seq<bv32>, k: nat, b: bv8, j: nat)
    requires Tables(p, t) && k < SLICES && j < 4
    ensures At(t, k, b) == Steps(p, Lane(b, j), 8 * (k + 1 + j))
  {
    hide Steps, Lane, Entry;
    Lookup(p, t, k, b);
    LaneDown(p, b, j, 8 * (k + 1));
  }

  lemma SliceMeaning(p: bv32, t: seq<bv32>, k: nat, w: bv32)
    requires Tables(p, t) && k + 4 <= SLICES
    ensures Slice(t, k, w) == Steps(p, w, 8 * (k + 4))
  {
    hide Steps, Lane, Entry, Xor, ByteAt, At;
    var n := 8 * (k + 4);
    var l0, l1, l2, l3 := Lane(ByteAt(w, 0), 0), Lane(ByteAt(w, 1), 1), Lane(ByteAt(w, 2), 2), Lane(ByteAt(w, 3), 3);
    WordIsLanes(w);
    SliceLane(p, t, k, ByteAt(w, 3), 3);
    SliceLane(p, t, k + 1, ByteAt(w, 2), 2);
    SliceLane(p, t, k + 2, ByteAt(w, 1), 1);
    SliceLane(p, t, k + 3, ByteAt(w, 0), 0);
    StepsLinear(p, l3, l2, n);
    StepsLinear(p, Xor(l3, l2), l1, n);
    StepsLinear(p, Xor(Xor(l3, l2), l1), l0, n);
  }

  lemma Round1(p: bv32, t: seq<bv32>, r: bv32, m: seq<bv8>, i: nat)
    requires Tables(p, t) && i < |m|
    ensures Crc(p, r, m[..i + 1]) ==
      var c := Crc(p, r, m[..i]); Xor(Down8(c), At(t, 0, Byte(Xor(c, Lane(m[i], 0)))))
  {
    hide Steps, Lane, Entry, Xor, At, Byte, Down8, LowByte, Crc;
    var c := Crc(p, r, m[..i]);
    var x := Xor(c, Lane(m[i], 0));
    CrcSnoc(p, r, m, i);
    EightSteps(p, x);
    ByteIsLow(x);
    SliceLane(p, t, 0, Byte(x), 0);
    Down8OfByte(c, m[i]);
  }

  lemma Down8OfByte(c: bv32, b: bv8)
    ensures Down8(Xor(c, Lane(b, 0))) == Down8(c)
  {}

  lemma Round2(p: bv32, t: seq<bv32>, x: bv32)
    requires Tables(p, t)
    ensures Steps(p, x, 16) == Xor(Xor(Down8(Down8(x)), At(t, 0, Byte(Down8(x)))), At(t, 1, Byte(x)))
  {
    hide Steps, Lane, Entry, Xor, At, Byte, Down8, LowByte;
    ByteIsLow(x);
    ByteIsLow(Down8(x));
    SliceLane(p, t, 0, Byte(Down8(x)), 0);
    SliceLane(p, t, 0, Byte(x), 0);
    SliceLane(p, t, 1, Byte(x), 0);
    StepsAdd(p, x, 8, 8);
    EightSteps(p, x);
    StepsAdd(p, LowByte(x), 8, 8);
    StepsLinear(p, Down8(x), Steps(p, LowByte(x), 8), 8);
    EightSteps(p, Down8(x));
  }

  lemma Round8(p: bv32, t: seq<bv32>, r: bv32, m: seq<bv8>, i: nat)
    requires Tables(p, t) && i + 8 <= |m|
    ensures Crc(p, r, m[..i + 8]) ==
      Xor(Slice(t, 0, Load32(m, i + 4)), Slice(t, 4, Xor(Crc(p, r, m[..i]), Load32(m, i))))
  {
    hide Steps, Entry, Xor, Slice, Load32, Crc;
    var x, y := Xor(Crc(p, r, m[..i]), Load32(m, i)), Load32(m, i + 4);
    Absorb4(p, r, m, i);
    Absorb4(p, r, m, i + 4);
    StepsLinear(p, Steps(p, x, 32), y, 32);
    StepsAdd(p, x, 32, 32);
    SliceMeaning(p, t, 0, y);
    SliceMeaning(p, t, 4, x);
    XorComm(Steps(p, x, 64), Steps(p, y, 32));
  }

  lemma Round16(p: bv32, t: seq<bv32>, r: bv32, m: seq<bv8>, i: nat)
    requires Tables(p, t) && i + 16 <= |m|
    ensures Crc(p, r, m[..i + 16]) ==
      Xor(Xor(Xor(Slice(t, 0, Load32(m, i + 12)), Slice(t, 4, Load32(m, i + 8))),
              Slice(t, 8, Load32(m, i + 4))), Slice(t, 12, Xor(Crc(p, r, m[..i]), Load32(m, i))))
  {
    hide Steps, Entry, Xor, Slice, Load32, Crc;
    var x, y := Xor(Crc(p, r, m[..i]), Load32(m, i)), Load32(m, i + 4);
    var z, w := Load32(m, i + 8), Load32(m, i + 12);
    var c := Crc(p, r, m[..i + 8]);
    Round8(p, t, r, m, i);
    SliceMeaning(p, t, 0, y);
    SliceMeaning(p, t, 4, x);
    Round8(p, t, r, m, i + 8);
    SliceMeaning(p, t, 4, Xor(c, z));
    SliceMeaning(p, t, 4, z);
    StepsLinear(p, c, z, 64);
    StepsLinear(p, Steps(p, y, 32), Steps(p, x, 64), 64);
    StepsAdd(p, y, 32, 64);
    StepsAdd(p, x, 64, 64);
    SliceMeaning(p, t, 8, y);
    SliceMeaning(p, t, 12, x);
    var a, b, e, f := Slice(t, 0, w), Slice(t, 4, z), Slice(t, 8, y), Slice(t, 12, x);
    XorComm(Xor(e, f), b);
    XorAssoc(b, e, f);
    XorAssoc(a, Xor(b, e), f);
    XorAssoc(a, b, e);
  }

  // ---- the kernels

  lemma StartCrc(p: bv32, r: bv32, m: seq<bv8>)
    ensures Crc(p, r, m[..0]) == r
  {}

  /** The two- and four-byte kernels compute on 32 bits where their tail begins. For a message under 2^32 bytes that is
      right and leaves a tail shorter than a word; for any other, what they pass on is still 2^32 bytes or more, which
      the byte kernel's 32-bit counter never gets to the end of. */
  lemma TailOffsetIff(len: nat, width: nat)
    requires width == 2 || width == 4
    ensures var offset := width * (len / width) % 0x1_0000_0000;
      && (offset == width * (len / width) <==> len < 0x1_0000_0000)
      && (len < 0x1_0000_0000 ==> len - offset < width)
      && (len >= 0x1_0000_0000 ==> len - offset >= 0x1_0000_0000)
  {
    var q := width * (len / width);
    if len >= 0x1_0000_0000 {
      assert q >= 0x1_0000_0000;
    }
  }

  method Kernel1(ghost p: bv32, m: seq<bv8>, prev: bv32, t: array<bv32>) returns (r: bv32)
    requires Tables(p, t[..]) && |m| < 0x1_0000_0000
    ensures r == Crc(p, prev, m)
  {
    hide Entry, Xor, At, Byte, Down8, Lane;
    r := prev;
    var i := 0;
    while i < |m|
      invariant 0 <= i <= |m|
      invariant r == Crc(p, prev, m[..i])
    {
      Round1(p, t[..], prev, m, i);
      r := Xor(Down8(r), At(t[..], 0, Byte(Xor(r, Lane(m[i], 0)))));
      i := i + 1;
    }
    assert m[..i] == m;
  }

  method Kernel2(ghost p: bv32, m: seq<bv8>, prev: bv32, t: array<bv32>) returns (r: bv32)
    requires Tables(p, t[..]) && |m| < 0x1_0000_0000
    ensures r == Crc(p, prev, m)
  {
    hide Entry, Xor, At, Byte, Down8, Load16, Steps;
    r := prev;
    var i := 0;
    while i < |m| / 2
      invariant 0 <= i <= |m| / 2
      invariant r == Crc(p, prev, m[..2 * i])
    {
      Absorb2(p, prev, m, 2 * i);
      r := Xor(r, Load16(m, 2 * i));
      Round2(p, t[..], r);
      r := Xor(Xor(Down8(Down8(r)), At(t[..], 0, Byte(Down8(r)))), At(t[..], 1, Byte(r)));
      i := i + 1;
    }
    CrcConcat(p, prev, m[..2 * i], m[2 * i..]);
    assert m == m[..2 * i] + m[2 * i..];
    r := Kernel1(p, m[2 * i..], r, t);
  }

  method Kernel4(ghost p: bv32, m: seq<bv8>, prev: bv32, t: array<bv32>) returns (r: bv32)
    requires Tables(p, t[..]) && |m| < 0x1_0000_0000
    ensures r == Crc(p, prev, m)
  {
    hide Entry, Xor, Slice, Load32, Steps, Crc;
    StartCrc(p, prev, m);
    r := prev;
    var i := 0;
    while i < |m| / 4
      invariant 0 <= i <= |m| / 4
      invariant r == Crc(p, prev, m[..4 * i])
    {
      Absorb4(p, prev, m, 4 * i);
      r := Xor(r, Load32(m, 4 * i));
      SliceMeaning(p, t[..], 0, r);
      r := Slice(t[..], 0, r);
      i := i + 1;
    }
    CrcConcat(p, prev, m[..4 * i], m[4 * i..]);
    assert m == m[..4 * i] + m[4 * i..];
    r := Kernel2(p, m[4 * i..], r, t);
  }

  method Kernel8(ghost p: bv32, m: seq<bv8>, prev: bv32, t: array<bv32>) returns (r: bv32)
    requires Tables(p, t[..])
    ensures r == Crc(p, prev, m)
  {
    hide Entry, Xor, Slice, Load32;
    r := prev;
    var i, bytes := 0, |m|;
    while bytes >= 8
      invariant 0 <= i && 0 <= bytes && i + bytes == |m|
      invariant r == Crc(p, prev, m[..i])
    {
      Round8(p, t[..], prev, m, i);
      r := Xor(r, Load32(m, i));
      var r2 := Load32(m, i + 4);
      r := Xor(Slice(t[..], 0, r2), Slice(t[..], 4, r));
      i, bytes := i + 8, bytes - 8;
    }
    CrcConcat(p, prev, m[..i], m[i..]);
    assert m == m[..i] + m[i..];
    r := Kernel4(p, m[i..], r, t);
  }

  method Kernel16(ghost p: bv32, m: seq<bv8>, prev: bv32, t: array<bv32>) returns (r: bv32)
    requires Tables(p, t[..])
    ensures r == Crc(p, prev, m)
  {
    hide Entry, Xor, Slice, Load32;
    r := prev;
    var i, bytes := 0, |m|;
    while bytes >= 16
      invariant 0 <= i && 0 <= bytes && i + bytes == |m|
      invariant r == Crc(p, prev, m[..i])
    {
      Round16(p, t[..], prev, m, i);
      r := Xor(r, Load32(m, i));
      var r2, r3, r4 := Load32(m, i + 4), Load32(m, i + 8), Load32(m, i + 12);
      r := Xor(Xor(Xor(Slice(t[..], 0, r4), Slice(t[..], 4, r3)), Slice(t[..], 8, r2)), Slice(t[..], 12, r));
      i, bytes := i + 16, bytes - 16;
    }
    CrcConcat(p, prev, m[..i], m[i..]);
    assert m == m[..i] + m[i..];
    r := Kernel8(p, m[i..], r, t);
  }

  /** The dispatcher: the largest kernel the message fills at least once. */
  method Tabular(ghost p: bv32, m: seq<bv8>, initial: bv32, t: array<bv32>) returns (r: bv32)
    requires Tables(p, t[..])
    ensures r == Crc(p, initial, m)
  {
    if |m| >= 16 {
      r := Kernel16(p, m, initial, t);
    } else if |m| >= 8 {
      r := Kernel8(p, m, initial, t);
    } else if |m| >= 4 {
      r := Kernel4(p, m, initial, t);
    } else if |m| >= 2 {
      r := Kernel2(p, m, initial, t);
    } else {
      r := Kernel1(p, m, initial, t);
    }
  }

  // ---- conditioning

  /** The CRC of `m` continued from `remainder`, complemented on both sides. */
  function Checksum(p: bv32, m: seq<bv8>, remainder: bv32): bv32 {
    Not(Crc(p, Not(remainder), m))
  }

  function Not(a: bv32): bv32 { !a }

  lemma NotTwice(a: bv32)
    ensures Not(Not(a)) == a
  {}

  /** Checksums of consecutive pieces chain. */
  lemma ChecksumChains(p: bv32, a: seq<bv8>, b: seq<bv8>, r: bv32)
    ensures Checksum(p, b, Checksum(p, a, r)) == Checksum(p, a + b, r)
  {
    hide Crc, Not;
    NotTwice(Crc(p, Not(r), a));
    CrcConcat(p, Not(r), a, b);
  }

  method Crc32c(m: seq<bv8>, remainder: bv32) returns (r: bv32)
    ensures r == Checksum(CRC32C_POLY, m, remainder)
  {
    var t := ComputeTables(CRC32C_POLY);
    r := Tabular(CRC32C_POLY, m, Not(remainder), t);
    r := Not(r);
  }

  method Crc32(m: seq<bv8>, remainder: bv32) returns (r: bv32)
    ensures r == Checksum(CRC32_POLY, m, remainder)
  {
    var t := ComputeTables(CRC32_POLY);
    r := Tabular(CRC32_POLY, m, Not(remainder), t);
    r := Not(r);
  }
}
