/** `x^n mod P` by repeated carry-less squaring, and the stream merge built on it. */
module XnModP {
  import opened Words
  import opened CrcSpec

  // ---- 64-bit words

  function Xor64(a: bv64, b: bv64): bv64 { a ^ b }

  function Half64(a: bv64): bv64 { a >> 1 }

  function Double64(a: bv64): bv64 { a << 1 }

  predicate Odd64(a: bv64) { a & 1 == 1 }

  /** A 32-bit word moved up by `j` places. */
  function Up(b: bv32, j: nat): bv64
    requires j <= 33
    decreases j
  {
    if j == 0 then b as bv64 else Double64(Up(b, j - 1))
  }

  lemma Xor64Laws(a: bv64, b: bv64)
    ensures Half64(Xor64(a, b)) == Xor64(Half64(a), Half64(b))
    ensures Odd64(Xor64(a, b)) <==> Odd64(a) != Odd64(b)
  {}

  lemma Double64Laws(a: bv64, b: bv64)
    ensures Double64(Xor64(a, b)) == Xor64(Double64(a), Double64(b))
    ensures Double64(0) == 0 && !Odd64(Double64(a))
  {}

  lemma Widen(b: bv32)
    ensures Half64(b as bv64) == Half(b) as bv64
    ensures Odd64(b as bv64) <==> Odd(b)
  {}

  // ---- feeding 64-bit values

  /** The register after the low `k` bits of `v`, lowest bit first: the CRC instruction. */
  function Feed64(p: bv32, r: bv32, v: bv64, k: nat): bv32
    decreases k
  {
    if k == 0 then r else Feed64(p, FeedBit(p, r, Odd64(v)), Half64(v), k - 1)
  }

  lemma FeedBitLinear(p: bv32, r: bv32, s: bv32, b: bool, c: bool)
    ensures FeedBit(p, Xor(r, s), b != c) == Xor(FeedBit(p, r, b), FeedBit(p, s, c))
  {
    hide Xor, Step;
    var x: bv32, y: bv32 := if b then 1 else 0, if c then 1 else 0;
    XorPairs(r, x, s, y);
    XorUnit(x);
    XorUnit(y);
    StepLinear(p, Xor(r, x), Xor(s, y));
  }

  lemma {:induction false} Feed64Linear(p: bv32, r: bv32, s: bv32, v: bv64, w: bv64, k: nat)
    ensures Feed64(p, Xor(r, s), Xor64(v, w), k) == Xor(Feed64(p, r, v, k), Feed64(p, s, w, k))
    decreases k
  {
    hide Xor, Xor64, Half64, Odd64, FeedBit;
    if k != 0 {
      Xor64Laws(v, w);
      FeedBitLinear(p, r, s, Odd64(v), Odd64(w));
      Feed64Linear(p, FeedBit(p, r, Odd64(v)), FeedBit(p, s, Odd64(w)), Half64(v), Half64(w), k - 1);
    }
  }

  lemma {:induction false} Feed64OfWord(p: bv32, r: bv32, b: bv32, k: nat)
    ensures Feed64(p, r, b as bv64, k) == FeedBits(p, r, b, k)
    decreases k
  {
    hide Half, Odd, Half64, Odd64, FeedBit;
    if k != 0 {
      Widen(b);
      Feed64OfWord(p, FeedBit(p, r, Odd(b)), Half(b), k - 1);
    }
  }

  // ---- shifting up without loss

  predicate TopClear(v: bv64) { v & 0x8000_0000_0000_0000 == 0 }

  /** The top `n` bits of `v` are clear, so that `n` doublings lose nothing. */
  predicate Room(v: bv64, n: nat)
    decreases n
  {
    n == 0 || (TopClear(v) && Room(Double64(v), n - 1))
  }

  predicate HighByteClear(v: bv64) { v & 0xFF00_0000_0000_0000 == 0 }

  function Up8(v: bv64): bv64 { v << 8 }

  lemma RoomByte(v: bv64, n: nat)
    requires HighByteClear(v) && Room(Up8(v), n)
    ensures Room(v, n + 8)
  {
    hide Double64, TopClear, HighByteClear, Up8;
    RoomBits(v);
    assert Room(v << 7, n + 1) && Room(v << 6, n + 2) && Room(v << 5, n + 3) && Room(v << 4, n + 4);
    assert Room(v << 3, n + 5) && Room(v << 2, n + 6) && Room(v << 1, n + 7);
  }

  lemma RoomBits(v: bv64)
    requires HighByteClear(v)
    ensures TopClear(v) && TopClear(v << 1) && TopClear(v << 2) && TopClear(v << 3)
    ensures TopClear(v << 4) && TopClear(v << 5) && TopClear(v << 6) && TopClear(v << 7)
    ensures Double64(v) == v << 1 && Double64(v << 1) == v << 2 && Double64(v << 2) == v << 3
    ensures Double64(v << 3) == v << 4 && Double64(v << 4) == v << 5 && Double64(v << 5) == v << 6
    ensures Double64(v << 6) == v << 7 && Double64(v << 7) == Up8(v)
  {}

  lemma WordBytes(b: bv32)
    ensures var v := b as bv64;
      && HighByteClear(v) && HighByteClear(Up8(v))
      && HighByteClear(Up8(Up8(v))) && HighByteClear(Up8(Up8(Up8(v))))
  {}

  lemma WordRoom(b: bv32)
    ensures Room(b as bv64, 32)
  {
    hide Double64, TopClear, HighByteClear, Up8;
    var v := b as bv64;
    WordBytes(b);
    RoomByte(Up8(Up8(Up8(v))), 0);
    RoomByte(Up8(Up8(v)), 8);
    RoomByte(Up8(v), 16);
    RoomByte(v, 24);
  }

  lemma {:induction false} UpRoom(b: bv32, j: nat)
    requires j <= 32
    ensures Room(Up(b, j), 32 - j)
  {
    hide Double64, TopClear;
    if j == 0 {
      WordRoom(b);
    } else {
      UpRoom(b, j - 1);
    }
  }

  lemma HalfDouble(v: bv64)
    requires TopClear(v)
    ensures Half64(Double64(v)) == v && !Odd64(Double64(v))
  {}

  lemma FeedZero(p: bv32)
    ensures FeedBit(p, 0, false) == 0
  {}

  /** Zero bits fed into an empty register leave it empty. */
  lemma {:induction false} FeedUp(p: bv32, b: bv32, j: nat, k: nat)
    requires j <= 32
    ensures Feed64(p, 0, Up(b, j), k + j) == Feed64(p, 0, b as bv64, k)
  {
    hide Double64, TopClear, Half64, Odd64, FeedBit;
    if j > 0 {
      UpRoom(b, j - 1);
      HalfDouble(Up(b, j - 1));
      FeedZero(p);
      FeedUp(p, b, j - 1, k);
    }
  }

  lemma {:induction false} FitsMore(b: bv32, k: nat, n: nat)
    requires Fits(b, k) && k <= n
    ensures Fits(b, n)
    decreases n
  {
    hide Half;
    if k > 0 {
      FitsMore(Half(b), k - 1, n - 1);
    } else if n > 0 {
      HalfZero();
      FitsMore(0, 0, n - 1);
    }
  }

  lemma HalfZero()
    ensures Half(0) == 0
  {}

  lemma FitsByte(w: bv32, k: nat)
    requires Fits(Down8(w), k)
    ensures Fits(w, k + 8)
  {
    hide Half, Down8;
    HalfChain(w);
    assert Fits(w >> 7, k + 1) && Fits(w >> 6, k + 2) && Fits(w >> 5, k + 3) && Fits(w >> 4, k + 4);
    assert Fits(w >> 3, k + 5) && Fits(w >> 2, k + 6) && Fits(w >> 1, k + 7);
  }

  lemma NoByteLeft(w: bv32)
    ensures Down8(Down8(Down8(Down8(w)))) == 0
  {}

  lemma WordFits(w: bv32)
    ensures Fits(w, 32)
  {
    hide Half, Down8;
    NoByteLeft(w);
    FitsByte(Down8(Down8(Down8(w))), 0);
    FitsByte(Down8(Down8(w)), 8);
    FitsByte(Down8(w), 16);
    FitsByte(w, 24);
  }

  /** A word `j` places up in a 64-bit message: `64 - j` steps of that word. */
  lemma FeedUpIsSteps(p: bv32, b: bv32, j: nat)
    requires j <= 32
    ensures Feed64(p, 0, Up(b, j), 64) == Steps(p, b, 64 - j)
  {
    hide Half, Odd, Xor, Feed64, FeedBits, Steps, Up;
    FeedUp(p, b, j, 64 - j);
    Feed64OfWord(p, 0, b, 64 - j);
    WordFits(b);
    FitsMore(b, 32, 64 - j);
    FeedBitsIsSteps(p, 0, b, 64 - j);
    XorUnit(b);
  }

  // ---- carry-less multiplication

  /** The carry-less product of the low `k` bits of `a` with `b`, moved up by `j`. */
  function Clmul(a: bv32, b: bv32, j: nat, k: nat): bv64
    requires j + k <= 33
    decreases k
  {
    if k == 0 then 0
    else Xor64(if Odd(a) then Up(b, j) else 0, Clmul(Half(a), b, j + 1, k - 1))
  }

  function CarrylessMul(a: bv32, b: bv32): bv64 { Clmul(a, b, 0, 32) }

  lemma {:induction false} ClmulDouble(a: bv32, b: bv32, j: nat, k: nat)
    requires j + k <= 32
    ensures Double64(Clmul(a, b, j, k)) == Clmul(a, b, j + 1, k)
    decreases k
  {
    hide Xor64, Double64, Half, Odd;
    var first: bv64 := if Odd(a) then Up(b, j) else 0;
    Double64Laws(0, 0);
    if k > 0 {
      Double64Laws(first, Clmul(Half(a), b, j + 1, k - 1));
      ClmulDouble(Half(a), b, j + 1, k - 1);
    }
  }

  /** `x^n mod P`, in the reflected form where the top bit is `x^0`. */
  function XN(p: bv32, n: nat): bv32 { Steps(p, 0x8000_0000, n) }

  /** The first `n` shifts of `w` push out only clear bits. */
  predicate EvenRun(w: bv32, n: nat)
    decreases n
  {
    n == 0 || (!Odd(w) && EvenRun(Half(w), n - 1))
  }

  function ShiftRight(w: bv32, n: nat): bv32
    decreases n
  {
    if n == 0 then w else ShiftRight(Half(w), n - 1)
  }

  lemma {:induction false} ShiftOut(p: bv32, w: bv32, n: nat, k: nat)
    requires EvenRun(w, n) && k <= n
    ensures Steps(p, w, k) == ShiftRight(w, k)
    decreases k
  {
    hide Odd, Half, Xor;
    if k > 0 {
      ShiftOut(p, Half(w), n - 1, k - 1);
    }
  }

  lemma EvenByte(w: bv32, n: nat)
    requires LowByte(w) == 0 && EvenRun(Down8(w), n)
    ensures EvenRun(w, n + 8)
  {
    hide Odd, Half, LowByte, Down8;
    LowByteEven(w);
    HalfChain(w);
    assert EvenRun(w >> 7, n + 1) && EvenRun(w >> 6, n + 2) && EvenRun(w >> 5, n + 3) && EvenRun(w >> 4, n + 4);
    assert EvenRun(w >> 3, n + 5) && EvenRun(w >> 2, n + 6) && EvenRun(w >> 1, n + 7);
  }

  lemma ShiftByte(w: bv32, n: nat)
    ensures ShiftRight(w, n + 8) == ShiftRight(Down8(w), n)
  {
    hide Half, Down8;
    HalfChain(w);
    assert ShiftRight(w >> 7, n + 1) == ShiftRight(Down8(w), n);
    assert ShiftRight(w >> 5, n + 3) == ShiftRight(w >> 6, n + 2) == ShiftRight(w >> 7, n + 1);
    assert ShiftRight(w >> 3, n + 5) == ShiftRight(w >> 4, n + 4) == ShiftRight(w >> 5, n + 3);
    assert ShiftRight(w >> 1, n + 7) == ShiftRight(w >> 2, n + 6) == ShiftRight(w >> 3, n + 5);
  }

  lemma TopWord()
    ensures EvenRun(0x8000_0000, 31)
    ensures ShiftRight(0x8000_0000, 31) == 1
  {
    assert ShiftRight(0x80, 7) == 1;
    ShiftByte(0x8000, 7);
    ShiftByte(0x80_0000, 15);
    ShiftByte(0x8000_0000, 23);
    assert EvenRun(0x80, 7);
    EvenByte(0x8000, 7);
    EvenByte(0x80_0000, 15);
    EvenByte(0x8000_0000, 23);
  }

  /** The word 1 is `x^31`. */
  lemma OneIsX31(p: bv32)
    ensures XN(p, 31) == 1
  {
    hide EvenRun, Steps, ShiftRight;
    TopWord();
    ShiftOut(p, 0x8000_0000, 31, 31);
  }

  lemma OneSteps(p: bv32, n: nat)
    ensures Steps(p, 1, n) == XN(p, 31 + n)
  {
    hide Steps;
    OneIsX31(p);
    StepsAdd(p, 0x8000_0000, 31, n);
  }

  /** The CRC of a carry-less product with a power of x is that many more steps. */
  lemma {:induction false} ProductShifts(p: bv32, a: bv32, m: nat, j: nat, k: nat)
    requires Fits(a, k) && j + k <= 33
    ensures Feed64(p, 0, Clmul(a, XN(p, m), j, k), 64) == Steps(p, a, m + 33 - j)
    decreases k
  {
    hide Xor64, Xor, Half, Odd, Up, Feed64, Step;
    if k == 0 {
      StepsZero(p, m + 33 - j);
      FeedNothing(p, 64);
    } else {
      var b, t := XN(p, m), m + 33 - j;
      var first: bv64 := if Odd(a) then Up(b, j) else 0;
      var bit: bv32 := if Odd(a) then 1 else 0;
      var rest := a & 0xFFFF_FFFE;
      XorUnit(0);
      Feed64Linear(p, 0, 0, first, Clmul(Half(a), b, j + 1, k - 1), 64);
      ProductShifts(p, Half(a), m, j + 1, k - 1);
      LowBitSplit(a);
      StepsLinear(p, bit, rest, t);
      HalfOnce(p, rest, t);
      FeedUpIsSteps(p, b, j);
      StepsAdd(p, 0x8000_0000, m, 64 - j);
      OneSteps(p, t);
      StepsZero(p, t);
      FeedNothing(p, 64);
    }
  }

  lemma {:induction false} FeedNothing(p: bv32, k: nat)
    ensures Feed64(p, 0, 0, k) == 0
  {
    hide FeedBit;
    if k > 0 {
      FeedZero(p);
      FeedNothing(p, k - 1);
    }
  }

  /** Multiplying by `x^m` and reducing: `y << low` takes one step off. */
  lemma MulByPower(p: bv32, a: bv32, m: nat)
    ensures Feed64(p, 0, CarrylessMul(a, XN(p, m)), 64) == Steps(p, a, m + 33)
    ensures Feed64(p, 0, Double64(CarrylessMul(a, XN(p, m))), 64) == Steps(p, a, m + 32)
  {
    hide Feed64, Clmul, Double64, Fits, Steps;
    WordFits(a);
    ProductShifts(p, a, m, 0, 32);
    ProductShifts(p, a, m, 1, 32);
    ClmulDouble(a, XN(p, m), 0, 32);
  }

  // ---- xnmodp

  const TWO64: nat := 0x1_0000_0000_0000_0000

  /** The pushed bits, complemented, under a sentinel 1. */
  function Code(bits: seq<bool>): nat
  {
    if bits == [] then 1
    else 2 * Code(bits[..|bits| - 1]) + if bits[|bits| - 1] then 0 else 1
  }

  /** The exponent reached from `m` by popping every bit: `m -> 2m + 32 + bit`. */
  function Unwind(m: nat, bits: seq<bool>): nat
    decreases |bits|
  {
    if bits == [] then m
    else Unwind(2 * m + 32 + (if bits[|bits| - 1] then 1 else 0), bits[..|bits| - 1])
  }

  lemma {:induction false} CodeSentinel(bits: seq<bool>)
    ensures Code(bits) >= 1
    ensures Code(bits) == 1 <==> bits == []
  {
    if bits != [] {
      CodeSentinel(bits[..|bits| - 1]);
    }
  }

  /** How far the sentinel can have risen when the exponent has come down to `n`. */
  predicate Pending(n: nat, c: nat) {
    (n + 32) * (c + 1) <= 2 * (TWO64 + 32)
  }

  lemma MulMono(a: nat, b: nat, c: nat)
    requires a <= b
    ensures c * a <= c * b && a * c <= b * c
  {}

  lemma Regroup(a: nat, b: nat)
    ensures a * (2 * b) == (2 * a) * b
  {}

  lemma PendingPush(n: nat, c: nat, n': nat, c': nat)
    requires 2 * (n' + 32) <= n + 32 && c' + 1 <= 2 * (c + 1)
    requires Pending(n, c)
    ensures Pending(n', c')
  {
    MulMono(c' + 1, 2 * (c + 1), n' + 32);
    MulMono(2 * (n' + 32), n + 32, c + 1);
    Regroup(n' + 32, c + 1);
  }

  lemma SentinelLow(n: nat, c: nat)
    requires 191 < n && Pending(n, c)
    ensures 2 * c + 1 < TWO64
  {
    assert 224 * (c + 1) <= (n + 32) * (c + 1);
  }

  /** One push of the halving loop: the stack stays the complemented code, nothing is
      shifted out, and unwinding still leads back to the same exponent. */
  lemma Push(n: nat, bits: seq<bool>, stack: nat)
    requires 191 < n < TWO64 && Pending(n, Code(bits)) && stack + Code(bits) == TWO64 - 1
    ensures var next, n' := bits + [n % 2 == 1], n / 2 - 16;
      && Unwind(n', next) == Unwind(n, bits)
      && Pending(n', Code(next))
      && (2 * stack + n % 2) % TWO64 + Code(next) == TWO64 - 1
  {
    hide Pending;
    var next := bits + [n % 2 == 1];
    assert next[..|bits|] == bits;
    SentinelLow(n, Code(bits));
    PendingPush(n, Code(bits), n / 2 - 16, Code(next));
  }

  /** One pop of the squaring loop. */
  lemma Pop(p: bv32, acc: bv32, m: nat, bits: seq<bool>, stack: nat, low: nat)
    requires 0 < stack && low < 2 && 2 * stack + low == Code(bits) && acc == XN(p, m)
    ensures bits != [] && Code(bits[..|bits| - 1]) == stack
    ensures Unwind(2 * m + 33 - low, bits[..|bits| - 1]) == Unwind(m, bits)
    ensures var y := CarrylessMul(acc, acc);
      Feed64(p, 0, if low == 1 then Double64(y) else y, 64) == XN(p, 2 * m + 33 - low)
  {
    hide Feed64, XN, CarrylessMul, Double64, Steps;
    CodeSentinel(bits);
    MulByPower(p, acc, m);
    PowerAdd(p, m, m + 33);
    PowerAdd(p, m, m + 32);
  }

  method Xnmodp(p: bv32, n0: nat) returns (acc: bv32)
    requires n0 < TWO64
    ensures acc == XN(p, n0)
  {
    hide Feed64, Double64, XN, CarrylessMul, Code, Unwind, Pending;
    ghost var bits: seq<bool> := [];
    Start(n0);
    var n, stack := n0, TWO64 - 1 - 1;
    while n > 191
      invariant 0 <= n < TWO64 && 0 <= stack < TWO64
      invariant Unwind(n, bits) == n0 && Pending(n, Code(bits))
      invariant stack + Code(bits) == TWO64 - 1
    {
      Push(n, bits, stack);
      bits := bits + [n % 2 == 1];
      stack := (2 * stack + n % 2) % TWO64;
      n := n / 2 - 16;
    }
    stack := TWO64 - 1 - stack;

    ghost var m: nat := n;
    acc := LowPower(p, n);

    var low := stack % 2;
    stack := stack / 2;
    while stack != 0
      invariant 0 <= stack && 0 <= low < 2 && 2 * stack + low == Code(bits)
      invariant acc == XN(p, m) && Unwind(m, bits) == n0
    {
      Pop(p, acc, m, bits, stack, low);
      m, bits := 2 * m + 33 - low, bits[..|bits| - 1];
      var y := CarrylessMul(acc, acc);
      acc := Feed64(p, 0, if low == 1 then Double64(y) else y, 64);
      low := stack % 2;
      stack := stack / 2;
    }
    Finish(bits, m);
  }

  lemma Start(n: nat)
    requires n < TWO64
    ensures Unwind(n, []) == n && Code([]) == 1 && Pending(n, 1)
  {}

  lemma Finish(bits: seq<bool>, m: nat)
    requires Code(bits) < 2
    ensures Unwind(m, bits) == m
  {
    CodeSentinel(bits);
  }

  lemma PowerAdd(p: bv32, m: nat, n: nat)
    ensures Steps(p, XN(p, m), n) == XN(p, m + n)
  {
    hide Steps;
    StepsAdd(p, 0x8000_0000, m, n);
  }

  /** The exponents up to 191, directly: a shift and then whole zero words. */
  method LowPower(p: bv32, n: nat) returns (acc: bv32)
    ensures acc == XN(p, n)
  {
    hide FeedBits, EvenRun, Steps, XN, ShiftRight;
    TopWord();
    PowerOfShift(p, n % 32);
    acc := ShiftRight(0x8000_0000, n % 32);
    var k := n / 32;
    while k != 0
      invariant 0 <= k <= n / 32 && acc == XN(p, n - 32 * k)
    {
      ZeroWord(p, acc);
      PowerAdd(p, n - 32 * k, 32);
      acc := FeedBits(p, acc, 0, 32);
      k := k - 1;
    }
  }

  lemma PowerOfShift(p: bv32, k: nat)
    requires k < 32
    ensures ShiftRight(0x8000_0000, k) == XN(p, k)
  {
    hide EvenRun, ShiftRight, Steps;
    TopWord();
    ShiftOut(p, 0x8000_0000, 31, k);
  }

  lemma ZeroWord(p: bv32, r: bv32)
    ensures FeedBits(p, r, 0, 32) == Steps(p, r, 32)
  {
    hide FeedBits, Steps, Fits, Xor;
    WordFits(0);
    FeedBitsIsSteps(p, r, 0, 32);
    XorUnit(r);
  }
}
