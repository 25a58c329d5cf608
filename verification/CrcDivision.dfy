/** What the register holds, by polynomial long division: the remainder of the message, moved up by 32, modulo P. */
module CrcDivision {
  import opened Words
  import opened CrcSpec
  import opened CrcTabular
  import opened XnModP

  // ---- polynomials over GF(2), as sets of exponents

  type Poly = set<nat>

  function Add(a: Poly, b: Poly): Poly { (a - b) + (b - a) }

  predicate MovedUp(a: Poly, n: nat, e: nat) { e >= n && e - n in a }

  /** `a` times `x^n`. */
  function Times(a: Poly, n: nat): (r: Poly)
    ensures forall e: nat :: e in r <==> MovedUp(a, n, e)
  {
    TimesMoves(a, n);
    set e | e in a :: e + n
  }

  lemma TimesMoves(a: Poly, n: nat)
    ensures forall e: nat :: e in (set f | f in a :: f + n) <==> MovedUp(a, n, e)
  {
    var r := set f | f in a :: f + n;
    forall e: nat ensures e in r <==> MovedUp(a, n, e) {
      if MovedUp(a, n, e) {
        assert (e - n) + n in r;
      }
    }
  }

  /** The polynomial with coefficients `bits`, highest power first, times `q`. */
  function Product(bits: seq<bool>, q: Poly): Poly {
    if bits == [] then {}
    else Add(if bits[0] then Times(q, |bits| - 1) else {}, Product(bits[1..], q))
  }

  /** Bit `i` of a word, 0 the lowest. */
  predicate Bit(r: bv32, i: nat)
    decreases i
  {
    if i == 0 then Odd(r) else Bit(Half(r), i - 1)
  }

  /** A word as a polynomial: `x^0` in the highest bit. */
  function Value(r: bv32): Poly { set e: nat | e < 32 && Coefficient(r, e) }

  predicate Coefficient(r: bv32, e: nat)
    requires e < 32
  {
    Bit(r, 31 - e)
  }

  /** The generator: the feedback word holds every coefficient but that of `x^32`. */
  function Modulus(p: bv32): Poly { Add({32}, Value(p)) }

  lemma {:induction false} BitXor(a: bv32, b: bv32, i: nat)
    ensures Bit(Xor(a, b), i) <==> Bit(a, i) != Bit(b, i)
    decreases i
  {
    hide Xor, Half, Odd;
    if i == 0 {
      XorOdd(a, b);
    } else {
      XorHalf(a, b);
      BitXor(Half(a), Half(b), i - 1);
    }
  }

  lemma ValueXor(a: bv32, b: bv32)
    ensures Value(Xor(a, b)) == Add(Value(a), Value(b))
  {
    hide Xor, Half, Odd, Bit;
    forall e: nat | e < 32 ensures e in Value(Xor(a, b)) <==> e in Add(Value(a), Value(b)) {
      BitXor(a, b, 31 - e);
    }
  }

  lemma {:induction false} NoHighBit(r: bv32, k: nat)
    requires Fits(r, k)
    ensures !Bit(r, k)
    decreases k
  {
    hide Half;
    if k > 0 {
      NoHighBit(Half(r), k - 1);
    }
  }

  /** Moving a word down multiplies it by x, but for the bit that falls out. */
  lemma ValueHalf(r: bv32)
    ensures Times(Value(r), 1) == Add(Value(Half(r)), if Odd(r) then {32} else {})
  {
    hide Half, Odd, Fits;
    WordFits(r);
    NoHighBit(r, 32);
    forall e: nat ensures e in Times(Value(r), 1) <==> e in Add(Value(Half(r)), if Odd(r) then {32} else {}) {
      if 0 < e < 32 {
        assert Bit(r, 31 - (e - 1)) == Bit(Half(r), 31 - e);
      } else if e == 0 {
        assert Bit(r, 32) == Bit(Half(r), 31);
      }
    }
  }

  // ---- one bit of the division

  /** Whether the division takes P away. */
  predicate Feedback(r: bv32, bit: bool) { Odd(r) != bit }

  /** A bit fed in: the register times x, plus the bit at `x^32`, less P when that leaves an `x^32`. */
  lemma FeedBitDivides(p: bv32, r: bv32, bit: bool)
    ensures Add(Times(Value(r), 1), if bit then {32} else {}) ==
      Add(if Feedback(r, bit) then Modulus(p) else {}, Value(FeedBit(p, r, bit)))
  {
    hide Xor, Half, Odd, Value, Add, Times;
    LowBitFed(r, bit);
    ValueHalf(r);
    ValueXor(Half(r), p);
    TakeAway(Value(Half(r)), Value(p), Odd(r), bit);
  }

  /** P is taken away exactly when the bit that falls out and the bit fed in leave an `x^32`. */
  lemma TakeAway(h: Poly, v: Poly, low: bool, bit: bool)
    ensures Add(Add(h, if low then {32} else {}), if bit then {32} else {}) ==
      Add(if low != bit then Add({32}, v) else {}, if low != bit then Add(h, v) else h)
  {
    if low != bit {
      forall x ensures x in Add(Add(h, {32}), {}) <==> x in Add(Add({32}, v), Add(h, v)) {}
    } else if low {
      assert Add(Add(h, {32}), {32}) == h;
    }
  }

  lemma LowBitFed(r: bv32, bit: bool)
    ensures Half(Xor(r, if bit then 1 else 0)) == Half(r)
    ensures Odd(Xor(r, if bit then 1 else 0)) <==> Feedback(r, bit)
  {}

  lemma ValueBelow(r: bv32)
    ensures forall e :: e in Value(r) ==> e < 32
  {}

  // ---- the whole message

  function Feed(p: bv32, r: bv32, bits: seq<bool>): bv32
    decreases |bits|
  {
    if bits == [] then r else Feed(p, FeedBit(p, r, bits[0]), bits[1..])
  }

  /** The coefficients of the quotient, highest power first. */
  function Quotient(p: bv32, r: bv32, bits: seq<bool>): (q: seq<bool>)
    ensures |q| == |bits|
    decreases |bits|
  {
    if bits == [] then [] else [Feedback(r, bits[0])] + Quotient(p, FeedBit(p, r, bits[0]), bits[1..])
  }

  lemma TimesAdd(a: Poly, b: Poly, n: nat)
    ensures Times(Add(a, b), n) == Add(Times(a, n), Times(b, n))
  {}

  lemma TimesTimes(a: Poly, m: nat, n: nat)
    ensures Times(Times(a, m), n) == Times(a, m + n)
    ensures Times({m}, n) == {m + n} && Times({}, n) == {}
  {}

  lemma AddRegroup(a: Poly, b: Poly, c: Poly, d: Poly, e: Poly, f: Poly)
    requires Add(a, b) == Add(c, d) && Add(e, d) == f
    ensures Add(Add(b, e), a) == Add(c, f)
  {
    forall x ensures x in Add(Add(b, e), a) <==> x in Add(c, f) {
      assert x in Add(a, b) <==> x in Add(c, d);
      assert x in Add(e, d) <==> x in f;
    }
  }

  lemma AddThree(a: Poly, b: Poly, c: Poly)
    ensures Add(Add(a, b), c) == Add(a, Add(b, c))
  {
    forall x ensures x in Add(Add(a, b), c) <==> x in Add(a, Add(b, c)) {}
  }

  /** The equation of the division: message and starting register, each moved up past what follows, are a multiple of P
      plus the register. */
  lemma {:induction false} Division(p: bv32, r: bv32, bits: seq<bool>)
    ensures Add(Product(bits, {32}), Times(Value(r), |bits|)) ==
      Add(Product(Quotient(p, r, bits), Modulus(p)), Value(Feed(p, r, bits)))
    decreases |bits|
  {
    hide FeedBit, Feedback, Value, Modulus, Add, Times;
    if bits == [] {
      NothingFed(Value(r));
    } else {
      var n, rest := |bits| - 1, bits[1..];
      var next := FeedBit(p, r, bits[0]);
      var q := Quotient(p, next, rest);
      assert Quotient(p, r, bits)[1..] == q;
      Division(p, next, rest);
      FirstBit(p, r, bits[0], n);
      Combine(Times(Value(r), n + 1), if bits[0] then Times({32}, n) else {},
        if Feedback(r, bits[0]) then Times(Modulus(p), n) else {}, Times(Value(next), n),
        Product(rest, {32}), Product(q, Modulus(p)), Value(Feed(p, next, rest)));
    }
  }

  lemma NothingFed(a: Poly)
    ensures Add({}, Times(a, 0)) == Add({}, a)
  {
    assert Times(a, 0) == a;
  }

  /** The first bit of the division, moved up past the `n` that follow. */
  lemma FirstBit(p: bv32, r: bv32, bit: bool, n: nat)
    ensures Add(Times(Value(r), n + 1), if bit then Times({32}, n) else {}) ==
      Add(if Feedback(r, bit) then Times(Modulus(p), n) else {}, Times(Value(FeedBit(p, r, bit)), n))
  {
    hide FeedBit, Feedback, Value, Modulus, Add, Times;
    FeedBitDivides(p, r, bit);
    TimesTimes(Value(r), 1, n);
    TimesTimes({}, 0, n);
    TimesAdd(Times(Value(r), 1), if bit then {32} else {}, n);
    TimesAdd(if Feedback(r, bit) then Modulus(p) else {}, Value(FeedBit(p, r, bit)), n);
  }

  lemma Combine(a: Poly, b: Poly, c: Poly, d: Poly, e: Poly, f: Poly, g: Poly)
    requires Add(a, b) == Add(c, d) && Add(e, d) == Add(f, g)
    ensures Add(Add(b, e), a) == Add(Add(c, f), g)
  {
    hide Add;
    AddRegroup(a, b, c, d, e, Add(f, g));
    AddThree(c, f, g);
  }

  // ---- the remainder is the only one

  lemma {:induction false} ProductBound(bits: seq<bool>, q: Poly)
    requires forall e :: e in q ==> e <= 32
    ensures forall e :: e in Product(bits, q) ==> e < 32 + |bits|
    decreases |bits|
  {
    if bits != [] {
      ProductBound(bits[1..], q);
    }
  }

  function Sum(a: seq<bool>, b: seq<bool>): seq<bool>
    requires |a| == |b|
  {
    seq(|a|, i requires 0 <= i < |a| => a[i] != b[i])
  }

  lemma {:induction false} ProductSum(a: seq<bool>, b: seq<bool>, q: Poly)
    requires |a| == |b|
    ensures Product(Sum(a, b), q) == Add(Product(a, q), Product(b, q))
    decreases |a|
  {
    if a != [] {
      ProductSum(a[1..], b[1..], q);
      assert Sum(a, b)[1..] == Sum(a[1..], b[1..]);
      hide Times;
      var s, t := Product(a[1..], q), Product(b[1..], q);
      SumStep(if a[0] then Times(q, |a| - 1) else {}, if b[0] then Times(q, |a| - 1) else {}, s, t);
      assert (if a[0] != b[0] then Times(q, |a| - 1) else {}) ==
        Add(if a[0] then Times(q, |a| - 1) else {}, if b[0] then Times(q, |a| - 1) else {});
    }
  }

  lemma SumStep(a: Poly, b: Poly, s: Poly, t: Poly)
    ensures Add(Add(a, b), Add(s, t)) == Add(Add(a, s), Add(b, t))
  {
    forall x ensures x in Add(Add(a, b), Add(s, t)) <==> x in Add(Add(a, s), Add(b, t)) {}
  }

  lemma ModulusTop(p: bv32)
    ensures 32 in Modulus(p) && forall e :: e in Modulus(p) ==> e <= 32
  {}

  lemma TopStays(q: Poly, n: nat, rest: Poly)
    requires 32 in q && forall e :: e in rest ==> e < 32 + n
    ensures 32 + n in Add(Times(q, n), rest)
  {
    assert MovedUp(q, n, 32 + n);
  }

  lemma NothingAdded(a: Poly)
    ensures Add({}, a) == a
  {}

  /** A multiple of P below `x^32` is nothing at all. */
  lemma {:induction false} SmallMultiple(bits: seq<bool>, p: bv32)
    requires forall e :: e in Product(bits, Modulus(p)) ==> e < 32
    ensures Product(bits, Modulus(p)) == {}
    decreases |bits|
  {
    hide Modulus, Times, Add;
    if bits != [] {
      var n, rest := |bits| - 1, bits[1..];
      ModulusTop(p);
      ProductBound(rest, Modulus(p));
      assert Product(bits, Modulus(p)) == Add(if bits[0] then Times(Modulus(p), n) else {}, Product(rest, Modulus(p)));
      if bits[0] {
        TopStays(Modulus(p), n, Product(rest, Modulus(p)));
        assert false;
      } else {
        NothingAdded(Product(rest, Modulus(p)));
        SmallMultiple(rest, p);
      }
    }
  }

  /** `r` is the remainder of `a` modulo P, with a quotient of `n` coefficients. */
  ghost predicate IsRemainder(p: bv32, a: Poly, n: nat, r: Poly) {
    (forall e :: e in r ==> e < 32) && exists q: seq<bool> :: |q| == n && a == Add(Product(q, Modulus(p)), r)
  }

  lemma RemainderUnique(p: bv32, a: Poly, n: nat, r: Poly, s: Poly)
    requires IsRemainder(p, a, n, r) && IsRemainder(p, a, n, s)
    ensures r == s
  {
    hide Product, Modulus;
    var q :| |q| == n && a == Add(Product(q, Modulus(p)), r);
    var t: seq<bool> :| |t| == n && a == Add(Product(t, Modulus(p)), s);
    ProductSum(q, t, Modulus(p));
    var d := Product(Sum(q, t), Modulus(p));
    forall x ensures x in d <==> x in Add(r, s) {
      assert x in a <==> x in Add(Product(q, Modulus(p)), r);
      assert x in a <==> x in Add(Product(t, Modulus(p)), s);
    }
    SmallMultiple(Sum(q, t), p);
    forall x ensures x in r <==> x in s {
      assert x !in Add(r, s);
    }
  }

  // ---- bytes

  /** The low `k` bits of a word, lowest first. */
  function BitsOf(w: bv32, k: nat): (bits: seq<bool>)
    ensures |bits| == k
    decreases k
  {
    if k == 0 then [] else [Odd(w)] + BitsOf(Half(w), k - 1)
  }

  function MessageBits(m: seq<bv8>): (bits: seq<bool>)
    ensures |bits| == 8 * |m|
  {
    if m == [] then [] else MessageBits(m[..|m| - 1]) + BitsOf(m[|m| - 1] as bv32, 8)
  }

  lemma {:induction false} FeedBitsFeeds(p: bv32, r: bv32, b: bv32, k: nat)
    ensures FeedBits(p, r, b, k) == Feed(p, r, BitsOf(b, k))
    decreases k
  {
    hide FeedBit, Odd, Half;
    if k > 0 {
      assert BitsOf(b, k)[1..] == BitsOf(Half(b), k - 1);
      FeedBitsFeeds(p, FeedBit(p, r, Odd(b)), Half(b), k - 1);
    }
  }

  lemma {:induction false} FeedAdd(p: bv32, r: bv32, a: seq<bool>, b: seq<bool>)
    ensures Feed(p, r, a + b) == Feed(p, Feed(p, r, a), b)
    decreases |a|
  {
    hide FeedBit;
    if a == [] {
      assert a + b == b;
    } else {
      assert (a + b)[1..] == a[1..] + b;
      FeedAdd(p, FeedBit(p, r, a[0]), a[1..], b);
    }
  }

  lemma {:induction false} CrcFeeds(p: bv32, r: bv32, m: seq<bv8>)
    ensures Crc(p, r, m) == Feed(p, r, MessageBits(m))
    decreases |m|
  {
    hide Feed, FeedBits, BitsOf;
    if m == [] {
      assert Feed(p, r, []) == r by { FeedNone(p, r); }
    } else {
      var front, last := m[..|m| - 1], m[|m| - 1] as bv32;
      CrcFeeds(p, r, front);
      FeedBitsFeeds(p, Crc(p, r, front), last, 8);
      FeedAdd(p, r, MessageBits(front), BitsOf(last, 8));
    }
  }

  lemma FeedNone(p: bv32, r: bv32)
    ensures Feed(p, r, []) == r
  {}

  /** The register after a message is the one remainder modulo P of the message moved up by 32, its first bit the highest
      power, plus the starting register moved up past the message. */
  lemma CrcIsRemainder(p: bv32, r: bv32, m: seq<bv8>)
    ensures var dividend := Add(Product(MessageBits(m), {32}), Times(Value(r), 8 * |m|));
      && IsRemainder(p, dividend, 8 * |m|, Value(Crc(p, r, m)))
      && forall s :: IsRemainder(p, dividend, 8 * |m|, s) ==> s == Value(Crc(p, r, m))
  {
    hide Product, Times, Value, Modulus, Add, Feed, Crc;
    var bits := MessageBits(m);
    CrcFeeds(p, r, m);
    Division(p, r, bits);
    ValueBelow(Crc(p, r, m));
    var dividend := Add(Product(bits, {32}), Times(Value(r), 8 * |m|));
    assert |Quotient(p, r, bits)| == 8 * |m|;
    forall s | IsRemainder(p, dividend, 8 * |m|, s) ensures s == Value(Crc(p, r, m)) {
      RemainderUnique(p, dividend, 8 * |m|, s, Value(Crc(p, r, m)));
    }
  }

  // ---- powers of x

  function Zeros(n: nat): (bits: seq<bool>)
    ensures |bits| == n
  {
    if n == 0 then [] else [false] + Zeros(n - 1)
  }

  lemma {:induction false} StepsFeed(p: bv32, r: bv32, n: nat)
    ensures Steps(p, r, n) == Feed(p, r, Zeros(n)) && Product(Zeros(n), {32}) == {}
    decreases n
  {
    hide Xor, Step;
    if n > 0 {
      assert Zeros(n)[1..] == Zeros(n - 1);
      XorUnit(r);
      StepsFeed(p, Step(p, r), n - 1);
    }
  }

  lemma TopIsOne()
    ensures Value(0x8000_0000) == {0}
  {
    hide Half, Odd;
    TopWord();
    forall e: nat | e < 32 ensures Coefficient(0x8000_0000, e) <==> e == 0 {
      TopBit(0x8000_0000, 31, 31 - e);
    }
  }

  /** Below the first `n` clear bits of a word stands the bit that ends them. */
  lemma {:induction false} TopBit(w: bv32, n: nat, i: nat)
    requires EvenRun(w, n) && ShiftRight(w, n) == 1 && i <= n
    ensures Bit(w, i) <==> i == n
    decreases i
  {
    hide Half;
    if n == 0 {
      assert Odd(1);
    } else if i > 0 {
      TopBit(Half(w), n - 1, i - 1);
    }
  }

  /** What `xnmodp` returns is the one remainder of `x^n` modulo P. */
  lemma PowerIsRemainder(p: bv32, n: nat)
    ensures IsRemainder(p, {n}, n, Value(XN(p, n)))
    ensures forall s :: IsRemainder(p, {n}, n, s) ==> s == Value(XN(p, n))
  {
    hide Product, Value, Modulus, Feed, Steps, Times;
    StepsFeed(p, 0x8000_0000, n);
    Division(p, 0x8000_0000, Zeros(n));
    TopIsOne();
    TimesTimes({}, 0, n);
    assert Times({0}, n) == {n} by { TimesTimes({0}, 0, n); }
    ValueBelow(XN(p, n));
    assert |Quotient(p, 0x8000_0000, Zeros(n))| == n;
    forall s | IsRemainder(p, {n}, n, s) ensures s == Value(XN(p, n)) {
      RemainderUnique(p, {n}, n, s, Value(XN(p, n)));
    }
  }

  /** `x^32` is P less its highest power. */
  lemma XToThe32(p: bv32)
    ensures XN(p, 32) == p
  {
    hide XN;
    OneSteps(p, 1);
    assert Steps(p, 1, 1) == Step(p, 1) == Xor(Half(1), p);
    assert Half(1) == 0;
    XorUnit(p);
  }

  // ---- the two generators

  function With(c: bool, e: nat, s: Poly): Poly { if c then {e} + s else s }

  /** The exponents of a word's low `k` bits, the lowest bit standing for `x^(k-1)`. */
  function Exponents(w: bv32, k: nat): Poly
    decreases k
  {
    if k == 0 then {} else With(Odd(w), k - 1, Exponents(Half(w), k - 1))
  }

  lemma {:induction false} ExponentsAre(w: bv32, k: nat)
    requires k <= 32
    ensures forall e: nat :: e in Exponents(w, k) <==> e < k && Bit(w, k - 1 - e)
    decreases k
  {
    hide Odd, Half;
    if k > 0 {
      ExponentsAre(Half(w), k - 1);
    }
  }

  lemma FourExponents(w: bv32, k: nat)
    requires k >= 4
    ensures Exponents(w, k) == With(Odd(w), k - 1, With(Odd(w >> 1), k - 2,
      With(Odd(w >> 2), k - 3, With(Odd(w >> 3), k - 4, Exponents(w >> 4, k - 4)))))
  {
    hide Odd, Half, With;
    HalfChain(w);
    assert Exponents(w, k) == With(Odd(w), k - 1, Exponents(w >> 1, k - 1));
    assert Exponents(w >> 1, k - 1) == With(Odd(w >> 1), k - 2, Exponents(w >> 2, k - 2));
    assert Exponents(w >> 2, k - 2) == With(Odd(w >> 2), k - 3, Exponents(w >> 3, k - 3));
  }

  lemma NoExponents()
    ensures Exponents(0, 0) == {}
  {}

  lemma ValueExponents(w: bv32)
    ensures Value(w) == Exponents(w, 32)
  {
    hide Exponents, Bit;
    ExponentsAre(w, 32);
  }

  lemma Crc32cLowPowers()
    ensures Exponents(0x82F6, 16) == {14, 13, 11, 10, 9, 8, 6, 0}
  {
    hide Exponents, Half;
    NoExponents();
    assert Exponents(0x8, 4) == {0} by { FourExponents(0x8, 4); }
    assert Exponents(0x82, 8) == {6, 0} by { FourExponents(0x82, 8); }
    assert Exponents(0x82F, 12) == {11, 10, 9, 8, 6, 0} by { FourExponents(0x82F, 12); }
    assert Exponents(0x82F6, 16) == {14, 13, 11, 10, 9, 8, 6, 0} by { FourExponents(0x82F6, 16); }
  }

  /** The exponents of 0x1EDC6F41, the generator of section 12.1 of RFC 3720, and `x^32`. */
  lemma Crc32cGenerator()
    ensures Modulus(CRC32C_POLY) == {32, 28, 27, 26, 25, 23, 22, 20, 19, 18, 14, 13, 11, 10, 9, 8, 6, 0}
  {
    hide Exponents, Half;
    Crc32cLowPowers();
    assert Exponents(0x82F63, 20) == {19, 18, 14, 13, 11, 10, 9, 8, 6, 0} by { FourExponents(0x82F63, 20); }
    assert Exponents(0x82F63B, 24) == {23, 22, 20, 19, 18, 14, 13, 11, 10, 9, 8, 6, 0} by {
      FourExponents(0x82F63B, 24);
    }
    assert Exponents(0x82F63B7, 28) == {27, 26, 25, 23, 22, 20, 19, 18, 14, 13, 11, 10, 9, 8, 6, 0} by {
      FourExponents(0x82F63B7, 28);
    }
    assert Exponents(0x82F63B78, 32) == {28, 27, 26, 25, 23, 22, 20, 19, 18, 14, 13, 11, 10, 9, 8, 6, 0} by {
      FourExponents(0x82F63B78, 32);
    }
    ValueExponents(CRC32C_POLY);
  }

  lemma Crc32LowPowers()
    ensures Exponents(0xEDB8, 16) == {12, 11, 10, 8, 7, 5, 4, 2, 1, 0}
  {
    hide Exponents, Half;
    NoExponents();
    assert Exponents(0xE, 4) == {2, 1, 0} by { FourExponents(0xE, 4); }
    assert Exponents(0xED, 8) == {7, 5, 4, 2, 1, 0} by { FourExponents(0xED, 8); }
    assert Exponents(0xEDB, 12) == {11, 10, 8, 7, 5, 4, 2, 1, 0} by { FourExponents(0xEDB, 12); }
    assert Exponents(0xEDB8, 16) == {12, 11, 10, 8, 7, 5, 4, 2, 1, 0} by { FourExponents(0xEDB8, 16); }
  }

  /** The generator of section 3.4 of RFC 2083. */
  lemma Crc32Generator()
    ensures Modulus(CRC32_POLY) == {32, 26, 23, 22, 16, 12, 11, 10, 8, 7, 5, 4, 2, 1, 0}
  {
    hide Exponents, Half;
    Crc32LowPowers();
    assert Exponents(0xEDB88, 20) == {16, 12, 11, 10, 8, 7, 5, 4, 2, 1, 0} by { FourExponents(0xEDB88, 20); }
    assert Exponents(0xEDB883, 24) == {23, 22, 16, 12, 11, 10, 8, 7, 5, 4, 2, 1, 0} by { FourExponents(0xEDB883, 24); }
    assert Exponents(0xEDB8832, 28) == {26, 23, 22, 16, 12, 11, 10, 8, 7, 5, 4, 2, 1, 0} by {
      FourExponents(0xEDB8832, 28);
    }
    assert Exponents(0xEDB88320, 32) == {26, 23, 22, 16, 12, 11, 10, 8, 7, 5, 4, 2, 1, 0} by {
      FourExponents(0xEDB88320, 32);
    }
    ValueExponents(CRC32_POLY);
  }

  // ---- the conditioning, and one value of each

  /** A message followed by its own checksum, low byte first, leaves one and the same register whatever the message. */
  lemma Residue(p: bv32, m: seq<bv8>)
    ensures var c := Checksum(p, m, 0);
      Crc(p, 0xFFFF_FFFF, m + [ByteAt(c, 0), ByteAt(c, 1), ByteAt(c, 2), ByteAt(c, 3)]) == Steps(p, 0xFFFF_FFFF, 32)
  {
    hide Crc, Steps, Xor, Lane, ByteAt, Load32, Not;
    var c := Checksum(p, m, 0);
    var whole := m + [ByteAt(c, 0), ByteAt(c, 1), ByteAt(c, 2), ByteAt(c, 3)];
    Absorb4(p, 0xFFFF_FFFF, whole, |m|);
    assert whole[..|m|] == m && whole[..|m| + 4] == whole;
    LoadsItself(whole, |m|, c);
    NotIsXor(Crc(p, 0xFFFF_FFFF, m));
  }

  lemma LoadsItself(m: seq<bv8>, i: nat, w: bv32)
    requires i + 4 <= |m| && forall j: nat :: j < 4 ==> m[i + j] == ByteAt(w, j)
    ensures Load32(m, i) == w
  {
    hide Xor, Lane, ByteAt;
    var l0, l1, l2, l3 := Lane(ByteAt(w, 0), 0), Lane(ByteAt(w, 1), 1), Lane(ByteAt(w, 2), 2), Lane(ByteAt(w, 3), 3);
    assert Load32(m, i) == Xor(Xor(Xor(l0, l1), l2), l3);
    WordIsLanes(w);
    XorTurn(l0, l1, l2, l3);
  }

  lemma XorTurn(a: bv32, b: bv32, c: bv32, d: bv32)
    ensures Xor(Xor(Xor(a, b), c), d) == Xor(Xor(Xor(d, c), b), a)
  {
    hide Xor;
    XorComm(Xor(Xor(a, b), c), d);
    XorComm(Xor(a, b), c);
    XorComm(a, b);
    XorAssoc(d, c, Xor(b, a));
    XorAssoc(Xor(d, c), b, a);
  }

  lemma NotIsXor(r: bv32)
    ensures Not(0) == 0xFFFF_FFFF && Xor(r, Not(r)) == 0xFFFF_FFFF
  {}

  lemma OneByte(p: bv32, b: bv8)
    ensures Checksum(p, [b], 0) == Not(Steps(p, Xor(0xFFFF_FFFF, b as bv32), 8))
  {
    hide Steps, Xor, FeedBits;
    FeedByte(p, 0xFFFF_FFFF, b);
    assert Crc(p, 0xFFFF_FFFF, [b][..0]) == 0xFFFF_FFFF;
    assert Not(0) == 0xFFFF_FFFF;
  }

  /** The value the tests of the program ask for: the CRC-32C of the character 1. */
  lemma Crc32cOfDigitOne()
    ensures Checksum(CRC32C_POLY, [0x31], 0) == 0x90F599E3
  {
    assert Step(CRC32C_POLY, 0xFFFFFFCE) == 0x7FFFFFE7;
    assert Step(CRC32C_POLY, 0x7FFFFFE7) == 0xBD09C48B;
    assert Step(CRC32C_POLY, 0xBD09C48B) == 0xDC72D93D;
    assert Step(CRC32C_POLY, 0xDC72D93D) == 0xECCF57E6;
    assert Step(CRC32C_POLY, 0xECCF57E6) == 0x7667ABF3;
    assert Step(CRC32C_POLY, 0x7667ABF3) == 0xB9C5EE81;
    assert Step(CRC32C_POLY, 0xB9C5EE81) == 0xDE14CC38;
    assert Step(CRC32C_POLY, 0xDE14CC38) == 0x6F0A661C;
    OneByte(CRC32C_POLY, 0x31);
  }

  /** The CRC-32 of the character 1. */
  lemma Crc32OfDigitOne()
    ensures Checksum(CRC32_POLY, [0x31], 0) == 0x83DCEFB7
  {
    assert Step(CRC32_POLY, 0xFFFFFFCE) == 0x7FFFFFE7;
    assert Step(CRC32_POLY, 0x7FFFFFE7) == 0xD2477CD3;
    assert Step(CRC32_POLY, 0xD2477CD3) == 0x849B3D49;
    assert Step(CRC32_POLY, 0x849B3D49) == 0xAFF51D84;
    assert Step(CRC32_POLY, 0xAFF51D84) == 0x57FA8EC2;
    assert Step(CRC32_POLY, 0x57FA8EC2) == 0x2BFD4761;
    assert Step(CRC32_POLY, 0x2BFD4761) == 0xF8462090;
    assert Step(CRC32_POLY, 0xF8462090) == 0x7C231048;
    OneByte(CRC32_POLY, 0x31);
  }
}
