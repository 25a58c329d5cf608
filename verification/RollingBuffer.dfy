/** The rolling contiguous buffer: a growing store whose visible end is the last items. */
module RollingBuffer {

  function Min(a: nat, b: nat): nat { if a <= b then a else b }

  /** The last `n` items of `s`, or all of them. */
  function LastN<T>(s: seq<T>, n: nat): seq<T> {
    if |s| <= n then s else s[|s| - n..]
  }

  lemma LastNAppend<T>(a: seq<T>, b: seq<T>, n: nat, k: nat)
    requires k <= n && n <= k + |b|
    ensures LastN(LastN(a, k) + b, n) == LastN(a + b, n)
  {}

  lemma LastNTwice<T>(a: seq<T>, n: nat, k: nat)
    ensures LastN(LastN(a, n), k) == LastN(a, Min(n, k))
  {}

  ghost predicate SameTail<T>(a: seq<T>, b: seq<T>, n: nat) {
    LastN(a, n) == LastN(b, n)
  }

  /** Histories that agree on the part not pushed out show the same after an insertion. */
  lemma SameTailAppend<T>(a: seq<T>, b: seq<T>, xs: seq<T>, n: nat)
    requires |xs| < n ==> SameTail(a, b, n - |xs|)
    ensures LastN(a + xs, n) == LastN(b + xs, n)
  {
    hide LastN;
    var k := if |xs| < n then n - |xs| else 0;
    LastOfNone(a);
    LastOfNone(b);
    LastNAppend(a, xs, n, k);
    LastNAppend(b, xs, n, k);
  }

  lemma LastOfNone<T>(s: seq<T>)
    ensures LastN(s, 0) == []
  {}

  lemma DroppedPrefix<T>(a: seq<T>, xs: seq<T>, start: nat, n: nat)
    requires start == if |xs| > n then |xs| - n else 0
    ensures LastN(a + xs[start..], n) == LastN(a + xs, n)
  {}

  lemma TailKept<T>(s: seq<T>, n: nat, k: nat)
    requires k <= n
    ensures SameTail(s, LastN(s, n), k) && SameTail(LastN(s, k), LastN(s, n), k)
  {}

  // ---- what a run of operations shows

  datatype Op<T> = Push(x: T) | Extend(xs: seq<T>) | Resize(size: nat, reserve: nat) | Clear

  datatype View<T> = View(size: nat, shown: seq<T>)

  function Apply<T>(v: View<T>, op: Op<T>): View<T> {
    match op
    case Push(x) => v.(shown := LastN(v.shown + [x], v.size))
    case Extend(xs) => v.(shown := LastN(v.shown + xs, v.size))
    case Resize(n, _) => View(n, LastN(v.shown, n))
    case Clear => v.(shown := [])
  }

  function Run<T>(v: View<T>, ops: seq<Op<T>>): View<T> {
    if ops == [] then v else Apply(Run(v, ops[..|ops| - 1]), ops[|ops| - 1])
  }

  /** Everything inserted since the last clear. */
  function Log<T>(ops: seq<Op<T>>): seq<T> {
    if ops == [] then []
    else
      var before := Log(ops[..|ops| - 1]);
      match ops[|ops| - 1]
      case Push(x) => before + [x]
      case Extend(xs) => before + xs
      case Resize(_, _) => before
      case Clear => []
  }

  /** The size after the operations. */
  function SizeAfter<T>(size: nat, ops: seq<Op<T>>): nat {
    if ops == [] then size
    else if ops[|ops| - 1].Resize? then ops[|ops| - 1].size
    else SizeAfter(size, ops[..|ops| - 1])
  }

  /** How many items are still there: insertions fill up to the size of the moment, a resize trims, a clear empties. */
  function Kept<T>(size: nat, ops: seq<Op<T>>): nat {
    if ops == [] then 0
    else
      var k, n := Kept(size, ops[..|ops| - 1]), SizeAfter(size, ops);
      match ops[|ops| - 1]
      case Push(_) => Min(n, k + 1)
      case Extend(xs) => Min(n, k + |xs|)
      case Resize(_, _) => Min(n, k)
      case Clear => 0
  }

  /** Whatever the run, the buffer shows exactly the most recent items of the log that are still there: all that fit when
      it was never resized. */
  lemma {:induction false} RunShowsTail<T>(size: nat, ops: seq<Op<T>>)
    ensures var v, k := Run(View(size, []), ops), Kept(size, ops);
      && k <= Min(v.size, |Log(ops)|)
      && v == View(SizeAfter(size, ops), LastN(Log(ops), k))
      && ((forall i :: 0 <= i < |ops| ==> !ops[i].Resize?) ==> v.size == size && k == Min(size, |Log(ops)|))
  {
    hide LastN;
    LastOfNone<T>([]);
    if ops != [] {
      var init, last := ops[..|ops| - 1], ops[|ops| - 1];
      RunShowsTail(size, init);
      var k, n, log := Kept(size, init), SizeAfter(size, init), Log(init);
      match last
      case Push(x) => SuffixAppend(log, [x], k, n);
      case Extend(xs) => SuffixAppend(log, xs, k, n);
      case Resize(m, _) => LastNTwice(log, k, m);
      case Clear =>
    }
  }

  lemma SuffixAppend<T>(log: seq<T>, xs: seq<T>, k: nat, n: nat)
    requires k <= n && k <= |log|
    ensures var s := LastN(LastN(log, k) + xs, n);
      && |s| == Min(n, k + |xs|) && s == LastN(log + xs, |s|)
      && (k == Min(n, |log|) ==> s == LastN(log + xs, n))
  {}

  // ---- what a run of insertions costs

  function ShiftCost(posEnd: nat, n: nat, size: nat, maxSize: nat): nat {
    if posEnd + n > maxSize && n < size then size - n else 0
  }

  function NextEnd(posEnd: nat, n: nat, size: nat, maxSize: nat): nat {
    if posEnd + n <= maxSize then posEnd + n else if n < size then size else n
  }

  function TotalShifted(counts: seq<nat>, size: nat, maxSize: nat): nat {
    if counts == [] then 0
    else
      var init := counts[..|counts| - 1];
      TotalShifted(init, size, maxSize) + ShiftCost(EndAfter(init, size, maxSize), counts[|counts| - 1], size, maxSize)
  }

  function EndAfter(counts: seq<nat>, size: nat, maxSize: nat): nat {
    if counts == [] then 0
    else NextEnd(EndAfter(counts[..|counts| - 1], size, maxSize), counts[|counts| - 1], size, maxSize)
  }

  function Total(counts: seq<nat>): nat {
    if counts == [] then 0 else Total(counts[..|counts| - 1]) + counts[|counts| - 1]
  }

  /** With a reserve of at least the size, shifting costs at most one move per insertion. */
  lemma {:induction false} ShiftingIsAmortised(counts: seq<nat>, size: nat, maxSize: nat)
    requires 2 * size <= maxSize
    ensures TotalShifted(counts, size, maxSize) + EndAfter(counts, size, maxSize) <= Total(counts)
  {
    if counts != [] {
      ShiftingIsAmortised(counts[..|counts| - 1], size, maxSize);
    }
  }

  function Ones(k: nat): seq<nat> {
    if k == 0 then [] else Ones(k - 1) + [1]
  }

  function Product(a: nat, b: nat): nat { a * b }

  lemma ProductStep(a: nat, b: nat)
    ensures Product(0, b) == 0 && Product(a + 1, b) == Product(a, b) + b
  {}

  lemma CostOfOneMore(c: seq<nat>, n: nat, size: nat, maxSize: nat)
    ensures TotalShifted([], size, maxSize) == EndAfter([], size, maxSize) == Total([]) == 0
    ensures TotalShifted(c + [n], size, maxSize) ==
      TotalShifted(c, size, maxSize) + ShiftCost(EndAfter(c, size, maxSize), n, size, maxSize)
    ensures EndAfter(c + [n], size, maxSize) == NextEnd(EndAfter(c, size, maxSize), n, size, maxSize)
    ensures Total(c + [n]) == Total(c) + n
  {
    assert (c + [n])[..|c|] == c;
  }

  /** With no reserve at all, every push past the first `size` moves all but one item. */
  lemma {:induction false} ShiftingWithoutReserve(k: nat, size: nat)
    requires 1 <= size
    ensures TotalShifted(Ones(k), size, size) == if k <= size then 0 else Product(k - size, size - 1)
    ensures EndAfter(Ones(k), size, size) == Min(k, size) && Total(Ones(k)) == k
  {
    hide Product, TotalShifted, EndAfter, Total;
    CostOfOneMore([], 1, size, size);
    if k > 0 {
      if k > size {
        ProductStep(k - size - 1, size - 1);
      }
      ShiftingWithoutReserve(k - 1, size);
      CostOfOneMore(Ones(k - 1), 1, size, size);
    }
  }

  // ---- the buffer

  /** Two ranges of `n` items have none in common. */
  predicate Disjoint(from: nat, to: nat, n: nat) { from + n <= to || to + n <= from }

  class Buffer<T> {
    const trivial: bool       // whether T may be copied byte by byte
    var data: seq<T>
    var capacity: nat         // of the vector that holds `data`
    var cbSize: nat
    var maxSize: nat
    var posBegin: nat
    var posEnd: nat
    ghost var moved: nat      // elements copied by shifts since the last reset
    ghost var inserted: nat   // elements inserted since the last reset

    ghost predicate Valid()
      reads this
    {
      && |data| == posEnd
      && posBegin == (if posEnd > cbSize then posEnd - cbSize else 0)
      && cbSize <= maxSize
      && posEnd <= capacity
      && capacity <= StorageBound()
      && (2 * cbSize <= maxSize ==> moved + posEnd <= inserted)
    }

    /** The advertised maximum; a buffer that may hold nothing still stores one item. */
    function StorageBound(): nat
      reads this
    {
      if maxSize == 0 then 1 else maxSize
    }

    /** What the iterators show. */
    function Contents(): (s: seq<T>)
      requires posBegin <= posEnd <= |data|
      reads this
      ensures |data| == posEnd && posBegin == (if posEnd > cbSize then posEnd - cbSize else 0) ==>
        s == LastN(data, cbSize)
    {
      data[posBegin..posEnd]
    }

    constructor (size: nat, reserveSize: nat, trivial: bool)
      ensures Valid() && Contents() == []
      ensures cbSize == size && maxSize == size + reserveSize
    {
      this.trivial := trivial;
      data, capacity := [], 0;
      cbSize, maxSize := size, size + reserveSize;
      posBegin, posEnd := 0, 0;
      moved, inserted := 0, 0;
    }

    method AdvancePos(count: nat)
      requires posBegin == (if posEnd > cbSize then posEnd - cbSize else 0)
      modifies this`posBegin, this`posEnd
      ensures posEnd == old(posEnd) + count
      ensures posBegin == if posEnd > cbSize then posEnd - cbSize else 0
    {
      posEnd := posEnd + count;
      if posEnd - posBegin > cbSize {
        posBegin := posEnd - cbSize;
      }
    }

    method EnsureSpaceMove(noNewPoints: nat)
      requires Valid() && noNewPoints < cbSize && posEnd + noNewPoints > maxSize
      modifies this
      ensures Valid()
      ensures cbSize == old(cbSize) && maxSize == old(maxSize)
      ensures data == LastN(old(data), cbSize - noNewPoints) && posEnd == cbSize - noNewPoints
      ensures moved == old(moved) + posEnd && inserted == old(inserted) && cbSize <= capacity
    {
      var noToKeep := cbSize - noNewPoints;
      var newVec := data[posEnd - noToKeep..posEnd];
      capacity := cbSize;
      data := newVec;
      moved := moved + noToKeep;
      posBegin := 0;
      posEnd := |data|;
    }

    /** Shifts the items still needed to the front of the same store; `memcpy` asks that the two ranges be disjoint. */
    method ShiftInPlace(noNewPoints: nat)
      requires Valid() && noNewPoints < cbSize && posEnd + noNewPoints > maxSize && 2 * cbSize <= maxSize
      modifies this
      ensures Valid()
      ensures cbSize == old(cbSize) && maxSize == old(maxSize)
      ensures data == LastN(old(data), cbSize - noNewPoints) && posEnd == cbSize - noNewPoints
      ensures moved == old(moved) + posEnd && inserted == old(inserted) && cbSize <= capacity
      ensures Disjoint(0, old(posEnd) - posEnd, posEnd)
    {
      var noToKeep := cbSize - noNewPoints;
      var source := posEnd - noToKeep;
      data := data[source..source + noToKeep] + data[noToKeep..];
      moved := moved + noToKeep;
      posBegin := 0;
      posEnd := noToKeep;
      data := data[..posEnd];
    }

    /** Makes room for `noNewPoints` more items, dropping only items that they push out. */
    method EnsureSpace(noNewPoints: nat)
      requires Valid() && (noNewPoints <= cbSize || noNewPoints == 1)
      modifies this
      ensures |data| == posEnd && posBegin == (if posEnd > cbSize then posEnd - cbSize else 0)
      ensures cbSize == old(cbSize) && maxSize == old(maxSize) && inserted == old(inserted)
      ensures moved == old(moved) + ShiftCost(old(posEnd), noNewPoints, cbSize, maxSize)
      ensures posEnd + noNewPoints == NextEnd(old(posEnd), noNewPoints, cbSize, maxSize)
      ensures posEnd + noNewPoints <= StorageBound()
      ensures posEnd <= capacity <= StorageBound()
      ensures capacity < posEnd + noNewPoints ==> 2 * posEnd <= StorageBound()
      ensures noNewPoints < cbSize ==> SameTail(data, old(Contents()), cbSize - noNewPoints)
      ensures 2 * cbSize <= maxSize ==> moved + posEnd <= inserted
    {
      hide LastN, SameTail;
      TailKept(data, cbSize, if noNewPoints < cbSize then cbSize - noNewPoints else 0);
      if posEnd + noNewPoints > maxSize {
        if noNewPoints >= cbSize {
          posBegin, posEnd := 0, 0;
          data := [];
        } else if trivial && maxSize - cbSize >= cbSize {
          ShiftInPlace(noNewPoints);
        } else {
          EnsureSpaceMove(noNewPoints);
        }
      } else if |data| + noNewPoints > capacity && capacity * 2 > maxSize {
        capacity := maxSize;
      }
    }

    /** Appends to the vector, which may reallocate to at most twice its size. */
    method Store(xs: seq<T>)
      requires |data| <= capacity
      modifies this`data, this`capacity
      ensures data == old(data) + xs
      ensures |data| <= capacity
      ensures if old(|data|) + |xs| <= old(capacity) then capacity == old(capacity)
              else capacity <= 2 * old(|data|) || capacity <= old(|data|) + |xs|
    {
      var needed := |data| + |xs|;
      if needed > capacity {
        var grown :| needed <= grown && (grown <= 2 * |data| || grown <= needed);
        capacity := grown;
      }
      data := data + xs;
    }

    method PushBack(x: T)
      requires Valid()
      modifies this
      ensures Valid()
      ensures Contents() == LastN(old(Contents()) + [x], cbSize)
      ensures moved == old(moved) + ShiftCost(old(posEnd), 1, cbSize, maxSize)
      ensures posEnd == NextEnd(old(posEnd), 1, cbSize, maxSize) && inserted == old(inserted) + 1
      ensures cbSize == old(cbSize) && maxSize == old(maxSize)
    {
      hide LastN, SameTail;
      ghost var shown := Contents();
      EnsureSpace(1);
      SameTailAppend(data, shown, [x], cbSize);
      Store([x]);
      AdvancePos(1);
      inserted := inserted + 1;
    }

    method Append(xs: seq<T>)
      requires Valid()
      modifies this
      ensures Valid()
      ensures Contents() == LastN(old(Contents()) + xs, cbSize)
      ensures var n := Min(|xs|, cbSize);
        && moved == old(moved) + ShiftCost(old(posEnd), n, cbSize, maxSize)
        && posEnd == NextEnd(old(posEnd), n, cbSize, maxSize) && inserted == old(inserted) + n
      ensures cbSize == old(cbSize) && maxSize == old(maxSize)
    {
      hide LastN, SameTail;
      var start, count := 0, |xs|;
      if count > cbSize {
        start := count - cbSize;
        count := cbSize;
      }
      ghost var shown := Contents();
      EnsureSpace(count);
      SameTailAppend(data, shown, xs[start..], cbSize);
      DroppedPrefix(shown, xs, start, cbSize);
      Store(xs[start..]);
      AdvancePos(count);
      inserted := inserted + count;
    }

    method Resize(size: nat, reserveSize: nat)
      requires Valid()
      modifies this
      ensures Valid()
      ensures Contents() == LastN(old(Contents()), size)
      ensures cbSize == size && maxSize == size + reserveSize
    {
      var toCopy := if posEnd - posBegin <= size then posEnd - posBegin else size;
      data := data[|data| - toCopy..];
      capacity := toCopy;
      cbSize := size;
      maxSize := size + reserveSize;
      posBegin := 0;
      posEnd := toCopy;
      moved, inserted := 0, toCopy;
    }

    method Clear()
      requires Valid()
      modifies this
      ensures Valid() && Contents() == []
      ensures cbSize == old(cbSize) && maxSize == old(maxSize)
    {
      data, capacity := [], 0;
      posBegin := 0;
      posEnd := 0;
      moved, inserted := 0, 0;
    }

    /** The size and what is shown. */
    function State(): View<T>
      requires posBegin <= posEnd <= |data|
      reads this
    {
      View(cbSize, Contents())
    }

    /** Any one operation is the step the run theorem speaks of. */
    method Perform(op: Op<T>)
      requires Valid()
      modifies this
      ensures Valid() && State() == Apply(old(State()), op)
    {
      match op
      case Push(x) => PushBack(x);
      case Extend(xs) => Append(xs);
      case Resize(size, reserve) => Resize(size, reserve);
      case Clear => Clear();
    }

    /** Any sequence of operations leaves what the run theorem describes. */
    method PerformAll(ops: seq<Op<T>>)
      requires Valid()
      modifies this
      ensures Valid() && State() == Run(old(State()), ops)
    {
      for i := 0 to |ops|
        invariant Valid() && State() == Run(old(State()), ops[..i])
      {
        assert ops[..i + 1][..i] == ops[..i];
        Perform(ops[i]);
      }
      assert ops[..|ops|] == ops;
    }
  }
}
