/** `to_dict`: a square array of Fourier coefficients as a dictionary keyed by
    frequency vectors.  The degree is read from the length of the first axis,
    the keys run over every vector in `[-degree, degree]^n` in the order of a
    Cartesian product, and each value is read with Python's negative-index
    wrap-around, so frequency `-k` reads position `size - k`. */
module FourierDict {

  datatype Result<T> = Success(value: T) | Failure(error: string)

  /** An `n`-axis array whose axes all have length `size`, flattened in row-major
      order; `rank` is the number of axes. */
  datatype Coeffs<T> = Coeffs(size: nat, rank: nat, data: seq<T>)

  function Pow(b: nat, e: nat): nat {
    if e == 0 then 1 else b * Pow(b, e - 1)
  }

  predicate WellFormed<T>(c: Coeffs<T>) {
    |c.data| == Pow(c.size, c.rank)
  }

  /** `shape[0] // 2 - 1`; the floor division is on a non-negative length. */
  function Degree(size: nat): int {
    size / 2 - 1
  }

  /** Python's `range(lo, hi)`. */
  function Range(lo: int, hi: int): (r: seq<int>)
    ensures |r| == if lo < hi then hi - lo else 0
    ensures forall i :: 0 <= i < |r| ==> r[i] == lo + i
    decreases hi - lo
  {
    if lo >= hi then [] else [lo] + Range(lo + 1, hi)
  }

  /** Every tail of `tails` behind every element of `xs`, in the order of `xs`. */
  function Prefixed(xs: seq<int>, tails: seq<seq<int>>): seq<seq<int>> {
    if xs == [] then []
    else seq(|tails|, j requires 0 <= j < |tails| => [xs[0]] + tails[j]) + Prefixed(xs[1..], tails)
  }

  /** `itertools.product(*[r] * n)`: all length-`n` vectors over `r`, the first
      component varying slowest. */
  function Product(r: seq<int>, n: nat): seq<seq<int>> {
    if n == 0 then [[]] else Prefixed(r, Product(r, n - 1))
  }

  /** Python's reading of index `k` on an axis of length `size`. */
  function Wrap(k: int, size: nat): int {
    if k < 0 then size + k else k
  }

  function Wrapped(key: seq<int>, size: nat): (r: seq<int>)
    ensures |r| == |key|
  {
    seq(|key|, i requires 0 <= i < |key| => Wrap(key[i], size))
  }

  /** The row-major position of the multi-index `idx`. */
  function FlatIndex(idx: seq<int>, size: nat): int {
    if idx == [] then 0 else FlatIndex(idx[..|idx| - 1], size) * size + idx[|idx| - 1]
  }

  /** Every component of `key` lies in `[-degree, degree]`. */
  predicate InBox(key: seq<int>, d: int) {
    forall i :: 0 <= i < |key| ==> -d <= key[i] <= d
  }

  /** The dictionary, as its (key, value) pairs in insertion order.  A
      zero-axis array has no first axis to read the degree from, which raises
      an index error. */
  function ToDict<T>(c: Coeffs<T>): (r: Result<seq<(seq<int>, T)>>)
    requires WellFormed(c)
    ensures r.Failure? <==> c.rank == 0
  {
    if c.rank == 0 then Failure("tuple index out of range")
    else
      var keys := Keys(c.size, c.rank);
      KeysInBox(c.size, c.rank);
      Success(seq(|keys|, i requires 0 <= i < |keys| =>
        ReadInBounds(c, keys[i]);
        (keys[i], c.data[FlatIndex(Wrapped(keys[i], c.size), c.size)])))
  }

  // ---- the keys ----

  lemma {:induction false} PrefixedMembers(xs: seq<int>, tails: seq<seq<int>>, v: seq<int>)
    ensures v in Prefixed(xs, tails) <==> |v| >= 1 && v[0] in xs && v[1..] in tails
  {
    if xs != [] {
      PrefixedMembers(xs[1..], tails, v);
      var block := seq(|tails|, j requires 0 <= j < |tails| => [xs[0]] + tails[j]);
      if v in block {
        var j :| 0 <= j < |tails| && block[j] == v;
        assert v[1..] == tails[j];
      }
      if |v| >= 1 && v[0] == xs[0] && v[1..] in tails {
        var j :| 0 <= j < |tails| && tails[j] == v[1..];
        assert block[j] == v;
      }
      if |v| >= 1 {
        assert v[0] in xs <==> v[0] == xs[0] || v[0] in xs[1..] by {
          assert xs == [xs[0]] + xs[1..];
        }
      }
    }
  }

  /** The product holds exactly the length-`n` vectors over `r`. */
  lemma {:induction false} ProductMembers(r: seq<int>, n: nat, v: seq<int>)
    ensures v in Product(r, n) <==> |v| == n && forall i :: 0 <= i < n ==> v[i] in r
  {
    if n > 0 {
      PrefixedMembers(r, Product(r, n - 1), v);
      if |v| >= 1 {
        ProductMembers(r, n - 1, v[1..]);
        if |v| == n && v[0] in r && v[1..] in Product(r, n - 1) {
          forall i | 0 <= i < n ensures v[i] in r {
            if i > 0 {
              assert v[i] == v[1..][i - 1];
            }
          }
        }
        if |v| == n && forall i :: 0 <= i < n ==> v[i] in r {
          forall i | 0 <= i < n - 1 ensures v[1..][i] in r {
            assert v[1..][i] == v[i + 1];
          }
        }
      }
    } else {
      assert Product(r, 0) == [[]];
    }
  }

  lemma {:induction false} PrefixedCount(xs: seq<int>, tails: seq<seq<int>>)
    ensures |Prefixed(xs, tails)| == |xs| * |tails|
  {
    if xs != [] {
      PrefixedCount(xs[1..], tails);
      assert |xs| * |tails| == |tails| + (|xs| - 1) * |tails| by {
        assert |xs| == 1 + |xs[1..]|;
      }
    }
  }

  /** The product of `n` copies of `r` has `|r|^n` vectors. */
  lemma {:induction false} ProductCount(r: seq<int>, n: nat)
    ensures |Product(r, n)| == Pow(|r|, n)
  {
    if n > 0 {
      ProductCount(r, n - 1);
      PrefixedCount(r, Product(r, n - 1));
    }
  }

  /** Lexicographic order on vectors of one length. */
  predicate LexLess(a: seq<int>, b: seq<int>) {
    |a| == |b| && |a| > 0 && (a[0] < b[0] || (a[0] == b[0] && LexLess(a[1..], b[1..])))
  }

  predicate Increasing(keys: seq<seq<int>>) {
    forall i, j :: 0 <= i < j < |keys| ==> LexLess(keys[i], keys[j])
  }

  lemma {:induction false} LexLessIrreflexive(a: seq<int>)
    ensures !LexLess(a, a)
  {
    if |a| > 0 {
      LexLessIrreflexive(a[1..]);
    }
  }

  lemma {:induction false} PrefixedIncreasing(xs: seq<int>, tails: seq<seq<int>>)
    requires forall i, j :: 0 <= i < j < |xs| ==> xs[i] < xs[j]
    requires Increasing(tails)
    requires forall t :: t in tails ==> |t| == |tails[0]|
    ensures Increasing(Prefixed(xs, tails))
  {
    if xs != [] {
      PrefixedIncreasing(xs[1..], tails);
      var block := seq(|tails|, j requires 0 <= j < |tails| => [xs[0]] + tails[j]);
      var rest := Prefixed(xs[1..], tails);
      assert Prefixed(xs, tails) == block + rest;
      forall i, j | 0 <= i < j < |block| ensures LexLess(block[i], block[j]) {
        assert block[i][1..] == tails[i] && block[j][1..] == tails[j];
      }
      BlockBeforeRest(xs, tails);
      ConcatIncreasing(block, rest);
    }
  }

  /** Every key of the first block of `Prefixed(xs, tails)` precedes every key
      of the blocks after it. */
  lemma BlockBeforeRest(xs: seq<int>, tails: seq<seq<int>>)
    requires forall i, j :: 0 <= i < j < |xs| ==> xs[i] < xs[j]
    requires forall t :: t in tails ==> |t| == |tails[0]|
    requires xs != []
    ensures forall i, j :: 0 <= i < |tails| && 0 <= j < |Prefixed(xs[1..], tails)| ==>
      LexLess([xs[0]] + tails[i], Prefixed(xs[1..], tails)[j])
  {
    var rest := Prefixed(xs[1..], tails);
    forall i, j | 0 <= i < |tails| && 0 <= j < |rest| ensures LexLess([xs[0]] + tails[i], rest[j]) {
      PrefixedMembers(xs[1..], tails, rest[j]);
      var k :| 0 <= k < |xs[1..]| && xs[1..][k] == rest[j][0];
      assert xs[0] < xs[k + 1];
      assert tails[i] in tails && rest[j][1..] in tails;
    }
  }

  /** Two increasing key lists, every key of the first before every key of the
      second, make an increasing list. */
  lemma ConcatIncreasing(a: seq<seq<int>>, b: seq<seq<int>>)
    requires Increasing(a) && Increasing(b)
    requires forall i, j :: 0 <= i < |a| && 0 <= j < |b| ==> LexLess(a[i], b[j])
    ensures Increasing(a + b)
  {
    var all := a + b;
    forall i, j | 0 <= i < j < |all| ensures LexLess(all[i], all[j]) {
      if j < |a| {
        assert all[i] == a[i] && all[j] == a[j];
      } else if i < |a| {
        assert all[i] == a[i] && all[j] == b[j - |a|];
      } else {
        assert all[i] == b[i - |a|] && all[j] == b[j - |a|];
      }
    }
  }

  lemma {:induction false} ProductIncreasing(r: seq<int>, n: nat)
    requires forall i, j :: 0 <= i < j < |r| ==> r[i] < r[j]
    ensures Increasing(Product(r, n))
    ensures forall v :: v in Product(r, n) ==> |v| == n
  {
    forall v | v in Product(r, n) ensures |v| == n {
      ProductMembers(r, n, v);
    }
    if n > 0 {
      ProductIncreasing(r, n - 1);
      var tails := Product(r, n - 1);
      if tails != [] {
        assert tails[0] in tails;
      }
      PrefixedIncreasing(r, tails);
    }
  }

  lemma RangeMembers(lo: int, hi: int, x: int)
    ensures x in Range(lo, hi) <==> lo <= x < hi
  {
    if lo <= x < hi {
      assert Range(lo, hi)[x - lo] == x;
    }
  }

  /** The keys the product yields for an array with first axis `size` and `n` axes. */
  function Keys(size: nat, n: nat): seq<seq<int>> {
    Product(Range(-Degree(size), Degree(size) + 1), n)
  }

  lemma KeyInBox(size: nat, n: nat, key: seq<int>)
    ensures key in Keys(size, n) <==> |key| == n && InBox(key, Degree(size))
  {
    var d := Degree(size);
    ProductMembers(Range(-d, d + 1), n, key);
    forall i | 0 <= i < |key| ensures key[i] in Range(-d, d + 1) <==> -d <= key[i] <= d {
      RangeMembers(-d, d + 1, key[i]);
    }
  }

  lemma KeysInBox(size: nat, n: nat)
    ensures forall key :: key in Keys(size, n) ==> |key| == n && InBox(key, Degree(size))
  {
    forall key | key in Keys(size, n) ensures |key| == n && InBox(key, Degree(size)) {
      KeyInBox(size, n, key);
    }
  }

  // ---- the values ----

  /** Every frequency in `[-degree, degree]` reads a position on the axis. */
  lemma WrapInAxis(k: int, size: nat)
    requires -Degree(size) <= k <= Degree(size)
    ensures 0 <= Wrap(k, size) < size
    ensures Wrap(k, size) % size == k % size
  {
    var w := Wrap(k, size);
    assert 0 <= w < size;
    assert w == k + (if k < 0 then 1 else 0) * size;
    ModOfShift(k, w, size);
  }

  /** A value in `[0, size)` that differs from `k` by a multiple of `size` is
      `k`'s remainder. */
  lemma ModOfShift(k: int, w: int, size: nat)
    requires 0 <= w < size
    requires w == k || w == k + size
    ensures w % size == k % size
  {
    if w == k + size {
      assert k == w - size;
      assert (w - size) / size == -1;
    }
  }

  lemma {:induction false} MulMono(a: nat, b: nat, s: nat)
    requires a <= b
    ensures a * s <= b * s
    decreases b - a
  {
    if a < b {
      MulMono(a, b - 1, s);
      assert b * s == (b - 1) * s + s;
    }
  }

  lemma MulBound(f: nat, q: nat, size: nat, x: nat)
    requires f < q && x < size
    ensures 0 <= f * size + x < size * q
  {
    MulMono(0, f, size);
    MulMono(f + 1, q, size);
    assert (f + 1) * size == f * size + size;
    assert q * size == size * q;
  }

  lemma {:induction false} FlatIndexBound(idx: seq<int>, size: nat)
    requires forall i :: 0 <= i < |idx| ==> 0 <= idx[i] < size
    ensures 0 <= FlatIndex(idx, size) < Pow(size, |idx|)
  {
    if idx != [] {
      var p := idx[..|idx| - 1];
      var x := idx[|idx| - 1];
      assert forall i :: 0 <= i < |p| ==> p[i] == idx[i];
      FlatIndexBound(p, size);
      var f: nat := FlatIndex(p, size);
      var q := Pow(size, |p|);
      MulBound(f, q, size, x);
      assert FlatIndex(idx, size) == f * size + x;
      assert Pow(size, |idx|) == size * q;
    }
  }

  lemma ReadInBounds<T>(c: Coeffs<T>, key: seq<int>)
    requires WellFormed(c) && |key| == c.rank && InBox(key, Degree(c.size))
    ensures 0 <= FlatIndex(Wrapped(key, c.size), c.size) < |c.data|
  {
    var w := Wrapped(key, c.size);
    forall i | 0 <= i < |w| ensures 0 <= w[i] < c.size {
      WrapInAxis(key[i], c.size);
    }
    FlatIndexBound(w, c.size);
  }

  /** With an even axis length `2(d + 1)`, the positions read are exactly the
      axis positions other than `d + 1`: the middle entry is never read. */
  lemma WrapSkipsMiddle(size: nat, p: int)
    requires size >= 2 && size % 2 == 0 && 0 <= p < size
    ensures (exists k :: -Degree(size) <= k <= Degree(size) && Wrap(k, size) == p) <==> p != Degree(size) + 1
  {
    var d := Degree(size);
    if p <= d {
      assert Wrap(p, size) == p;
    } else if p > d + 1 {
      assert Wrap(p - size, size) == p;
    }
  }

  // ---- what the dictionary holds ----

  /** The entries pair the keys of the product, in its order, with values. */
  lemma ToDictShape<T>(c: Coeffs<T>)
    requires WellFormed(c) && c.rank > 0
    ensures |ToDict(c).value| == |Keys(c.size, c.rank)|
    ensures forall i :: 0 <= i < |ToDict(c).value| ==> ToDict(c).value[i].0 == Keys(c.size, c.rank)[i]
  {
  }

  /** The keys are exactly the `n`-component vectors over `[-degree, degree]`. */
  lemma ToDictKeys<T>(c: Coeffs<T>, key: seq<int>)
    requires WellFormed(c) && c.rank > 0
    ensures (exists i :: 0 <= i < |ToDict(c).value| && ToDict(c).value[i].0 == key) <==>
      |key| == c.rank && InBox(key, Degree(c.size))
  {
    var keys := Keys(c.size, c.rank);
    var es := ToDict(c).value;
    ToDictShape(c);
    KeyInBox(c.size, c.rank, key);
    if key in keys {
      var i :| 0 <= i < |keys| && keys[i] == key;
      assert es[i].0 == key;
    }
  }

  /** There are `(2 degree + 1)^n` keys, and none when the first axis is
      shorter than 2. */
  lemma ToDictCount<T>(c: Coeffs<T>)
    requires WellFormed(c) && c.rank > 0
    ensures |ToDict(c).value| == if c.size >= 2 then Pow(2 * Degree(c.size) + 1, c.rank) else 0
  {
    var d := Degree(c.size);
    ToDictShape(c);
    ProductCount(Range(-d, d + 1), c.rank);
    if c.size < 2 {
      assert Range(-d, d + 1) == [];
      ZeroPow(c.rank);
    }
  }

  lemma {:induction false} ZeroPow(n: nat)
    requires n > 0
    ensures Pow(0, n) == 0
  {
  }

  /** Each entry pairs its key with the coefficient at the wrapped index,
      which lies inside the array. */
  lemma ToDictValues<T>(c: Coeffs<T>, i: nat)
    requires WellFormed(c) && c.rank > 0 && i < |ToDict(c).value|
    ensures |ToDict(c).value[i].0| == c.rank && InBox(ToDict(c).value[i].0, Degree(c.size))
    ensures 0 <= FlatIndex(Wrapped(ToDict(c).value[i].0, c.size), c.size) < |c.data|
    ensures ToDict(c).value[i].1 == c.data[FlatIndex(Wrapped(ToDict(c).value[i].0, c.size), c.size)]
  {
    var keys := Keys(c.size, c.rank);
    ToDictShape(c);
    assert keys[i] in keys;
    KeyInBox(c.size, c.rank, keys[i]);
    ReadInBounds(c, keys[i]);
  }

  /** The keys come in strictly increasing lexicographic order, so they are
      distinct and no entry of the dictionary overwrites another. */
  lemma ToDictOrdered<T>(c: Coeffs<T>, i: nat, j: nat)
    requires WellFormed(c) && c.rank > 0 && i < j < |ToDict(c).value|
    ensures LexLess(ToDict(c).value[i].0, ToDict(c).value[j].0)
    ensures ToDict(c).value[i].0 != ToDict(c).value[j].0
  {
    var d := Degree(c.size);
    ToDictShape(c);
    ProductIncreasing(Range(-d, d + 1), c.rank);
    LexLessIrreflexive(ToDict(c).value[i].0);
  }

  lemma {:induction false} OneAxisKeys(xs: seq<int>)
    ensures Prefixed(xs, [[]]) == seq(|xs|, i requires 0 <= i < |xs| => [xs[i]])
  {
    if xs != [] {
      OneAxisKeys(xs[1..]);
      var nil: seq<int> := [];
      assert [xs[0]] + nil == [xs[0]];
      var block := seq(1, j requires 0 <= j < 1 => [xs[0]] + [nil][j]);
      assert block[0] == [xs[0]];
      assert block == [[xs[0]]];
    }
  }

  /** Degree 1 on one input: the four coefficients `[c0, c1, c2, c3]` give keys
      `-1, 0, 1` reading positions 3, 0 and 1; position 2 is never read. */
  lemma OneInputExample(c0: int, c1: int, c2: int, c3: int)
    ensures ToDict(Coeffs(4, 1, [c0, c1, c2, c3])) == Success([([-1], c3), ([0], c0), ([1], c1)])
  {
    var c := Coeffs(4, 1, [c0, c1, c2, c3]);
    OneInputKeys();
    ToDictShape(c);
    var es := ToDict(c).value;
    OneAxisEntry(c, 0, -1, 3);
    OneAxisEntry(c, 1, 0, 0);
    OneAxisEntry(c, 2, 1, 1);
    assert es == [([-1], c3), ([0], c0), ([1], c1)];
  }

  lemma OneInputKeys()
    ensures Keys(4, 1) == [[-1], [0], [1]]
  {
    assert Range(-1, 2) == [-1, 0, 1];
    assert Product(Range(-1, 2), 0) == [[]];
    OneAxisKeys([-1, 0, 1]);
  }

  /** On one axis of size four the entry for key `[k]` reads slot `Wrap(k, 4)`. */
  lemma OneAxisEntry<T>(c: Coeffs<T>, i: nat, k: int, slot: nat)
    requires WellFormed(c) && c.size == 4 && c.rank == 1
    requires i < |ToDict(c).value| && ToDict(c).value[i].0 == [k]
    requires slot < 4 && Wrap(k, 4) == slot
    ensures ToDict(c).value[i] == ([k], c.data[slot])
  {
    ToDictValues(c, i);
    assert Wrapped([k], 4) == [slot];
    assert [slot][..0] == [];
    assert FlatIndex([slot], 4) == slot;
  }
}
