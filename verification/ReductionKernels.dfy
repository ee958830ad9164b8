/**
  The N-way reduction kernel: each element of the destination becomes the fold of that element of
  all sources. The loop is unrolled four ways with a remainder loop, and the destination may be the
  very array of one or more sources.
 */
module ReductionKernels {

  // --------------------------------------------------------------------------------- meaning

  /** The left fold of a non-empty column, `op(op(op(x0, x1), x2), ...)`. */
  function Fold<T>(op: (T, T) -> T, xs: seq<T>): T
    requires |xs| >= 1
  {
    if |xs| == 1 then xs[0] else op(Fold(op, xs[..|xs| - 1]), xs[|xs| - 1])
  }

  function Column<T>(rows: seq<seq<T>>, n: nat): (xs: seq<T>)
    requires forall m :: 0 <= m < |rows| ==> n < |rows[m]|
    ensures |xs| == |rows| && forall m :: 0 <= m < |rows| ==> xs[m] == rows[m][n]
  {
    seq(|rows|, m requires 0 <= m < |rows| => rows[m][n])
  }

  ghost function Contents<T>(srcs: seq<array<T>>): (rows: seq<seq<T>>)
    reads srcs
    ensures |rows| == |srcs|
    ensures forall m :: 0 <= m < |srcs| ==> rows[m] == srcs[m][..]
  {
    if srcs == [] then [] else [srcs[0][..]] + Contents(srcs[1..])
  }

  // --------------------------------------------------------------------------------- the kernel

  /** The inputs of a kernel with local buffers of `max` elements; a negative count asks for nothing. */
  ghost predicate Fits<T>(dst: array<T>, srcs: seq<array<T>>, count: int, max: nat) {
    && 2 <= |srcs| <= max
    && count <= dst.Length
    && forall m :: 0 <= m < |srcs| ==> count <= srcs[m].Length
  }

  /** From element `n` on, the sources still hold what they held at the call. */
  ghost predicate Untouched<T(!new)>(srcs: seq<array<T>>, rows: seq<seq<T>>, n: nat)
    reads srcs
  {
    && |rows| == |srcs|
    && (forall m :: 0 <= m < |srcs| ==> |rows[m]| == srcs[m].Length)
    && (forall m, k :: 0 <= m < |srcs| && n <= k < |rows[m]| ==> srcs[m][k] == rows[m][k])
  }

  /** Every source has an element `n`. */
  ghost predicate Reaches<T>(rows: seq<seq<T>>, n: nat) {
    forall m :: 0 <= m < |rows| ==> n < |rows[m]|
  }

  /** The first `m` elements of a local buffer are those of column `n`. */
  ghost predicate Loaded<T(!new)>(buf: array<T>, rows: seq<seq<T>>, n: nat, m: nat)
    requires Reaches(rows, n) && m <= |rows| <= buf.Length
    reads buf
  {
    forall k :: 0 <= k < m ==> buf[k] == rows[k][n]
  }

  /** The inner loop that folds a local buffer. */
  method Combine<T>(op: (T, T) -> T, buf: array<T>, nsrc: nat) returns (r: T)
    requires 2 <= nsrc <= buf.Length
    ensures r == Fold(op, buf[..nsrc])
  {
    r := op(buf[0], buf[1]);
    assert buf[..2][..1] == buf[..1];
    var m := 2;
    while m < nsrc
      invariant 2 <= m <= nsrc
      invariant r == Fold(op, buf[..m])
    {
      r := op(r, buf[m]);
      assert buf[..m + 1][..m] == buf[..m];
      m := m + 1;
    }
  }

  /** The inner loop that copies one column. */
  method Load<T(!new)>(srcs: seq<array<T>>, n: nat, buf: array<T>, ghost rows: seq<seq<T>>, ghost from: nat)
    requires |srcs| <= buf.Length && Untouched(srcs, rows, from) && from <= n && Reaches(rows, n) && buf !in srcs
    modifies buf
    ensures buf[..|srcs|] == Column(rows, n) && Untouched(srcs, rows, from)
  {
    var m := 0;
    while m < |srcs|
      invariant 0 <= m <= |srcs| && Untouched(srcs, rows, from) && Loaded(buf, rows, n, m)
    {
      buf[m] := srcs[m][n];
      m := m + 1;
    }
  }

  /** The four-way forms of both inner loops. */
  method LoadFour<T(!new)>(srcs: seq<array<T>>, n: nat, buf0: array<T>, buf1: array<T>, buf2: array<T>, buf3: array<T>,
                           ghost rows: seq<seq<T>>)
    requires |srcs| <= buf0.Length == buf1.Length == buf2.Length == buf3.Length
    requires buf0 != buf1 && buf1 != buf2 && buf2 != buf3 && buf0 != buf2 && buf0 != buf3 && buf1 != buf3
    requires buf0 !in srcs && buf1 !in srcs && buf2 !in srcs && buf3 !in srcs
    requires Untouched(srcs, rows, n)
    requires Reaches(rows, n) && Reaches(rows, n + 1) && Reaches(rows, n + 2) && Reaches(rows, n + 3)
    modifies buf0, buf1, buf2, buf3
    ensures Untouched(srcs, rows, n)
    ensures buf0[..|srcs|] == Column(rows, n) && buf1[..|srcs|] == Column(rows, n + 1)
    ensures buf2[..|srcs|] == Column(rows, n + 2) && buf3[..|srcs|] == Column(rows, n + 3)
  {
    var m := 0;
    while m < |srcs|
      invariant 0 <= m <= |srcs| && Untouched(srcs, rows, n)
      invariant Loaded(buf0, rows, n, m) && Loaded(buf1, rows, n + 1, m)
      invariant Loaded(buf2, rows, n + 2, m) && Loaded(buf3, rows, n + 3, m)
    {
      buf0[m] := srcs[m][n + 0];
      buf1[m] := srcs[m][n + 1];
      buf2[m] := srcs[m][n + 2];
      buf3[m] := srcs[m][n + 3];
      m := m + 1;
    }
  }

  method CombineFour<T>(op: (T, T) -> T, buf0: array<T>, buf1: array<T>, buf2: array<T>, buf3: array<T>, nsrc: nat)
    returns (r0: T, r1: T, r2: T, r3: T)
    requires 2 <= nsrc <= buf0.Length == buf1.Length == buf2.Length == buf3.Length
    ensures r0 == Fold(op, buf0[..nsrc]) && r1 == Fold(op, buf1[..nsrc])
    ensures r2 == Fold(op, buf2[..nsrc]) && r3 == Fold(op, buf3[..nsrc])
  {
    r0, r1, r2, r3 := op(buf0[0], buf0[1]), op(buf1[0], buf1[1]), op(buf2[0], buf2[1]), op(buf3[0], buf3[1]);
    FoldNext(op, buf0[..], 1);
    FoldNext(op, buf1[..], 1);
    FoldNext(op, buf2[..], 1);
    FoldNext(op, buf3[..], 1);
    var m := 2;
    while m < nsrc
      invariant 2 <= m <= nsrc
      invariant r0 == Fold(op, buf0[..m]) && r1 == Fold(op, buf1[..m])
      invariant r2 == Fold(op, buf2[..m]) && r3 == Fold(op, buf3[..m])
    {
      FoldNext(op, buf0[..], m);
      FoldNext(op, buf1[..], m);
      FoldNext(op, buf2[..], m);
      FoldNext(op, buf3[..], m);
      r0 := op(r0, buf0[m]);
      r1 := op(r1, buf1[m]);
      r2 := op(r2, buf2[m]);
      r3 := op(r3, buf3[m]);
      m := m + 1;
    }
  }

  lemma FoldNext<T>(op: (T, T) -> T, xs: seq<T>, m: nat)
    requires 1 <= m < |xs|
    ensures Fold(op, xs[..m + 1]) == op(Fold(op, xs[..m]), xs[m])
    ensures Fold(op, xs[..1]) == xs[0]
  {
    assert xs[..m + 1][..m] == xs[..m];
  }

  /** The first `n` results are there, and nothing else has changed. */
  ghost predicate Reduced<T(!new)>(op: (T, T) -> T, dst: array<T>, was: seq<T>, rows: seq<seq<T>>, n: nat)
    reads dst
  {
    && |rows| >= 1 && |was| == dst.Length
    && (forall k :: n <= k < dst.Length ==> dst[k] == was[k])
    && (forall m :: 0 <= m < |rows| ==> n <= |rows[m]|) && n <= dst.Length
    && (forall k :: 0 <= k < n ==> dst[k] == Fold(op, Column(rows, k)))
  }

  /** One store. It may hit a source, but no element that is still to be read. */
  method Store<T(!new)>(op: (T, T) -> T, dst: array<T>, n: nat, r: T, ghost srcs: seq<array<T>>,
                        ghost was: seq<T>, ghost rows: seq<seq<T>>)
    requires Untouched(srcs, rows, n) && Reduced(op, dst, was, rows, n)
    requires n < dst.Length && Reaches(rows, n) && r == Fold(op, Column(rows, n))
    modifies dst
    ensures Untouched(srcs, rows, n + 1) && Reduced(op, dst, was, rows, n + 1)
  {
    dst[n] := r;
  }

  method StoreFour<T(!new)>(op: (T, T) -> T, dst: array<T>, n: nat, r0: T, r1: T, r2: T, r3: T,
                            ghost srcs: seq<array<T>>, ghost was: seq<T>, ghost rows: seq<seq<T>>)
    requires Untouched(srcs, rows, n) && Reduced(op, dst, was, rows, n)
    requires n + 3 < dst.Length
    requires Reaches(rows, n) && Reaches(rows, n + 1) && Reaches(rows, n + 2) && Reaches(rows, n + 3)
    requires r0 == Fold(op, Column(rows, n)) && r1 == Fold(op, Column(rows, n + 1))
    requires r2 == Fold(op, Column(rows, n + 2)) && r3 == Fold(op, Column(rows, n + 3))
    modifies dst
    ensures Untouched(srcs, rows, n + 4) && Reduced(op, dst, was, rows, n + 4)
  {
    Store(op, dst, n + 0, r0, srcs, was, rows);
    Store(op, dst, n + 1, r1, srcs, was, rows);
    Store(op, dst, n + 2, r2, srcs, was, rows);
    Store(op, dst, n + 3, r3, srcs, was, rows);
  }

  /** The body of the remainder loop. */
  method OneElement<T(!new)>(op: (T, T) -> T, dst: array<T>, srcs: seq<array<T>>, n: nat, buf0: array<T>,
                             ghost was: seq<T>, ghost rows: seq<seq<T>>)
    requires 2 <= |srcs| <= buf0.Length && buf0 !in srcs && buf0 != dst
    requires Untouched(srcs, rows, n) && Reduced(op, dst, was, rows, n) && n < dst.Length && Reaches(rows, n)
    modifies dst, buf0
    ensures Untouched(srcs, rows, n + 1) && Reduced(op, dst, was, rows, n + 1)
  {
    Load(srcs, n, buf0, rows, n);
    var r := Combine(op, buf0, |srcs|);
    Store(op, dst, n, r, srcs, was, rows);
  }

  /** The body of the unrolled loop. */
  method FourElements<T(!new)>(op: (T, T) -> T, dst: array<T>, srcs: seq<array<T>>, n: nat,
                               buf0: array<T>, buf1: array<T>, buf2: array<T>, buf3: array<T>,
                               ghost was: seq<T>, ghost rows: seq<seq<T>>)
    requires 2 <= |srcs| <= buf0.Length == buf1.Length == buf2.Length == buf3.Length
    requires buf0 != buf1 && buf1 != buf2 && buf2 != buf3 && buf0 != buf2 && buf0 != buf3 && buf1 != buf3
    requires buf0 !in srcs && buf1 !in srcs && buf2 !in srcs && buf3 !in srcs
    requires buf0 != dst && buf1 != dst && buf2 != dst && buf3 != dst
    requires Untouched(srcs, rows, n) && Reduced(op, dst, was, rows, n) && n + 3 < dst.Length
    requires Reaches(rows, n) && Reaches(rows, n + 1) && Reaches(rows, n + 2) && Reaches(rows, n + 3)
    modifies dst, buf0, buf1, buf2, buf3
    ensures Untouched(srcs, rows, n + 4) && Reduced(op, dst, was, rows, n + 4)
  {
    LoadFour(srcs, n, buf0, buf1, buf2, buf3, rows);
    var r0, r1, r2, r3 := CombineFour(op, buf0, buf1, buf2, buf3, |srcs|);
    StoreFour(op, dst, n, r0, r1, r2, r3, srcs, was, rows);
  }

  /** The unrolled loop: it stops within three elements of the end. */
  method Unrolled<T(!new, 0)>(op: (T, T) -> T, dst: array<T>, srcs: seq<array<T>>, count: int, max: nat,
                              ghost rows: seq<seq<T>>)
    returns (n: nat)
    requires Fits(dst, srcs, count, max) && Untouched(srcs, rows, 0) && Reduced(op, dst, dst[..], rows, 0)
    modifies dst
    ensures n == 0 || n <= count
    ensures count - 3 <= n
    ensures Untouched(srcs, rows, n) && Reduced(op, dst, old(dst[..]), rows, n)
  {
    ghost var was := dst[..];
    var buf0, buf1, buf2, buf3 := new T[max], new T[max], new T[max], new T[max];
    n := 0;
    while n < count - 3
      invariant n == 0 || n <= count
      invariant Untouched(srcs, rows, n) && Reduced(op, dst, was, rows, n)
    {
      FourElements(op, dst, srcs, n, buf0, buf1, buf2, buf3, was, rows);
      n := n + 4;
    }
  }

  /** The kernel; `unrolled` is false where the unrolled loop is compiled out. */
  method Reduce<T(!new, 0)>(op: (T, T) -> T, dst: array<T>, srcs: seq<array<T>>, count: int, max: nat, unrolled: bool)
    requires Fits(dst, srcs, count, max)
    modifies dst
    ensures forall n :: 0 <= n < count ==> dst[n] == Fold(op, Column(old(Contents(srcs)), n))
    ensures forall n :: 0 <= n < dst.Length && n >= count ==> dst[n] == old(dst[n])
  {
    ghost var rows, was := Contents(srcs), dst[..];
    var n: nat := 0;
    if unrolled {
      n := Unrolled(op, dst, srcs, count, max, rows);
    }
    var buf0 := new T[max];
    while n < count
      invariant n == 0 || n <= count
      invariant Untouched(srcs, rows, n) && Reduced(op, dst, was, rows, n)
    {
      OneElement(op, dst, srcs, n, buf0, was, rows);
      n := n + 1;
    }
  }
}
