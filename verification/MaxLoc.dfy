/**
  The value-and-location kernels. For each element they scan the sources for the best value and,
  among equal values, the smallest location: the rule of MPI_MAXLOC and MPI_MINLOC in section 5.9.4
  of MPI-3.1. The destination may be the array of one or more sources.
 */
module MaxLoc {
  import opened ReductionKernels
  import opened ReductionTrees

  datatype Pair = Pair(a: int, b: int)

  datatype Kind = Max | Min

  /** The test of the scan: `q` replaces `p`. */
  predicate Replaces(kind: Kind, p: Pair, q: Pair) {
    || (match kind case Max => p.a < q.a case Min => p.a > q.a)
    || (p.a == q.a && p.b > q.b)
  }

  /** What the standard asks for: the extreme value, with the smallest index among those that have it. */
  ghost predicate IsBest(kind: Kind, p: Pair, xs: seq<Pair>) {
    && p in xs
    && forall q :: q in xs ==>
         && (match kind case Max => q.a <= p.a case Min => q.a >= p.a)
         && (q.a == p.a ==> p.b <= q.b)
  }

  function Winner(kind: Kind): (Pair, Pair) -> Pair {
    (p: Pair, q: Pair) => if Replaces(kind, p, q) then q else p
  }

  lemma BestIsUnique(kind: Kind, p: Pair, q: Pair, xs: seq<Pair>)
    requires IsBest(kind, p, xs) && IsBest(kind, q, xs)
    ensures p == q
  {
  }

  /** The greatest value, or the least, and of two equal ones the smaller location. */
  lemma WinnerOf(a: int, b: int, c: int)
    requires a < b
    ensures Winner(Max)(Pair(a, c), Pair(b, c)) == Pair(b, c) && Winner(Min)(Pair(a, c), Pair(b, c)) == Pair(a, c)
    ensures forall kind :: Winner(kind)(Pair(c, b), Pair(c, a)) == Pair(c, a)
  {
  }

  lemma WinnerLaws(kind: Kind)
    ensures Associative(Winner(kind)) && Commutative(Winner(kind))
  {
    forall p, q, r ensures Winner(kind)(Winner(kind)(p, q), r) == Winner(kind)(p, Winner(kind)(q, r)) {
    }
  }

  /** The fold of the winner is the best pair. */
  lemma {:induction false} FoldIsBest(kind: Kind, xs: seq<Pair>)
    requires |xs| >= 1
    ensures IsBest(kind, Fold(Winner(kind), xs), xs)
  {
    if |xs| > 1 {
      var init := xs[..|xs| - 1];
      FoldIsBest(kind, init);
      assert forall q :: q in xs ==> q in init || q == xs[|xs| - 1];
      assert forall q :: q in init ==> q in xs;
    }
  }

  // --------------------------------------------------------------------------------- the kernels

  ghost predicate FitsScan(dst: array<Pair>, srcs: seq<array<Pair>>, count: int) {
    |srcs| >= 1 && count <= dst.Length && forall m :: 0 <= m < |srcs| ==> count <= srcs[m].Length
  }

  /** The inner loop: which source has the best pair at `n`. */
  method FindBest(kind: Kind, srcs: seq<array<Pair>>, n: nat) returns (m: nat)
    requires |srcs| >= 1
    requires forall o :: 0 <= o < |srcs| ==> n < srcs[o].Length
    ensures m < |srcs|
    ensures srcs[m][n] == Fold(Winner(kind), Column(Contents(srcs), n))
  {
    ghost var xs := Column(Contents(srcs), n);
    m := 0;
    var o := 1;
    while o < |srcs|
      invariant m < o <= |srcs|
      invariant srcs[m][n] == Fold(Winner(kind), xs[..o])
    {
      FoldNext(Winner(kind), xs, o);
      if Replaces(kind, srcs[m][n], srcs[o][n]) {
        m := o;
      }
      o := o + 1;
    }
    assert xs[..o] == xs;
  }

  /** The kernel: every element gets the best pair of the original sources, nothing else changes. */
  method Locate(kind: Kind, dst: array<Pair>, srcs: seq<array<Pair>>, count: int)
    requires FitsScan(dst, srcs, count)
    modifies dst
    ensures forall n :: 0 <= n < count ==> IsBest(kind, dst[n], Column(old(Contents(srcs)), n))
    ensures forall n :: 0 <= n < count ==> dst[n] == Fold(Winner(kind), Column(old(Contents(srcs)), n))
    ensures forall n :: 0 <= n < dst.Length && n >= count ==> dst[n] == old(dst[n])
  {
    ghost var rows, was := Contents(srcs), dst[..];
    var n := 0;
    while n < count
      invariant 0 <= n && (n == 0 || n <= count)
      invariant Untouched(srcs, rows, n) && Reduced(Winner(kind), dst, was, rows, n)
    {
      var m := FindBest(kind, srcs, n);
      assert Column(Contents(srcs), n) == Column(rows, n);
      StorePair(kind, dst, srcs, n, m, was, rows);
      n := n + 1;
    }
    forall n | 0 <= n < count ensures IsBest(kind, dst[n], Column(rows, n)) {
      FoldIsBest(kind, Column(rows, n));
    }
  }

  /** The two stores; the first may change the very pair that the second reads. */
  method StorePair(kind: Kind, dst: array<Pair>, srcs: seq<array<Pair>>, n: nat, m: nat,
                   ghost was: seq<Pair>, ghost rows: seq<seq<Pair>>)
    requires Untouched(srcs, rows, n) && Reduced(Winner(kind), dst, was, rows, n)
    requires n < dst.Length && Reaches(rows, n) && m < |srcs|
    requires srcs[m][n] == Fold(Winner(kind), Column(rows, n))
    modifies dst
    ensures Untouched(srcs, rows, n + 1) && Reduced(Winner(kind), dst, was, rows, n + 1)
  {
    ghost var best := srcs[m][n];
    dst[n] := dst[n].(a := srcs[m][n].a);
    dst[n] := dst[n].(b := srcs[m][n].b);
    assert dst[n] == best;
  }

  // --------------------------------------------------------------------------------- regrouping

  /** Any tree of calls delivers the best pair of all its sources. */
  lemma TreeIsBest(kind: Kind, t: Tree<Pair>)
    requires WellFormed(t)
    ensures IsBest(kind, Value(Winner(kind), t), Sources(t))
  {
    WinnerLaws(kind);
    TreeIsFold(Winner(kind), t);
    FoldIsBest(kind, Sources(t));
  }

  /**
    Regrouping: trees over the same sources agree, in any grouping and order, and also when a source
    is taken more than once.
   */
  lemma RegroupingAgrees(kind: Kind, t: Tree<Pair>, u: Tree<Pair>)
    requires WellFormed(t) && WellFormed(u)
    requires forall x :: x in Sources(t) <==> x in Sources(u)
    ensures Value(Winner(kind), t) == Value(Winner(kind), u)
  {
    TreeIsBest(kind, t);
    TreeIsBest(kind, u);
    BestIsUnique(kind, Value(Winner(kind), t), Value(Winner(kind), u), Sources(t));
  }
}
