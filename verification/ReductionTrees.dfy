/**
  Reductions are made of many kernel calls, each over some of the sources and over results of other
  calls. Which calls there are and in which order they take their inputs makes no difference when
  the operator is associative and commutative.
 */
module ReductionTrees {
  import opened ReductionKernels

  /** One source, or one kernel call over what its parts deliver. */
  datatype Tree<T> = Source(x: T) | Call(parts: seq<Tree<T>>)

  ghost predicate WellFormed<T>(t: Tree<T>) {
    t.Call? ==> |t.parts| >= 1 && forall i :: 0 <= i < |t.parts| ==> WellFormed(t.parts[i])
  }

  /** What the calls compute. */
  ghost function Value<T>(op: (T, T) -> T, t: Tree<T>): T
    requires WellFormed(t)
    decreases t, 0
  {
    match t
    case Source(x) => x
    case Call(parts) => Fold(op, Values(op, t, |parts|))
  }

  /** What the first `k` parts deliver. */
  ghost function Values<T>(op: (T, T) -> T, t: Tree<T>, k: nat): (xs: seq<T>)
    requires WellFormed(t) && t.Call? && k <= |t.parts|
    ensures |xs| == k
    decreases t, 0, k
  {
    if k == 0 then [] else Values(op, t, k - 1) + [Value(op, t.parts[k - 1])]
  }

  /** The sources, from left to right. */
  ghost function Sources<T>(t: Tree<T>): (xs: seq<T>)
    requires WellFormed(t)
    ensures |xs| >= 1
    decreases t, 1
  {
    match t
    case Source(x) => [x]
    case Call(parts) => SourcesOf(t, |parts|)
  }

  ghost function SourcesOf<T>(t: Tree<T>, k: nat): (xs: seq<T>)
    requires WellFormed(t) && t.Call? && k <= |t.parts|
    ensures k >= 1 ==> |xs| >= 1
    decreases t, 0, k
  {
    if k == 0 then [] else SourcesOf(t, k - 1) + Sources(t.parts[k - 1])
  }

  ghost predicate Associative<T(!new)>(op: (T, T) -> T) {
    forall a, b, c :: op(op(a, b), c) == op(a, op(b, c))
  }

  ghost predicate Commutative<T(!new)>(op: (T, T) -> T) {
    forall a, b :: op(a, b) == op(b, a)
  }

  lemma {:induction false} FoldConcat<T(!new)>(op: (T, T) -> T, xs: seq<T>, ys: seq<T>)
    requires Associative(op) && |xs| >= 1 && |ys| >= 1
    ensures Fold(op, xs + ys) == op(Fold(op, xs), Fold(op, ys))
  {
    var init := ys[..|ys| - 1];
    assert (xs + ys)[..|xs + ys| - 1] == xs + init;
    if |ys| == 1 {
      assert xs + init == xs;
    } else {
      FoldConcat(op, xs, init);
    }
  }

  /** A tree of calls that keeps the sources in order equals one flat call. */
  lemma {:induction false} TreeIsFold<T(!new)>(op: (T, T) -> T, t: Tree<T>)
    requires Associative(op) && WellFormed(t)
    ensures Value(op, t) == Fold(op, Sources(t))
    decreases t, 1
  {
    if t.Call? {
      PartsAreFold(op, t, |t.parts|);
    }
  }

  lemma {:induction false} PartsAreFold<T(!new)>(op: (T, T) -> T, t: Tree<T>, k: nat)
    requires Associative(op) && WellFormed(t) && t.Call? && 1 <= k <= |t.parts|
    ensures Fold(op, Values(op, t, k)) == Fold(op, SourcesOf(t, k))
    decreases t, 0, k
  {
    var part := t.parts[k - 1];
    TreeIsFold(op, part);
    var before := Values(op, t, k - 1);
    assert Values(op, t, k) == before + [Value(op, part)];
    if k == 1 {
      assert SourcesOf(t, k) == Sources(part);
    } else {
      PartsAreFold(op, t, k - 1);
      FoldConcat(op, SourcesOf(t, k - 1), Sources(part));
      assert (before + [Value(op, part)])[..k - 1] == before;
    }
  }

  lemma MiddleLast<T(!new)>(op: (T, T) -> T, l: T, x: T, r: T)
    requires Associative(op) && Commutative(op)
    ensures op(l, op(x, r)) == op(op(l, r), x)
  {
    assert op(x, r) == op(r, x);
  }

  lemma Around<T>(left: seq<T>, x: T, right: seq<T>)
    ensures left + [x] + right == left + ([x] + right)
    ensures left == [] ==> left + [x] + right == [x] + right && left + right == right
    ensures right == [] ==> left + [x] + right == left + [x] && left + right == left
  {
  }

  /** Any element may be taken last. */
  lemma FoldTake<T(!new)>(op: (T, T) -> T, left: seq<T>, x: T, right: seq<T>)
    requires Associative(op) && Commutative(op) && |left + right| >= 1
    ensures Fold(op, left + [x] + right) == op(Fold(op, left + right), x)
  {
    Around(left, x, right);
    if right == [] {
      FoldConcat(op, left, [x]);
    } else {
      FoldConcat(op, [x], right);
      if left != [] {
        FoldConcat(op, left, [x] + right);
        FoldConcat(op, left, right);
        MiddleLast(op, Fold(op, left), x, Fold(op, right));
      }
    }
  }

  lemma WithoutMiddle<T>(left: seq<T>, x: T, right: seq<T>)
    ensures multiset(left + right) == multiset(left + [x] + right) - multiset{x}
  {
    assert multiset(left + [x] + right) == multiset(left) + multiset{x} + multiset(right);
  }

  /** Where the last element of a permutation sits in the original. */
  lemma LastOf<T>(xs: seq<T>, ys: seq<T>) returns (left: seq<T>, right: seq<T>)
    requires multiset(xs) == multiset(ys) && |xs| >= 1
    ensures |ys| == |xs| && xs == left + [ys[|ys| - 1]] + right
    ensures multiset(left + right) == multiset(ys[..|ys| - 1])
  {
    assert |multiset(xs)| == |xs| && |multiset(ys)| == |ys|;
    var y := ys[|ys| - 1];
    assert ys == ys[..|ys| - 1] + [y];
    assert y in multiset(xs);
    var i :| 0 <= i < |xs| && xs[i] == y;
    left, right := xs[..i], xs[i + 1..];
    assert xs == left + [y] + right;
    WithoutMiddle(left, y, right);
    WithoutMiddle(ys[..|ys| - 1], y, []);
    assert ys[..|ys| - 1] + [] == ys[..|ys| - 1];
    assert ys[..|ys| - 1] + [y] + [] == ys;
  }

  lemma {:induction false} FoldPermuted<T(!new)>(op: (T, T) -> T, xs: seq<T>, ys: seq<T>)
    requires Associative(op) && Commutative(op) && |xs| >= 1
    requires multiset(xs) == multiset(ys)
    ensures |ys| >= 1 && Fold(op, xs) == Fold(op, ys)
    decreases |xs|
  {
    var left, right := LastOf(xs, ys);
    if |xs| >= 2 {
      FoldTake(op, left, ys[|ys| - 1], right);
      FoldPermuted(op, left + right, ys[..|ys| - 1]);
    }
  }

  /** Any two trees over the same sources, in whatever grouping and order, deliver the same. */
  lemma TreesAgree<T(!new)>(op: (T, T) -> T, t: Tree<T>, u: Tree<T>)
    requires Associative(op) && Commutative(op) && WellFormed(t) && WellFormed(u)
    requires multiset(Sources(t)) == multiset(Sources(u))
    ensures Value(op, t) == Value(op, u)
  {
    TreeIsFold(op, t);
    TreeIsFold(op, u);
    FoldPermuted(op, Sources(t), Sources(u));
  }
}
