/** How many elements finite sets have. */
module Sets {

  predicate IsBelow(k: nat, n: nat) {
    k < n
  }

  /** The numbers below `n`. */
  function Below(n: nat): set<nat> {
    set k: nat | k < n && IsBelow(k, n)
  }

  lemma {:induction false} BelowCount(n: nat)
    ensures |Below(n)| == n
  {
    if n > 0 {
      BelowCount(n - 1);
      assert Below(n) == Below(n - 1) + {n - 1};
    }
  }

  lemma FullIffCount(f: set<nat>, n: nat)
    requires f <= Below(n)
    ensures |f| <= n
    ensures |f| == n <==> f == Below(n)
  {
    BelowCount(n);
    var rest := Below(n) - f;
    assert Below(n) == f + rest && |Below(n)| == |f| + |rest|;
    if |rest| == 0 {
      assert f == Below(n);
    }
  }

  lemma {:induction false} SubsetSize<T>(a: set<T>, b: set<T>)
    requires a <= b
    ensures |a| <= |b|
  {
    if a != {} {
      var x :| x in a;
      SubsetSize(a - {x}, b - {x});
    }
  }

  lemma StrictlySmaller<T>(a: set<T>, b: set<T>)
    requires a < b
    ensures |a| < |b|
  {
    var x :| x in b && x !in a;
    SubsetSize(a, b - {x});
  }
}
