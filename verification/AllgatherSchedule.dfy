/**
  The communication schedule that drives the allgather executor: in each phase every member
  receives from the member `dist` places to its right, and the message carries `len` blocks.

  `BinomialInit` is the loop that fills the schedule of `GenericTreeSchedule<>` when, as the
  executor asks, the calling member is itself the root; `BinomialMeetsContract` proves that the
  schedule it produces satisfies, on every member of a group of any size, the contract the
  allgather protocol relies on.
 */
module AllgatherSchedule {
  import opened Bits
  import opened Cyclic

  /** The tree schedule's arrays: `partners[k]` and `subsizes[k]` belong to broadcast phase `k`. */
  datatype TreeSchedule = TreeSchedule(partners: seq<nat>, subsizes: seq<nat>)

  /**
    What the protocol needs: before phase `p` a member holds the `dist[p]` blocks starting at its
    own; the phase brings `len[p]` more from another member, never more than it already holds; at the
    end it has `n`.
   */
  ghost predicate Contract(n: nat, dist: seq<nat>, len: seq<nat>) {
    && 1 <= n
    && |dist| == |len|
    && (|dist| == 0 ==> n == 1)
    && (|dist| > 0 ==> dist[0] == 1 && dist[|dist| - 1] + len[|dist| - 1] == n)
    && (forall p :: 0 <= p < |dist| ==> len[p] <= dist[p] < n)
    && (forall p :: 0 <= p < |dist| - 1 ==> dist[p + 1] == dist[p] + len[p])
    && (forall p :: 0 <= p < |dist| ==> dist[p] + len[p] <= n)
  }

  /** The size of the big subtree: `CEILING(alpha(nodesLeft))` kept between 1 and `nodesLeft - 1`. */
  function BigSubtree(nodesLeft: nat): (r: nat)
    requires nodesLeft > 1
    ensures 1 <= r < nodesLeft && nodesLeft - r <= r
  {
    var ceiling := (nodesLeft + 1) / 2;
    var bounded := if ceiling < nodesLeft - 1 then ceiling else nodesLeft - 1;
    if 1 < bounded then bounded else 1
  }

  /** The sizes of the big subtrees, phase after phase, until one node is left. */
  ghost function Spans(nodesLeft: nat): (s: seq<nat>)
    ensures forall k :: 0 <= k < |s| ==> 1 <= s[k] < nodesLeft
    ensures nodesLeft > 1 ==> |s| > 0 && s[|s| - 1] == 1
    ensures nodesLeft <= 1 ==> s == []
  {
    if nodesLeft <= 1 then [] else [BigSubtree(nodesLeft)] + Spans(BigSubtree(nodesLeft))
  }

  /** The number of nodes left before broadcast phase `k`. */
  ghost function Before(n: nat, k: nat): nat
    requires k < |Spans(n)|
  {
    if k == 0 then n else Spans(n)[k - 1]
  }

  /** The nodes outside the big subtree of broadcast phase `k`. */
  ghost function Subsize(n: nat, k: nat): nat
    requires k < |Spans(n)|
  {
    SpansStep(n, k);
    Before(n, k) - Spans(n)[k]
  }

  ghost function Subsizes(n: nat): (s: seq<nat>)
    ensures |s| == |Spans(n)|
  {
    seq(|Spans(n)|, k requires 0 <= k < |Spans(n)| => Subsize(n, k))
  }

  /** The first `k` entries of both arrays are filled, for member `me` of `n`. */
  ghost predicate Filled(me: nat, n: nat, t: TreeSchedule, k: nat)
    requires me < n
  {
    && |t.partners| == |t.subsizes| == k <= |Spans(n)|
    && t.subsizes == Subsizes(n)[..k]
    && forall j :: 0 <= j < k ==> t.partners[j] == Plus(n, me, Spans(n)[j])
  }

  /** One step of the loop keeps the part of the schedule that is filled. */
  lemma {:induction false} SpansStep(n: nat, k: nat)
    requires k < |Spans(n)|
    ensures Before(n, k) > 1
    ensures Spans(n)[k] == BigSubtree(Before(n, k))
    ensures k + 1 == |Spans(n)| <==> Spans(n)[k] == 1
  {
    var rest := Spans(BigSubtree(n));
    assert Spans(n) == [BigSubtree(n)] + rest;
    if k > 0 {
      SpansStep(BigSubtree(n), k - 1);
      assert Spans(n)[k] == rest[k - 1];
    } else if rest != [] {
      assert BigSubtree(n) > 1;
    }
  }

  // ---------- the binomial tree ----------

  /** `c` is `n` divided by `d`, rounded up. */
  predicate IsCeiling(c: nat, n: nat, d: nat) {
    c >= 1 && d * (c - 1) < n <= d * c
  }

  lemma CeilingHalves(c: nat, n: nat, d: nat, half: nat)
    requires IsCeiling(c, n, d) && half >= 1 && 0 <= 2 * half - c <= 1
    ensures IsCeiling(half, n, 2 * d)
  {
    assert (2 * d) * half == d * (2 * half) && (2 * d) * (half - 1) == d * (2 * half - 2);
    MulAtLeast(d, 2 * half, c);
    MulAtLeast(d, c - 1, 2 * half - 2);
  }

  /** Each big subtree is half of the tree before it, rounded up ... */
  lemma SpanHalves(n: nat, k: nat)
    requires k < |Spans(n)|
    ensures 0 <= 2 * Spans(n)[k] - Before(n, k) <= 1
  {
    SpansStep(n, k);
  }

  /** ... so that the one of phase `k` has `n / 2^(k+1)` nodes, rounded up. */
  lemma {:induction false} SpanIsCeiling(n: nat, k: nat)
    requires k < |Spans(n)|
    ensures IsCeiling(Spans(n)[k], n, Pow2(k + 1))
  {
    SpanHalves(n, k);
    if k == 0 {
      assert IsCeiling(n, n, 1);
      CeilingHalves(n, n, 1, Spans(n)[0]);
      assert Pow2(1) == 2;
    } else {
      SpanIsCeiling(n, k - 1);
      CeilingHalves(Spans(n)[k - 1], n, Pow2(k), Spans(n)[k]);
    }
  }

  /** The number of phases is the logarithm of the group's size, rounded up. */
  lemma PhasesAreLog(n: nat)
    requires n >= 1
    ensures n <= Pow2(|Spans(n)|)
    ensures |Spans(n)| > 0 ==> Pow2(|Spans(n)| - 1) < n
  {
    if n > 1 {
      var k := |Spans(n)| - 1;
      SpanIsCeiling(n, k);
      SpansStep(n, k);
      if k > 0 {
        SpanIsCeiling(n, k - 1);
        MulAtLeast(Pow2(k), Spans(n)[k - 1] - 1, 1);
      }
    }
  }

  /**
    A binomial schedule of member `me` of `n`: as many phases as the logarithm of `n`, rounded up; in
    phase `k` the partner is `n / 2^(k+1)` places to the right, rounded up, and is sent all the nodes
    between that and the distance of the phase before.
   */
  ghost predicate IsBinomial(me: nat, n: nat, t: TreeSchedule)
    requires me < n
  {
    var phases := |t.partners|;
    && |t.subsizes| == phases
    && n <= Pow2(phases) && (phases > 0 ==> Pow2(phases - 1) < n)
    && (forall k :: 0 <= k < phases ==> t.partners[k] < n && IsCeiling(Reach(me, n, t, k), n, Pow2(k + 1)))
    && (forall k :: 0 <= k < phases ==>
          t.subsizes[k] + Reach(me, n, t, k) == if k == 0 then n else Reach(me, n, t, k - 1))
  }

  /** How far to the right the partner of phase `k` is. */
  ghost function Reach(me: nat, n: nat, t: TreeSchedule, k: int): nat
    requires me < n
  {
    if 0 <= k < |t.partners| && t.partners[k] < n then Minus(n, t.partners[k], me) else 0
  }

  lemma FilledReach(me: nat, n: nat, t: TreeSchedule, k: nat)
    requires me < n && Filled(me, n, t, |Spans(n)|) && k < |Spans(n)|
    ensures t.partners[k] < n && Reach(me, n, t, k) == Spans(n)[k]
  {
  }

  lemma FilledIsBinomial(me: nat, n: nat, t: TreeSchedule)
    requires me < n && Filled(me, n, t, |Spans(n)|)
    ensures IsBinomial(me, n, t)
  {
    PhasesAreLog(n);
    forall k | 0 <= k < |t.partners|
      ensures t.partners[k] < n && IsCeiling(Reach(me, n, t, k), n, Pow2(k + 1))
      ensures t.subsizes[k] + Reach(me, n, t, k) == if k == 0 then n else Reach(me, n, t, k - 1)
    {
      FilledReach(me, n, t, k);
      SpanIsCeiling(n, k);
      SubsizeFacts(n, k);
      assert t.subsizes[k] == Subsizes(n)[k] == Subsize(n, k);
      if k > 0 {
        FilledReach(me, n, t, k - 1);
      }
    }
  }

  lemma FilledNext(me: nat, n: nat, t: TreeSchedule, k: nat, subsize: nat)
    requires me < n && Filled(me, n, t, k) && k < |Spans(n)| && subsize == Before(n, k) - Spans(n)[k]
    ensures Filled(me, n, TreeSchedule(t.partners + [Plus(n, me, Spans(n)[k])], t.subsizes + [subsize]), k + 1)
  {
    assert Subsizes(n)[k] == Subsize(n, k) == subsize;
    assert Subsizes(n)[..k + 1] == Subsizes(n)[..k] + [subsize];
  }

  /** `init` with the caller as root: the caller is then at position 0 of every subtree. */
  method BinomialInit(me: nat, n: nat) returns (t: TreeSchedule)
    requires me < n
    ensures Filled(me, n, t, |Spans(n)|) && IsBinomial(me, n, t)
  {
    t := TreeSchedule([], []);
    var nodesLeft := n;
    ghost var k := 0;
    while nodesLeft > 1
      invariant 1 <= nodesLeft <= n
      invariant Filled(me, n, t, k)
      invariant k < |Spans(n)| ==> nodesLeft == Before(n, k)
      invariant k == |Spans(n)| <==> nodesLeft == 1
    {
      SpansStep(n, k);
      var pbig := BigSubtree(nodesLeft);
      var psmall := nodesLeft - pbig;
      ModOfSum(me + pbig, n);
      var subsize := if pbig > nodesLeft then psmall else nodesLeft - pbig;
      FilledNext(me, n, t, k, subsize);
      t := TreeSchedule(t.partners + [(me + pbig) % n], t.subsizes + [subsize]);
      nodesLeft, k := pbig, k + 1;
    }
    FilledIsBinomial(me, n, t);
  }

  /**
    The executor runs the broadcast phases backwards: its phase `p` asks for the right list of
    phase `nphases - p - 1`.
   */
  ghost function Reversed(s: seq<nat>): (r: seq<nat>)
    ensures |r| == |s|
    ensures forall p :: 0 <= p < |s| ==> r[p] == s[|s| - p - 1]
  {
    seq(|s|, p requires 0 <= p < |s| => s[|s| - p - 1])
  }

  lemma SubsizeFacts(n: nat, k: nat)
    requires k < |Spans(n)|
    ensures 1 <= Subsize(n, k) <= Spans(n)[k]
    ensures Spans(n)[k] + Subsize(n, k) == Before(n, k) <= n
  {
    SpansStep(n, k);
  }

  /** Executor phase `p` of the binomial schedule, in terms of the broadcast phase it reverses. */
  lemma BinomialPhase(n: nat, p: nat)
    requires p < |Spans(n)|
    ensures var dist, len := Reversed(Spans(n)), Reversed(Subsizes(n));
            && len[p] <= dist[p] < n
            && dist[p] + len[p] == (if p == |dist| - 1 then n else dist[p + 1])
            && dist[p] + len[p] <= n
  {
    var k := |Spans(n)| - p - 1;
    SubsizeFacts(n, k);
    assert Reversed(Subsizes(n))[p] == Subsizes(n)[k] == Subsize(n, k);
  }

  /** Run backwards, the binomial tree's schedule meets the contract, whatever the group's size. */
  lemma BinomialMeetsContract(n: nat)
    requires 1 <= n
    ensures Contract(n, Reversed(Spans(n)), Reversed(Subsizes(n)))
  {
    var dist, len := Reversed(Spans(n)), Reversed(Subsizes(n));
    forall p | 0 <= p < |dist|
      ensures len[p] <= dist[p] < n && dist[p] + len[p] == (if p == |dist| - 1 then n else dist[p + 1])
      ensures dist[p] + len[p] <= n
    {
      BinomialPhase(n, p);
    }
  }

  /**
    What `getRList` answers on member `me` in the executor's phase `p`: the member `dist[p]` places
    to the right of `me`, with `len[p]` blocks.
   */
  lemma BinomialRightList(me: nat, n: nat, t: TreeSchedule, p: nat)
    requires me < n && Filled(me, n, t, |Spans(n)|) && p < |Spans(n)|
    ensures t.partners[|Spans(n)| - p - 1] == Plus(n, me, Reversed(Spans(n))[p])
    ensures t.subsizes[|Spans(n)| - p - 1] == Reversed(Subsizes(n))[p]
  {
    var k := |Spans(n)| - p - 1;
    assert t.subsizes[k] == Subsizes(n)[k];
  }
}
