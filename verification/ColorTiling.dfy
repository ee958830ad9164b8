/**
  How a buffer is cut into one segment per colour: all segments but the last have the same length,
  a multiple of 512 bytes, and start one aligned stride apart. Sizes are 64-bit products that are
  stored in 32-bit unsigned fields.
 */
module ColorTiling {

  const WORD_32: nat := 0x1_0000_0000
  const WORD_64: nat := 0x1_0000_0000_0000_0000
  const ALIGNMENT: nat := 0x200

  /** An integer stored in, or computed with, an `unsigned`. */
  function U32(x: int): nat {
    x % WORD_32
  }

  /** The product of a 32-bit count and a `size_t`. */
  function Product(count: nat, each: nat): nat {
    (count * each) % WORD_64
  }

  /** `x & alignment_mask`, where the 32-bit mask also drops the upper half of a `size_t`. */
  function Aligned(x: nat): nat {
    U32(x) - U32(x) % ALIGNMENT
  }

  /** What one executor gets: where its part starts, how many bytes it moves, what it spans. */
  datatype Segment = Segment(offset: nat, bytes: nat, stride: nat)

  /** The aligned share of each colour when `total` is cut for several colours. */
  function Cut(total: nat, colors: nat): nat {
    if colors <= 1 then 0 else Aligned(total / colors)
  }

  /** What `colors - 1` equal shares leave. */
  function Remainder(total: nat, cut: nat, colors: nat): nat {
    U32(total - U32(cut * (colors - 1)))
  }

  /** The share of colour `c`, where `cut` is the aligned share. */
  function Share(total: nat, cut: nat, colors: nat, c: nat): nat {
    if colors <= 1 then U32(total)
    else if c + 1 < colors then cut
    else Remainder(total, cut, colors)
  }

  /** The cut of `total` data bytes that occupy `span` bytes of memory. */
  function Plan(total: nat, span: nat, colors: nat): (plan: seq<Segment>)
    ensures |plan| == colors
  {
    var a, b := Cut(total, colors), Cut(span, colors);
    seq(colors, c requires 0 <= c < colors =>
          Segment(U32(b * c), Share(total, a, colors, c), Share(span, b, colors, c)))
  }

  // --------------------------------------------------------------------------------- arithmetic

  lemma AlignedBelow(x: nat)
    requires x < WORD_32
    ensures 0 <= Aligned(x) <= x
    ensures Aligned(x) % ALIGNMENT == 0
  {
  }

  /** The mask clears nine bits and drops the upper half, whatever the size. */
  lemma AlignedIs(x: nat)
    ensures Aligned(x) % 512 == 0 && Aligned(x) <= x % 0x1_0000_0000 < Aligned(x) + 512
  {
  }

  lemma U32Small(x: int)
    requires 0 <= x < WORD_32
    ensures U32(x) == x
  {
  }

  lemma TimesBound(a: nat, c: nat, n: nat)
    requires c <= n
    ensures 0 <= a * c <= a * n
  {
  }

  lemma TimesStep(a: nat, c: nat)
    ensures a * (c + 1) == a * c + a
  {
  }

  lemma QuotientBound(total: nat, colors: nat)
    requires colors >= 1
    ensures 0 <= total / colors <= total
    ensures (total / colors) * colors <= total
  {
    var q := total / colors;
    TimesBound(q, 1, colors);
  }

  /** The equal shares fit into the total. */
  lemma CutFits(total: nat, colors: nat)
    requires total < WORD_32
    ensures Cut(total, colors) * colors <= total
    ensures Cut(total, colors) % ALIGNMENT == 0
  {
    if colors > 1 {
      QuotientBound(total, colors);
      var q := total / colors;
      AlignedBelow(q);
      TimesBound(colors, Aligned(q), q);
    }
  }

  /** Nothing wraps when the total fits in 32 bits. */
  lemma ShareOf(total: nat, cut: nat, colors: nat, c: nat)
    requires c < colors && total < WORD_32 && cut * colors <= total
    ensures colors == 1 ==> Share(total, cut, colors, c) == total
    ensures c + 1 < colors ==> Share(total, cut, colors, c) == cut
    ensures 1 < colors == c + 1 ==> Share(total, cut, colors, c) == total - cut * c
  {
    TimesBound(cut, c, colors);
    U32Small(cut * c);
    U32Small(total - cut * c);
  }

  /** The segments in closed form: `a` apart in the data and `b` apart in memory. */
  ghost predicate Laid(plan: seq<Segment>, total: nat, a: nat, b: nat) {
    && |plan| >= 2
    && a * |plan| <= total
    && forall c :: 0 <= c < |plan| ==>
         plan[c].offset == b * c && plan[c].bytes == if c + 1 < |plan| then a else total - a * c
  }

  lemma PlanLaid(total: nat, span: nat, colors: nat)
    requires 2 <= colors && total < WORD_32 && span < WORD_32
    ensures Laid(Plan(total, span, colors), total, Cut(total, colors), Cut(span, colors))
  {
    var a, b := Cut(total, colors), Cut(span, colors);
    CutFits(total, colors);
    CutFits(span, colors);
    forall c | 0 <= c < colors
      ensures U32(b * c) == b * c
      ensures Share(total, a, colors, c) == if c + 1 < colors then a else total - a * c
    {
      ShareOf(total, a, colors, c);
      TimesBound(b, c, colors);
      U32Small(b * c);
    }
  }

  // --------------------------------------------------------------------------------- shares

  /**
    All shares but the last are equal and divisible by 512, and the last is no shorter.
   */
  lemma EvenShares(total: nat, span: nat, colors: nat, c: nat)
    requires total < WORD_32 && span < WORD_32 && c + 1 < colors
    ensures Plan(total, span, colors)[c].bytes == Plan(total, span, colors)[0].bytes
    ensures Plan(total, span, colors)[c].bytes % ALIGNMENT == 0
    ensures Plan(total, span, colors)[colors - 1].bytes >= Plan(total, span, colors)[c].bytes
  {
    CutFits(total, colors);
    PlanLaid(total, span, colors);
    TimesStep(Cut(total, colors), colors - 1);
  }

  lemma CutIsLarge(total: nat, colors: nat)
    requires total < WORD_32 && colors >= 2
    ensures (Cut(total, colors) + ALIGNMENT) * colors > total
  {
    var q := total / colors;
    QuotientBound(total, colors);
    U32Small(q);
    assert Cut(total, colors) + ALIGNMENT >= q + 1;
    TimesBound(colors, q + 1, Cut(total, colors) + ALIGNMENT);
    TimesStep(colors, q);
    assert total == colors * q + total % colors;
  }

  /**
    The load is shared: each colour's part, of data and of memory, falls short of an equal one by less
    than 512 bytes, and the last one exceeds the others by less than 512 bytes for each colour.
   */
  lemma Balanced(total: nat, span: nat, colors: nat)
    requires total < WORD_32 && span < WORD_32 && colors >= 2
    ensures (Plan(total, span, colors)[0].bytes + 512) * colors > total
    ensures (Plan(total, span, colors)[1].offset + 512) * colors > span
    ensures Plan(total, span, colors)[colors - 1].bytes - Plan(total, span, colors)[0].bytes < 512 * colors
  {
    PlanLaid(total, span, colors);
    CutIsLarge(total, colors);
    CutIsLarge(span, colors);
    var a := Cut(total, colors);
    assert (a + 512) * colors == a * colors + 512 * colors;
    TimesStep(a, colors - 1);
  }

  /** Every field fits the 32-bit word it is stored in, whatever the sizes, and offsets wrap as such words do. */
  lemma FieldsFit(total: nat, span: nat, colors: nat, c: nat)
    requires c < colors
    ensures var g := Plan(total, span, colors)[c]; g.offset < WORD_32 && g.bytes < WORD_32 && g.stride < WORD_32
    ensures colors >= 2 ==>
              Plan(total, span, colors)[c].offset == (Plan(total, span, colors)[1].offset * c) % 0x1_0000_0000
  {
    if colors >= 2 {
      U32Small(Cut(span, colors));
    }
  }

  /** The sum of the first `n` shares. */
  function Shares(total: nat, colors: nat, n: nat): nat {
    if n == 0 then 0 else Shares(total, colors, n - 1) + Share(total, Cut(total, colors), colors, n - 1)
  }

  lemma {:induction false} EqualShares(total: nat, colors: nat, n: nat)
    requires n < colors
    ensures Shares(total, colors, n) == Cut(total, colors) * n
  {
    if n > 0 {
      EqualShares(total, colors, n - 1);
      TimesStep(Cut(total, colors), n - 1);
    }
  }

  /** Conservation: whatever the extent, no byte count is lost or invented. */
  lemma SharesConserve(total: nat, colors: nat)
    requires total < WORD_32 && colors >= 1
    ensures Shares(total, colors, colors) == total
  {
    EqualShares(total, colors, colors - 1);
    CutFits(total, colors);
    ShareOf(total, Cut(total, colors), colors, colors - 1);
  }

  /** Beyond 32 bits the lengths still add up to the total, as 32-bit words do. */
  lemma SharesWrap(total: nat, colors: nat)
    requires colors >= 1
    ensures Shares(total, colors, colors) % WORD_32 == total % WORD_32
  {
    EqualShares(total, colors, colors - 1);
    LastShare(total, Cut(total, colors), colors);
  }

  lemma LastShare(total: nat, cut: nat, colors: nat)
    requires colors >= 1
    ensures (cut * (colors - 1) + Share(total, cut, colors, colors - 1)) % WORD_32 == total % WORD_32
  {
    if colors > 1 {
      RestWraps(total, cut * (colors - 1));
    }
  }

  lemma RestWraps(total: nat, x: nat)
    ensures (x + U32(total - U32(x))) % WORD_32 == total % WORD_32
  {
  }

  /** Two cuts of the same data are the same exactly when the data span the same memory. */
  lemma PlanDetermined(total: nat, span: nat, span': nat, colors: nat)
    requires span < WORD_32 && span' < WORD_32 && colors >= 1
    ensures Plan(total, span, colors) == Plan(total, span', colors) <==> span == span'
  {
    if Plan(total, span, colors) == Plan(total, span', colors) {
      forall c | 0 <= c < colors
        ensures Share(span, Cut(span, colors), colors, c) == Share(span', Cut(span', colors), colors, c)
      {
        assert Plan(total, span, colors)[c].stride == Plan(total, span', colors)[c].stride;
      }
      SameShares(span, span', colors, colors);
      SharesConserve(span, colors);
      SharesConserve(span', colors);
    }
  }

  lemma {:induction false} SameShares(total: nat, total': nat, colors: nat, n: nat)
    requires n <= colors
    requires forall c :: 0 <= c < colors ==>
               Share(total, Cut(total, colors), colors, c) == Share(total', Cut(total', colors), colors, c)
    ensures Shares(total, colors, n) == Shares(total', colors, n)
  {
    if n > 0 {
      SameShares(total, total', colors, n - 1);
    }
  }
}
