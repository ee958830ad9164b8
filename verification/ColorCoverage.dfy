/**
  Which bytes of the buffer the colours move. Offsets and strides are distances in memory, but byte
  counts are those of the packed data: an element of `size` data bytes occupies `extent` bytes of
  memory, and the executor walks its elements from where its part of the buffer starts. The colours
  do their job when every data byte is moved by exactly one of them and no gap is moved by any.
 */
module ColorCoverage {
  import opened Bits
  import opened ColorTiling

  /** A data type: `size` bytes of data at the front of `extent` bytes of memory. */
  datatype Element = Element(size: nat, extent: nat)
  {
    /** Elements do not overlap. */
    predicate Valid() {
      size <= extent
    }

    /** Where byte `x` of the packed data lies in memory. */
    function At(x: nat): (z: nat)
      decreases x
    {
      if size == 0 || x < size then x else extent + At(x - size)
    }
  }

  /** The executor with segment `g` moves memory byte `z`, as byte `y` of its own packed data. */
  predicate MovesAs(e: Element, g: Segment, y: int, z: int) {
    0 <= y < g.bytes && z == g.offset + e.At(y)
  }

  ghost predicate Moves(e: Element, g: Segment, z: int) {
    exists y :: MovesAs(e, g, y, z)
  }

  ghost predicate SomeMoves(e: Element, plan: seq<Segment>, z: int) {
    exists c :: 0 <= c < |plan| && Moves(e, plan[c], z)
  }

  predicate DataAt(e: Element, total: nat, x: int, z: int) {
    0 <= x < total && z == e.At(x)
  }

  /** Memory byte `z` holds data. */
  ghost predicate IsData(e: Element, total: nat, z: int) {
    exists x :: DataAt(e, total, x, z)
  }

  /** The segments partition the data bytes. */
  ghost predicate Tiles(e: Element, plan: seq<Segment>, total: nat) {
    && (forall z :: IsData(e, total, z) <==> SomeMoves(e, plan, z))
    && (forall c, d, z :: 0 <= c < d < |plan| ==> !(Moves(e, plan[c], z) && Moves(e, plan[d], z)))
  }

  /**
    The work queue made of a segment is in order: its size is a multiple of the extent, as
    `configure_impl` asserts of data with gaps, and it holds all the bytes that are to be moved.
   */
  predicate QueueOk(e: Element, g: Segment) {
    if e.size == e.extent then g.bytes <= g.stride
    else e.extent > 0 && g.stride % e.extent == 0 && g.bytes <= (g.stride / e.extent) * e.size
  }

  /** Every data byte is moved by exactly one colour, no gap is, and every colour's queue is in order. */
  ghost predicate Delivers(e: Element, plan: seq<Segment>, total: nat) {
    Tiles(e, plan, total) && forall c :: 0 <= c < |plan| ==> QueueOk(e, plan[c])
  }

  /**
    When the code delivers; a caller can compute it. There is one colour, or the elements have no gaps,
    or the cut falls between elements, in data and memory alike.
   */
  predicate WholeCut(e: Element, count: nat, colors: nat) {
    var total, a, b := count * e.size, Cut(count * e.size, colors), Cut(count * e.extent, colors);
    || (colors == 0 && total == 0)
    || colors == 1
    || (colors > 1 && (e.size == e.extent || (e.extent > 0 && b % e.extent == 0 && b * e.size == a * e.extent)))
  }

  /**
    When the segments tile the data, leaving the queues aside: as above, or nothing is to be cut, or
    there is only one element and data and memory are cut at the same place.
   */
  predicate CleanCut(e: Element, count: nat, colors: nat) {
    var total, a, b := count * e.size, Cut(count * e.size, colors), Cut(count * e.extent, colors);
    || total == 0
    || colors == 1
    || (colors > 1 && CutsBetween(e, count, a, b))
  }

  predicate CutsBetween(e: Element, count: nat, a: nat, b: nat) {
    || e.size == e.extent
    || (e.size > 0 && a % e.size == 0 && b * e.size == a * e.extent)
    || (count == 1 && a == b)
  }

  // --------------------------------------------------------------------------------- where data lies

  lemma {:induction false} AtIncreases(e: Element, x: nat, y: nat)
    requires e.Valid() && x < y
    ensures e.At(x) < e.At(y)
    decreases y
  {
    if 0 < e.size <= x {
      AtIncreases(e, x - e.size, y - e.size);
    }
  }

  lemma AtInjective(e: Element, x: nat, y: nat)
    requires e.Valid() && e.At(x) == e.At(y)
    ensures x == y
  {
    if x < y {
      AtIncreases(e, x, y);
    } else if y < x {
      AtIncreases(e, y, x);
    }
  }

  lemma AtStep(e: Element, x: nat)
    requires e.size > 0
    ensures e.At(x + e.size) == e.extent + e.At(x)
  {
  }

  lemma OneMore(k: nat, m: nat)
    requires k > 0
    ensures k * m == (k - 1) * m + m
  {
  }

  /** Whole elements shift data and memory together. */
  lemma {:induction false} AtWhole(e: Element, k: nat, x: nat)
    requires e.size > 0
    ensures e.At(k * e.size + x) == k * e.extent + e.At(x)
  {
    if k > 0 {
      OneMore(k, e.size);
      OneMore(k, e.extent);
      AtWhole(e, k - 1, x);
      AtStep(e, (k - 1) * e.size + x);
    }
  }

  /** The byte after the data of an element is a gap. */
  lemma {:induction false} GapHasNoData(e: Element, q: nat, x: nat)
    requires 0 < e.size < e.extent
    ensures e.At(x) != q * e.extent + e.size
    decreases x
  {
    TimesBound(e.extent, 0, q);
    if x >= e.size && q > 0 {
      TimesStep(e.extent, q - 1);
      GapHasNoData(e, q - 1, x - e.size);
    }
  }

  lemma {:induction false} AtContiguous(e: Element, x: nat)
    requires e.size == e.extent
    ensures e.At(x) == x
  {
    if 0 < e.size <= x {
      AtContiguous(e, x - e.size);
    }
  }

  // --------------------------------------------------------------------------------- clean cuts tile

  /** Every segment moves its own stretch of the packed data. */
  ghost predicate InStep(e: Element, plan: seq<Segment>, a: nat) {
    forall c, y :: 0 <= c < |plan| && 0 <= y < plan[c].bytes ==> plan[c].offset + e.At(y) == e.At(a * c + y)
  }

  /** The colour that a byte of the packed data belongs to. */
  function OwnerOf(x: nat, a: nat, colors: nat): (c: nat)
    requires colors >= 1
    ensures c < colors && a * c <= x
    ensures c + 1 < colors ==> x < a * c + a
  {
    if colors == 1 || a * (colors - 1) <= x then colors - 1 else OwnerOf(x, a, colors - 1)
  }

  lemma StretchEnds(plan: seq<Segment>, total: nat, a: nat, b: nat, c: nat, y: int)
    requires Laid(plan, total, a, b) && c < |plan| && 0 <= y < plan[c].bytes
    ensures 0 <= a * c + y < total
    ensures c + 1 < |plan| ==> y < a
  {
    TimesBound(a, c + 1, |plan|);
    TimesStep(a, c);
    TimesBound(a, 0, c);
  }

  lemma InStepMoves(e: Element, plan: seq<Segment>, total: nat, a: nat, b: nat, z: int)
    requires Laid(plan, total, a, b) && InStep(e, plan, a)
    ensures IsData(e, total, z) <==> SomeMoves(e, plan, z)
  {
    if IsData(e, total, z) {
      var x :| DataAt(e, total, x, z);
      var c := OwnerOf(x, a, |plan|);
      var y := x - a * c;
      assert 0 <= y < plan[c].bytes && a * c + y == x;
      assert MovesAs(e, plan[c], y, z);
      assert Moves(e, plan[c], z);
    }
    if SomeMoves(e, plan, z) {
      var c :| 0 <= c < |plan| && Moves(e, plan[c], z);
      var y :| MovesAs(e, plan[c], y, z);
      StretchEnds(plan, total, a, b, c, y);
      assert DataAt(e, total, a * c + y, z);
    }
  }

  lemma InStepDisjoint(e: Element, plan: seq<Segment>, total: nat, a: nat, b: nat, c: nat, d: nat, z: int)
    requires e.Valid() && Laid(plan, total, a, b) && InStep(e, plan, a) && c < d < |plan|
    ensures !(Moves(e, plan[c], z) && Moves(e, plan[d], z))
  {
    if Moves(e, plan[c], z) && Moves(e, plan[d], z) {
      var y :| MovesAs(e, plan[c], y, z);
      var y' :| MovesAs(e, plan[d], y', z);
      StretchEnds(plan, total, a, b, c, y);
      StretchEnds(plan, total, a, b, d, y');
      AtInjective(e, a * c + y, a * d + y');
      TimesBound(a, c + 1, d);
      TimesStep(a, c);
      assert false;
    }
  }

  lemma InStepTiles(e: Element, plan: seq<Segment>, total: nat, a: nat, b: nat)
    requires e.Valid() && Laid(plan, total, a, b) && InStep(e, plan, a)
    ensures Tiles(e, plan, total)
  {
    forall z ensures IsData(e, total, z) <==> SomeMoves(e, plan, z) {
      InStepMoves(e, plan, total, a, b, z);
    }
    forall c, d, z | 0 <= c < d < |plan| ensures !(Moves(e, plan[c], z) && Moves(e, plan[d], z)) {
      InStepDisjoint(e, plan, total, a, b, c, d, z);
    }
  }

  lemma WholeInStep(e: Element, plan: seq<Segment>, total: nat, a: nat, b: nat)
    requires e.size > 0 && Laid(plan, total, a, b) && a % e.size == 0 && b * e.size == a * e.extent
    ensures InStep(e, plan, a)
  {
    var k := a / e.size;
    assert a == k * e.size;
    SameFactor(e.size, e.extent, k, a, b);
    forall c, y | 0 <= c < |plan| && 0 <= y < plan[c].bytes
      ensures plan[c].offset + e.At(y) == e.At(a * c + y)
    {
      AtWhole(e, k * c, y);
      Regroup(k, e.size, c);
      Regroup(k, e.extent, c);
    }
  }

  lemma Regroup(k: nat, m: nat, c: nat)
    ensures (k * m) * c == (k * c) * m
  {
  }

  lemma SameFactor(size: nat, extent: nat, k: nat, a: nat, b: nat)
    requires size > 0 && a == k * size && b * size == a * extent
    ensures b == k * extent
  {
    assert b * size == (k * extent) * size;
    Cancel(b, k * extent, size);
  }

  lemma Cancel(x: nat, y: nat, m: nat)
    requires m > 0 && x * m == y * m
    ensures x == y
  {
  }

  lemma PlainInStep(e: Element, plan: seq<Segment>, total: nat, a: nat)
    requires Laid(plan, total, a, a) && (e.size == e.extent || total <= e.size)
    ensures InStep(e, plan, a)
  {
    forall c, y | 0 <= c < |plan| && 0 <= y < plan[c].bytes
      ensures plan[c].offset + e.At(y) == e.At(a * c + y)
    {
      StretchEnds(plan, total, a, a, c, y);
      TimesBound(a, 0, c);
      if e.size == e.extent {
        AtContiguous(e, y);
        AtContiguous(e, a * c + y);
      }
    }
  }

  // --------------------------------------------------------------------------------- others do not

  lemma FirstByteMoves(e: Element, plan: seq<Segment>, c: nat)
    requires c < |plan| && plan[c].bytes > 0
    ensures Moves(e, plan[c], plan[c].offset)
  {
    assert MovesAs(e, plan[c], 0, plan[c].offset);
  }

  /** The second colour must start where the first one stops. */
  lemma StartsBehind(e: Element, plan: seq<Segment>, total: nat, a: nat, b: nat)
    requires e.Valid() && Laid(plan, total, a, b) && 0 < a && Tiles(e, plan, total)
    ensures b >= e.At(a)
  {
    TimesBound(a, 2, |plan|);
    assert plan[0].offset == 0 && plan[1].offset == b && plan[1].bytes >= a;
    FirstByteMoves(e, plan, 1);
    assert SomeMoves(e, plan, b);
    var x :| DataAt(e, total, x, b);
    if x < a {
      assert MovesAs(e, plan[0], x, b);
      assert Moves(e, plan[0], b);
    }
    if a < x {
      AtIncreases(e, a, x);
    }
  }

  lemma StartsBefore(e: Element, plan: seq<Segment>, total: nat, a: nat, b: nat)
    requires e.Valid() && Laid(plan, total, a, b) && 0 < total && Tiles(e, plan, total)
    ensures b <= e.At(a)
  {
    TimesBound(a, 2, |plan|);
    assert DataAt(e, total, a, e.At(a));
    assert SomeMoves(e, plan, e.At(a));
    var c :| 0 <= c < |plan| && Moves(e, plan[c], e.At(a));
    var y :| MovesAs(e, plan[c], y, e.At(a));
    if c == 0 {
      AtIncreases(e, y, a);
    } else {
      TimesBound(b, 1, c);
    }
  }

  lemma StartsThere(e: Element, plan: seq<Segment>, total: nat, a: nat, b: nat)
    requires e.Valid() && Laid(plan, total, a, b) && 0 < total && Tiles(e, plan, total)
    ensures b == e.At(a)
  {
    StartsBefore(e, plan, total, a, b);
    if a > 0 {
      StartsBehind(e, plan, total, a, b);
    }
  }

  /** No colour moves the gap behind element `q`. */
  lemma GapNotMoved(e: Element, plan: seq<Segment>, total: nat, c: nat, y: int, q: nat)
    requires 0 < e.size < e.extent && Tiles(e, plan, total) && c < |plan|
    ensures !MovesAs(e, plan[c], y, q * e.extent + e.size)
  {
    var z := q * e.extent + e.size;
    if MovesAs(e, plan[c], y, z) {
      assert Moves(e, plan[c], z);
      assert SomeMoves(e, plan, z);
      var x :| DataAt(e, total, x, z);
      GapHasNoData(e, q, x);
    }
  }

  /** A cut inside an element would make the second colour run into the gap behind that element ... */
  lemma NotBehindFirst(e: Element, plan: seq<Segment>, total: nat, a: nat, b: nat)
    requires e.Valid() && Laid(plan, total, a, b) && Tiles(e, plan, total)
    requires 0 < e.size < e.extent && e.size <= a
    ensures a % e.size == 0
  {
    var q, r := a / e.size, a % e.size;
    assert a == q * e.size + r;
    StartsThere(e, plan, total, a, b);
    AtWhole(e, q, r);
    TimesBound(a, 2, |plan|);
    assert plan[1].offset == b && plan[1].bytes >= a;
    GapNotMoved(e, plan, total, 1, e.size - r, q);
  }

  /** ... and a cut inside the first element makes some colour run into the gap behind that one. */
  lemma NotInFirst(e: Element, plan: seq<Segment>, total: nat, a: nat, b: nat)
    requires e.Valid() && Laid(plan, total, a, b) && Tiles(e, plan, total)
    requires 0 < e.size < e.extent && a < e.size < total
    ensures a == 0
  {
    StartsThere(e, plan, total, a, b);
    if a > 0 {
      var c := OwnerOf(e.size, a, |plan|);
      var y := e.size - a * c;
      TimesBound(a, 1, c);
      assert plan[c].offset == a * c && 0 <= y < plan[c].bytes;
      GapNotMoved(e, plan, total, c, y, 0);
    }
  }

  /** Between elements, data and memory are cut in proportion. */
  lemma Proportional(e: Element, a: nat)
    requires e.size > 0 && a % e.size == 0
    ensures e.At(a) * e.size == a * e.extent
  {
    var k := a / e.size;
    assert a == k * e.size;
    AtWhole(e, k, 0);
    Regroup(k, e.size, e.extent);
  }

  lemma CutsWhole(e: Element, plan: seq<Segment>, total: nat, a: nat, b: nat)
    requires e.Valid() && Laid(plan, total, a, b) && Tiles(e, plan, total)
    requires 0 < e.size < e.extent && e.size < total
    ensures a % e.size == 0
  {
    if a >= e.size {
      NotBehindFirst(e, plan, total, a, b);
    } else {
      NotInFirst(e, plan, total, a, b);
    }
  }

  lemma TilesOnlyClean(e: Element, plan: seq<Segment>, count: nat, a: nat, b: nat)
    requires e.Valid() && e.size > 0 && count > 0 && Laid(plan, count * e.size, a, b)
    requires Tiles(e, plan, count * e.size)
    ensures CutsBetween(e, count, a, b)
  {
    var total := count * e.size;
    TimesBound(e.size, 1, count);
    StartsThere(e, plan, total, a, b);
    if count == 1 {
      TimesBound(a, 2, |plan|);
    } else if e.size < e.extent {
      TimesBound(e.size, 2, count);
      CutsWhole(e, plan, total, a, b);
      Proportional(e, a);
    }
  }

  lemma CleanTiles(e: Element, plan: seq<Segment>, count: nat, a: nat, b: nat)
    requires e.Valid() && Laid(plan, count * e.size, a, b) && CutsBetween(e, count, a, b)
    requires e.size == e.extent ==> a == b
    ensures Tiles(e, plan, count * e.size)
  {
    if e.size == e.extent || (count == 1 && a == b) {
      PlainInStep(e, plan, count * e.size, a);
    } else {
      WholeInStep(e, plan, count * e.size, a, b);
    }
    InStepTiles(e, plan, count * e.size, a, b);
  }

  // --------------------------------------------------------------------------------- the result

  lemma EmptyTiles(e: Element, span: nat, colors: nat)
    requires span < WORD_32
    ensures Tiles(e, Plan(0, span, colors), 0)
  {
    var plan := Plan(0, span, colors);
    if colors >= 2 {
      PlanLaid(0, span, colors);
      CutFits(0, colors);
      assert Cut(0, colors) == 0;
    }
    assert forall c :: 0 <= c < colors ==> plan[c].bytes == 0;
    forall z ensures !IsData(e, 0, z) && !SomeMoves(e, plan, z) {
    }
  }

  lemma OneTiles(e: Element, total: nat, span: nat)
    requires total < WORD_32
    ensures Tiles(e, Plan(total, span, 1), total)
  {
    var plan := Plan(total, span, 1);
    assert plan[0].offset == 0 && plan[0].bytes == total;
    forall z ensures IsData(e, total, z) <==> SomeMoves(e, plan, z) {
      if IsData(e, total, z) {
        var x :| DataAt(e, total, x, z);
        assert MovesAs(e, plan[0], x, z);
        assert Moves(e, plan[0], z);
      }
      if SomeMoves(e, plan, z) {
        var y :| MovesAs(e, plan[0], y, z);
        assert DataAt(e, total, y, z);
      }
    }
  }

  lemma NoneDoNot(e: Element, total: nat, span: nat)
    requires total > 0
    ensures !Tiles(e, Plan(total, span, 0), total)
  {
    assert DataAt(e, total, 0, e.At(0));
    assert IsData(e, total, e.At(0)) && !SomeMoves(e, Plan(total, span, 0), e.At(0));
  }

  /** Tiling alone, exactly. */
  lemma TilesIff(e: Element, count: nat, colors: nat)
    requires e.Valid() && count * e.size < WORD_32 && count * e.extent < WORD_32
    ensures Product(count, e.size) == count * e.size && Product(count, e.extent) == count * e.extent
    ensures Tiles(e, Plan(count * e.size, count * e.extent, colors), count * e.size) <==> CleanCut(e, count, colors)
  {
    var total, span := count * e.size, count * e.extent;
    var plan := Plan(total, span, colors);
    if total == 0 {
      EmptyTiles(e, span, colors);
    } else if colors == 0 {
      NoneDoNot(e, total, span);
    } else if colors == 1 {
      OneTiles(e, total, span);
    } else {
      PlanLaid(total, span, colors);
      if CutsBetween(e, count, Cut(total, colors), Cut(span, colors)) {
        CleanTiles(e, plan, count, Cut(total, colors), Cut(span, colors));
      } else if Tiles(e, plan, total) {
        TilesOnlyClean(e, plan, count, Cut(total, colors), Cut(span, colors));
      }
    }
  }

  /**
    Cut between elements, every colour gets a whole number of them, so that the queue made of its
    stride holds just its bytes.
   */
  lemma QueuesFit(e: Element, count: nat, colors: nat, c: nat)
    requires e.Valid() && e.extent > 0 && count * e.size < WORD_32 && count * e.extent < WORD_32
    requires c < colors && 2 <= colors
    requires var a, b := Cut(count * e.size, colors), Cut(count * e.extent, colors);
             b % e.extent == 0 && b * e.size == a * e.extent
    ensures var g := Plan(count * e.size, count * e.extent, colors)[c];
            g.stride % e.extent == 0 && (g.stride / e.extent) * e.size == g.bytes
  {
    var total, span := count * e.size, count * e.extent;
    var a, b := Cut(total, colors), Cut(span, colors);
    var k := b / e.extent;
    assert b == k * e.extent;
    SameFactor(e.extent, e.size, k, b, a);
    CutFits(total, colors);
    CutFits(span, colors);
    ShareOf(total, a, colors, c);
    ShareOf(span, b, colors, c);
    if c + 1 < colors {
      ModIs(b, e.extent, k, 0);
    } else {
      Regroup(k, e.size, c);
      Regroup(k, e.extent, c);
      TimesBound(b, c, colors);
      Rest(count, k * c, e.size);
      Rest(count, k * c, e.extent);
      Cancelled(count, k * c, e.extent);
      ModIs(span - b * c, e.extent, count - k * c, 0);
    }
  }

  /** With one colour, or without gaps, the queues fit too. */
  lemma PlainQueuesFit(e: Element, count: nat, colors: nat, c: nat)
    requires e.Valid() && count * e.size < WORD_32 && count * e.extent < WORD_32
    requires c < colors && (colors == 1 || e.size == e.extent)
    ensures QueueOk(e, Plan(count * e.size, count * e.extent, colors)[c])
  {
    if e.size != e.extent {
      assert Plan(count * e.size, count * e.extent, 1)[0].stride == count * e.extent;
      ModIs(count * e.extent, e.extent, count, 0);
    }
  }

  /** A cut of memory between elements, with the data cut in proportion, cuts the data between elements. */
  lemma WholeIsClean(e: Element, a: nat, b: nat)
    requires e.size > 0 && e.extent > 0 && b % e.extent == 0 && b * e.size == a * e.extent
    ensures a % e.size == 0
  {
    var k := b / e.extent;
    assert b == k * e.extent;
    SameFactor(e.extent, e.size, k, b, a);
    ModIs(a, e.size, k, 0);
  }

  lemma WholeDelivers(e: Element, count: nat, colors: nat)
    requires e.Valid() && count * e.size < WORD_32 && count * e.extent < WORD_32 && WholeCut(e, count, colors)
    ensures Delivers(e, Plan(count * e.size, count * e.extent, colors), count * e.size)
  {
    var total, span := count * e.size, count * e.extent;
    var plan := Plan(total, span, colors);
    if colors > 1 && e.size != e.extent && e.size > 0 {
      WholeIsClean(e, Cut(total, colors), Cut(span, colors));
    }
    TilesIff(e, count, colors);
    forall c | 0 <= c < |plan| ensures QueueOk(e, plan[c]) {
      if colors == 1 || e.size == e.extent {
        PlainQueuesFit(e, count, colors, c);
      } else {
        QueuesFit(e, count, colors, c);
      }
    }
  }

  /** A stride that is a multiple of the extent is no cut inside the only element. */
  lemma NoCutInOne(e: Element, a: nat)
    requires e.extent > 0 && a % e.extent == 0 && a < e.extent
    ensures a == 0
  {
    ModSmall(a, e.extent);
  }

  lemma FirstStride(e: Element, count: nat, colors: nat)
    requires 2 <= colors && count * e.extent < WORD_32
    ensures Plan(count * e.size, count * e.extent, colors)[0].stride == Cut(count * e.extent, colors)
  {
    CutFits(count * e.extent, colors);
    ShareOf(count * e.extent, Cut(count * e.extent, colors), colors, 0);
  }

  /** A tiling cut of memory between elements is in proportion. */
  lemma InProportion(e: Element, count: nat, colors: nat, a: nat, b: nat)
    requires 2 <= colors && e.size < e.extent && b % e.extent == 0
    requires a * colors <= count * e.size && b * colors <= count * e.extent
    requires count * e.size == 0 || CutsBetween(e, count, a, b)
    ensures b * e.size == a * e.extent
  {
    if count * e.size == 0 {
      TimesBound(a, 1, colors);
      NothingProportional(e, count, b, colors);
    } else if count == 1 && a == b {
      TimesBound(a, 2, colors);
      NoCutInOne(e, a);
    }
  }

  lemma DeliversWhole(e: Element, count: nat, colors: nat)
    requires e.Valid() && count * e.size < WORD_32 && count * e.extent < WORD_32 && 2 <= colors
    requires Delivers(e, Plan(count * e.size, count * e.extent, colors), count * e.size)
    ensures WholeCut(e, count, colors)
  {
    var total, span := count * e.size, count * e.extent;
    if e.size != e.extent {
      FirstStride(e, count, colors);
      assert QueueOk(e, Plan(total, span, colors)[0]);
      TilesIff(e, count, colors);
      CutFits(total, colors);
      CutFits(span, colors);
      InProportion(e, count, colors, Cut(total, colors), Cut(span, colors));
    }
  }

  lemma NothingProportional(e: Element, count: nat, b: nat, colors: nat)
    requires count * e.size == 0 && b * colors <= count * e.extent && colors > 0
    ensures b * e.size == 0
  {
    if e.size > 0 {
      assert count == 0;
      TimesBound(b, 1, colors);
    }
  }

  /** The property, exactly: the code delivers all the data if and only if the cut is whole. */
  lemma DeliversIff(e: Element, count: nat, colors: nat)
    requires e.Valid() && count * e.size < WORD_32 && count * e.extent < WORD_32
    ensures Delivers(e, Plan(count * e.size, count * e.extent, colors), count * e.size) <==> WholeCut(e, count, colors)
  {
    if WholeCut(e, count, colors) {
      WholeDelivers(e, count, colors);
    } else if Delivers(e, Plan(count * e.size, count * e.extent, colors), count * e.size) {
      if colors == 0 {
        TilesIff(e, count, colors);
      } else {
        DeliversWhole(e, count, colors);
      }
    }
  }

  lemma Rest(count: nat, used: nat, m: nat)
    ensures count * m - used * m == (count - used) * m
  {
  }

  lemma Cancelled(count: nat, used: nat, m: nat)
    requires m > 0 && used * m <= count * m
    ensures used <= count
  {
  }

  /** For data without gaps, as many colours as one likes. */
  lemma ContiguousDelivers(count: nat, size: nat, colors: nat)
    requires count * size < WORD_32 && colors >= 1
    ensures Delivers(Element(size, size), Plan(count * size, count * size, colors), count * size)
  {
    DeliversIff(Element(size, size), count, colors);
  }

  /** Elements of 8 bytes that lie 16 bytes apart: with 96 of them the first colour gets nothing. */
  lemma GapsDoNotTile()
    ensures Plan(96 * 8, 96 * 16, 2) == [Segment(0, 0, 512), Segment(512, 768, 1024)]
    ensures !Tiles(Element(8, 16), Plan(96 * 8, 96 * 16, 2), 96 * 8)
  {
    TilesIff(Element(8, 16), 96, 2);
  }

  /** With 1024 of them each colour gets half of the elements. */
  lemma GapsMayDeliver()
    ensures Plan(1024 * 8, 1024 * 16, 2) == [Segment(0, 4096, 8192), Segment(8192, 4096, 8192)]
    ensures Delivers(Element(8, 16), Plan(1024 * 8, 1024 * 16, 2), 1024 * 8)
  {
    DeliversIff(Element(8, 16), 1024, 2);
  }

  /** Elements that lie 12 bytes apart: the shares are equal, but the second colour starts inside an element. */
  lemma EqualSharesDoNotTile()
    ensures Plan(150 * 8, 150 * 12, 2) == [Segment(0, 512, 512), Segment(512, 688, 1288)]
    ensures !Tiles(Element(8, 12), Plan(150 * 8, 150 * 12, 2), 150 * 8)
  {
    TilesIff(Element(8, 12), 150, 2);
  }

  /** One element of 1024 bytes in 1100: the segments tile it, but the first colour's queue holds nothing. */
  lemma TilingIsNotEnough()
    ensures Plan(1024, 1100, 2) == [Segment(0, 512, 512), Segment(512, 512, 588)]
    ensures Tiles(Element(1024, 1100), Plan(1024, 1100, 2), 1024)
    ensures !Delivers(Element(1024, 1100), Plan(1024, 1100, 2), 1024)
  {
    TilesIff(Element(1024, 1100), 1, 2);
    DeliversIff(Element(1024, 1100), 1, 2);
  }
}
