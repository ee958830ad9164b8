/**
  The one-at-a-time hash of group keys, updated byte by byte through a pointer. Words are 32 bits
  wide, so that a left shift and an addition are truncated. Whether `char` is signed is left to
  the platform.
 */
module JenkinsHash {
  import opened Bits

  const M: nat := 0x1_0000_0000
  type Word = x: nat | x < M
  type Byte = x: nat | x < 256

  // --------------------------------------------------------------------------------- the code

  /** A `char` converted to the hash's type; a negative one wraps. */
  function Widen(c: Byte, signed: bool): (w: Word)
    ensures w == (if signed && c >= 0x80 then c - 0x100 else c) % 0x1_0000_0000
  {
    if signed && c >= 128 then c + (M - 256) else c
  }

  function Add(x: Word, y: Word): Word {
    (x + y) % M
  }

  /** `x += x << k`, for a factor of 2^k. */
  function Scale(x: Word, factor: nat): Word {
    Add(x, (x * factor) % M)
  }

  /** `x ^= x >> k` */
  function Smear(x: Word, k: nat): Word {
    ShrBelow(x, k);
    XorBelow(x, Shr(x, k));
    Xor(x, Shr(x, k))
  }

  /** One round of the loop of `update_hash`. */
  function Step(h: Word, c: Byte, signed: bool): Word {
    Smear(Scale(Add(h, Widen(c, signed)), 1024), 6)
  }

  /** `update_hash` */
  function Update(h: Word, key: seq<Byte>, signed: bool): Word {
    if key == [] then h else Step(Update(h, key[..|key| - 1], signed), key[|key| - 1], signed)
  }

  /** `finalize_hash` before its mask. */
  function Mix(h: Word): Word {
    Scale(Smear(Scale(h, 8), 11), 32768)
  }

  /** `finalize_hash` */
  function Finalize(h: Word): (r: Word)
    ensures r < 0x20_0000 && r == Mix(h) % 0x20_0000
  {
    MaskIs21Bits(Mix(h));
    And(Mix(h), 0x1F_FFFF)
  }

  lemma MaskIs21Bits(x: nat)
    ensures And(x, 0x1F_FFFF) == x % 0x20_0000
  {
    Pow2Values();
    AndMask(x, 21);
  }

  /** The hash word and the three routines that work on it. */
  class HashWord {
    var hash: Word

    /** `init_hash` */
    constructor ()
      ensures hash == 0
    {
      hash := 0;
    }

    method UpdateHash(key: seq<Byte>, len: nat, signed: bool)
      requires len <= |key|
      modifies this
      ensures hash == Update(old(hash), key[..len], signed)
    {
      var i := 0;
      while i < len
        invariant 0 <= i <= len
        invariant hash == Update(old(hash), key[..i], signed)
      {
        assert key[..i + 1][..i] == key[..i];
        hash := Add(hash, Widen(key[i], signed));
        hash := Scale(hash, 1024);
        hash := Smear(hash, 6);
        i := i + 1;
      }
    }

    method FinalizeHash()
      modifies this
      ensures hash == Finalize(old(hash)) && hash < 0x20_0000
    {
      hash := Scale(hash, 8);
      hash := Smear(hash, 11);
      hash := Scale(hash, 32768);
      MaskIs21Bits(hash);
      hash := And(hash, 0x1F_FFFF);
    }
  }

  // --------------------------------------------------------------------------------- exclusive or

  lemma XorBelow(a: Word, b: Word)
    ensures Xor(a, b) < M
  {
    Pow2Values();
    XorBound(a, b, 32);
  }

  // --------------------------------------------------------------------------------- inverses

  function Unsmear(y: Word, k: nat): Word
    requires k >= 1
  {
    ShrBelow(y, k);
    if y == 0 then 0
    else
      var u := Unsmear(Shr(y, k), k);
      XorBelow(y, u);
      Xor(y, u)
  }

  lemma {:induction false} UnsmearSmear(x: Word, k: nat)
    requires k >= 1
    ensures Unsmear(Smear(x, k), k) == x
  {
    var y := Smear(x, k);
    ShrBelow(x, k);
    if y == 0 {
      XorZero(x, Shr(x, k));
    } else {
      XorShr(x, Shr(x, k), k);
      UnsmearSmear(Shr(x, k), k);
      assert Shr(y, k) == Smear(Shr(x, k), k);
      XorUndo(x, Shr(x, k));
    }
  }

  lemma {:induction false} SmearUnsmear(y: Word, k: nat)
    requires k >= 1
    ensures Smear(Unsmear(y, k), k) == y
  {
    ShrBelow(y, k);
    if y > 0 {
      SmearUnsmear(Shr(y, k), k);
      var u := Unsmear(Shr(y, k), k);
      XorShr(y, u, k);
      XorUndo(u, Shr(u, k));
      XorUndo(y, u);
    }
  }

  /** `inverse` undoes multiplication by `1 + factor` among the words. */
  predicate Inverse(factor: nat, inverse: nat) {
    (inverse * (1 + factor)) % M == 1
  }

  function Unscale(y: Word, inverse: nat): Word {
    (y * inverse) % M
  }

  lemma KnownInverses()
    ensures Inverse(1024, 0xC00F_FC01) && Inverse(8, 0x38E3_8E39) && Inverse(32768, 0x3FFF_8001)
  {
  }

  lemma ModAdd(a: int, k: int)
    ensures (a + k * M) % M == a % M
  {
  }

  lemma ModTimes(a: nat, b: nat)
    ensures ((a % M) * b) % M == (a * b) % M
  {
    var q, r := a / M, a % M;
    assert a * b == (q * M + r) * b == r * b + (q * b) * M;
    ModAdd(r * b, q * b);
  }

  lemma ScaleIsTimes(x: Word, factor: nat)
    ensures Scale(x, factor) == (x * (1 + factor)) % M
  {
    var q := (x * factor) / M;
    assert x * (1 + factor) == x + x * factor;
    ModAdd(x + (x * factor) % M, q);
  }

  lemma TimesUndo(x: Word, a: nat, b: nat)
    requires (a * b) % M == 1
    ensures ((x * a) % M * b) % M == x
  {
    ModTimes(x * a, b);
    var k := (a * b) / M;
    assert (x * a) * b == x * (a * b) == x * (1 + k * M) == x + (x * k) * M;
    ModAdd(x, x * k);
  }

  lemma ScaleInverse(x: Word, factor: nat, inverse: nat)
    requires Inverse(factor, inverse)
    ensures Unscale(Scale(x, factor), inverse) == x
    ensures Scale(Unscale(x, inverse), factor) == x
  {
    ScaleIsTimes(x, factor);
    ScaleIsTimes(Unscale(x, inverse), factor);
    assert inverse * (1 + factor) == (1 + factor) * inverse;
    TimesUndo(x, 1 + factor, inverse);
    TimesUndo(x, inverse, 1 + factor);
  }

  function Sub(x: Word, y: Word): Word {
    if x >= y then x - y else x - y + M
  }

  lemma AddSub(x: Word, y: Word)
    ensures Sub(Add(x, y), y) == x
    ensures Add(Sub(x, y), y) == x
  {
  }

  // --------------------------------------------------------------------------------- in numbers

  lemma ShrIs(x: nat)
    ensures Shr(x, 6) == x / 64 && Shr(x, 11) == x / 2048
  {
    ShrIsDiv(x, 6);
    ShrIsDiv(x, 11);
    assert Pow2(6) == 64 && Pow2(11) == 2048;
  }

  lemma AddByte(h: Word, byte: int, w: Word)
    requires -0x100 <= byte < 0x100 && w == byte % 0x1_0000_0000
    ensures Add(h, w) == (h + byte) % 0x1_0000_0000
  {
  }

  /**
    A round of `update_hash`: the byte is added as the signed or unsigned number it is on the platform,
    the sum is multiplied by 1025 and combined with its 64th part.
   */
  lemma RoundIs(h: Word, c: Byte, signed: bool)
    ensures var byte := if signed && c >= 0x80 then c - 0x100 else c;
            var y := ((h + byte) % 0x1_0000_0000 * 1025) % 0x1_0000_0000;
            Update(h, [c], signed) == Step(h, c, signed) == Xor(y, y / 64)
  {
    assert [c][..0] == [] && Update(h, [], signed) == h;
    var x := Add(h, Widen(c, signed));
    AddByte(h, if signed && c >= 0x80 then c - 0x100 else c, Widen(c, signed));
    ScaleIsTimes(x, 1024);
    ShrIs(Scale(x, 1024));
  }

  /** `finalize_hash`: times 9, combined with its 2048th part, times 32769, cut to 21 bits. */
  lemma FinishIs(h: Word)
    ensures var y := (h * 9) % 0x1_0000_0000;
            var z := Xor(y, y / 2048);
            && Mix(h) == (z * 32769) % 0x1_0000_0000
            && Finalize(h) == (z * 32769) % 0x1_0000_0000 % 0x20_0000
  {
    ScaleIsTimes(h, 8);
    ShrIs(Scale(h, 8));
    ScaleIsTimes(Smear(Scale(h, 8), 11), 32768);
  }

  // --------------------------------------------------------------------------------- results

  /** The state before a round. */
  function Unstep(h: Word, c: Byte, signed: bool): Word {
    Sub(Unscale(Unsmear(h, 6), 0xC00F_FC01), Widen(c, signed))
  }

  /** For every byte a round is a bijection of the states. */
  lemma StepBijective(h: Word, c: Byte, signed: bool)
    ensures Unstep(Step(h, c, signed), c, signed) == h
    ensures Step(Unstep(h, c, signed), c, signed) == h
  {
    var w := Widen(c, signed);
    KnownInverses();
    AddSub(h, w);
    ScaleInverse(Add(h, w), 1024, 0xC00F_FC01);
    UnsmearSmear(Scale(Add(h, w), 1024), 6);
    var u := Unsmear(h, 6);
    SmearUnsmear(h, 6);
    ScaleInverse(u, 1024, 0xC00F_FC01);
    AddSub(Unscale(u, 0xC00F_FC01), w);
  }

  function Unupdate(h: Word, key: seq<Byte>, signed: bool): Word
    decreases |key|
  {
    if key == [] then h else Unupdate(Unstep(h, key[|key| - 1], signed), key[..|key| - 1], signed)
  }

  /** For every key `update_hash` is a bijection of the states. */
  lemma {:induction false} UpdateBijective(h: Word, key: seq<Byte>, signed: bool)
    ensures Unupdate(Update(h, key, signed), key, signed) == h
    ensures Update(Unupdate(h, key, signed), key, signed) == h
    decreases |key|
  {
    if key != [] {
      var init, c := key[..|key| - 1], key[|key| - 1];
      StepBijective(Update(h, init, signed), c, signed);
      UpdateBijective(h, init, signed);
      UpdateBijective(Unstep(h, c, signed), init, signed);
      StepBijective(h, c, signed);
    }
  }

  /** `update_hash` over a concatenation equals two updates. */
  lemma {:induction false} UpdateConcat(h: Word, a: seq<Byte>, b: seq<Byte>, signed: bool)
    ensures Update(h, a + b, signed) == Update(Update(h, a, signed), b, signed)
  {
    if b == [] {
      assert a + b == a;
    } else {
      assert (a + b)[..|a + b| - 1] == a + b[..|b| - 1];
      UpdateConcat(h, a, b[..|b| - 1], signed);
    }
  }

  function Unmix(h: Word): Word {
    Unscale(Unsmear(Unscale(h, 0x3FFF_8001), 11), 0x38E3_8E39)
  }

  /** `finalize_hash` is a bijection up to its mask. */
  lemma MixBijective(h: Word)
    ensures Unmix(Mix(h)) == h
    ensures Mix(Unmix(h)) == h
  {
    KnownInverses();
    var s := Scale(h, 8);
    ScaleInverse(Smear(s, 11), 32768, 0x3FFF_8001);
    UnsmearSmear(s, 11);
    ScaleInverse(h, 8, 0x38E3_8E39);
    var u := Unscale(h, 0x3FFF_8001);
    ScaleInverse(Unsmear(u, 11), 8, 0x38E3_8E39);
    SmearUnsmear(u, 11);
    ScaleInverse(h, 32768, 0x3FFF_8001);
  }

  lemma WidenInjective(c: Byte, d: Byte, signed: bool)
    requires Widen(c, signed) == Widen(d, signed)
    ensures c == d
  {
  }

  /** Different bytes take one state to different states. */
  lemma StepSeparates(h: Word, c: Byte, d: Byte, signed: bool)
    requires Step(h, c, signed) == Step(h, d, signed)
    ensures c == d
  {
    KnownInverses();
    AddSub(Widen(c, signed), h);
    AddSub(Widen(d, signed), h);
    var x, y := Add(h, Widen(c, signed)), Add(h, Widen(d, signed));
    UnsmearSmear(Scale(x, 1024), 6);
    UnsmearSmear(Scale(y, 1024), 6);
    ScaleInverse(x, 1024, 0xC00F_FC01);
    ScaleInverse(y, 1024, 0xC00F_FC01);
    WidenInjective(c, d, signed);
  }

  /** Keys of one length that differ in exactly one byte never collide before the mask. */
  lemma OneByteNeverCollides(h: Word, a: seq<Byte>, c: Byte, d: Byte, b: seq<Byte>, signed: bool)
    requires c != d
    ensures Update(h, a + [c] + b, signed) != Update(h, a + [d] + b, signed)
    ensures Mix(Update(h, a + [c] + b, signed)) != Mix(Update(h, a + [d] + b, signed))
  {
    var s := Update(h, a, signed);
    var p, q := Step(s, c, signed), Step(s, d, signed);
    OneMore(h, a, c, b, signed);
    OneMore(h, a, d, b, signed);
    if p == q {
      StepSeparates(s, c, d, signed);
    }
    UpdateBijective(p, b, signed);
    UpdateBijective(q, b, signed);
    MixBijective(Update(p, b, signed));
    MixBijective(Update(q, b, signed));
  }

  lemma OneMore(h: Word, a: seq<Byte>, c: Byte, b: seq<Byte>, signed: bool)
    ensures Update(h, a + [c] + b, signed) == Update(Step(Update(h, a, signed), c, signed), b, signed)
  {
    UpdateConcat(h, a + [c], b, signed);
    assert (a + [c])[..|a|] == a;
  }

  /** A word with the same low 21 bits. */
  function AboveMask(x: Word): (y: Word)
    ensures y != x && y % 0x20_0000 == x % 0x20_0000
  {
    if x + 0x20_0000 < M then x + 0x20_0000 else x - 0x20_0000
  }

  /** The result has 21 bits; behind the mask every state shares its result with another one. */
  lemma MaskCollides(h: Word) returns (h': Word)
    ensures Finalize(h) < 0x20_0000
    ensures h' != h && Finalize(h') == Finalize(h)
  {
    var other := AboveMask(Mix(h));
    h' := Unmix(other);
    MixBijective(h);
    MixBijective(other);
  }
}
