/**
  Connection ids that carry a sequence number: a communicator or rank in the upper bits, the number
  of updates in the lower ones, both cut to their widths.
 */
module ConnectionIds {
  import opened Bits

  /** The widths of the two fields. */
  datatype Layout = Layout(idBits: nat, seqBits: nat)

  const COMM_SEQ: Layout := Layout(11, 11)
  const RANK_SEQ: Layout := Layout(23, 9)

  /** `(unsigned) -1`: no fixed id, and the value that a multicast must not have. */
  const NO_ID: nat := 0xFFFF_FFFF

  /** After how many updates an id comes back. */
  function Window(y: Layout): (w: nat)
    ensures w > 0
  {
    Pow2(y.seqBits)
  }

  function Mask(bits: nat): nat {
    Pow2(bits) - 1
  }

  /** `((id & idmask) << seqbits) | (n & seqmask)` */
  function Packed(y: Layout, id: nat, n: nat): nat {
    Or(Shl(And(id, Mask(y.idBits)), y.seqBits), And(n, Mask(y.seqBits)))
  }

  /** A pair of an id and a count, each modulo its range. */
  function Pair(ids: nat, window: nat, id: nat, n: nat): (r: nat)
    requires ids >= 1 && window >= 1
    ensures r / window == id % ids && r % window == n % window
  {
    ModIs((id % ids) * window + n % window, window, id % ids, n % window);
    (id % ids) * window + n % window
  }

  lemma PackedIsPair(y: Layout, id: nat, n: nat)
    ensures Packed(y, id, n) == Pair(Pow2(y.idBits), Pow2(y.seqBits), id, n)
  {
    AndMask(id, y.idBits);
    AndMask(n, y.seqBits);
    OrFields(And(id, Mask(y.idBits)), And(n, Mask(y.seqBits)), y.seqBits);
  }

  /** Only what is kept of the count matters. */
  lemma PairMod(ids: nat, window: nat, id: nat, n: nat)
    requires ids >= 1 && window >= 1
    ensures Pair(ids, window, id, n % window) == Pair(ids, window, id, n)
  {
    ModSmall(n % window, window);
  }

  /** Two pairs are equal exactly when both parts agree. */
  lemma PairEqual(ids: nat, window: nat, id: nat, n: nat, id': nat, n': nat)
    requires ids >= 1 && window >= 1
    ensures Pair(ids, window, id, n) == Pair(ids, window, id', n') <==>
            id % ids == id' % ids && n % window == n' % window
  {
    ModIs(Pair(ids, window, id, n), window, id % ids, n % window);
    ModIs(Pair(ids, window, id', n'), window, id' % ids, n' % window);
  }

  lemma PairRepeats(ids: nat, window: nat, id: nat, n: nat, k: nat)
    requires ids >= 1 && window >= 1
    ensures Pair(ids, window, id, n + k) == Pair(ids, window, id, n) <==> k % window == 0
  {
    ModShift(n, k, window);
    PairEqual(ids, window, id, n + k, id, n);
  }

  lemma ModShift(a: nat, b: nat, d: nat)
    requires d >= 1
    ensures (a + b) % d == a % d <==> b % d == 0
  {
    var r, r' := a % d, b % d;
    var q := a / d + b / d;
    assert a + b == q * d + (r + r') by {
      Distribute(a / d, b / d, d);
    }
    if r + r' < d {
      ModIs(a + b, d, q, r + r');
    } else {
      Distribute(q, 1, d);
      ModIs(a + b, d, q + 1, r + r' - d);
    }
  }

  lemma Distribute(p: nat, q: nat, d: nat)
    ensures (p + q) * d == p * d + q * d
  {
  }

  lemma Successor(n: nat, d: nat)
    requires d >= 1
    ensures (n % d + 1) % d == (n + 1) % d
  {
    var q, r := n / d, n % d;
    if r + 1 < d {
      ModIs(n + 1, d, q, r + 1);
      ModSmall(r + 1, d);
    } else {
      Distribute(q, 1, d);
      ModIs(n + 1, d, q + 1, 0);
      ModIs(r + 1, d, 1, 0);
    }
  }

  // --------------------------------------------------------------------------------- histories

  datatype Event = Update(id: nat) | SetSequence(id: nat)

  /** How often `id` was updated since its sequence was last set. */
  function Since(h: seq<Event>, id: nat): nat {
    if h == [] then 0
    else
      var before, e := h[..|h| - 1], h[|h| - 1];
      if e == Update(id) then Since(before, id) + 1
      else if e == SetSequence(id) then 0
      else Since(before, id)
  }

  /** The id in use after a history. */
  function IdAfter(y: Layout, h: seq<Event>, id: nat): nat {
    Pair(Pow2(y.idBits), Pow2(y.seqBits), id, Since(h, id))
  }

  lemma {:induction false} SinceConcat(h: seq<Event>, more: seq<Event>, id: nat)
    requires SetSequence(id) !in more
    ensures Since(h + more, id) == Since(h, id) + Since(more, id)
  {
    if more == [] {
      assert h + more == h;
    } else {
      var init := more[..|more| - 1];
      assert (h + more)[..|h + more| - 1] == h + init;
      assert SetSequence(id) !in init;
      SinceConcat(h, init, id);
    }
  }

  /** How often `e` occurs. */
  function Occurrences(h: seq<Event>, e: Event): nat {
    multiset(h)[e]
  }

  /** The count is that of the updates of `id` since its sequence was last set, and of nothing else. */
  lemma {:induction false} SinceCounts(h: seq<Event>, more: seq<Event>, id: nat)
    requires SetSequence(id) !in more
    ensures Since(more, id) == Occurrences(more, Update(id))
    ensures Since(h + [SetSequence(id)] + more, id) == Occurrences(more, Update(id))
  {
    if more == [] {
      assert h + [SetSequence(id)] + more == h + [SetSequence(id)];
      assert (h + [SetSequence(id)])[..|h|] == h;
    } else {
      var init, whole := more[..|more| - 1], h + [SetSequence(id)] + more;
      assert more == init + [more[|more| - 1]];
      assert whole[..|whole| - 1] == h + [SetSequence(id)] + init;
      assert SetSequence(id) !in init;
      SinceCounts(h, init, id);
    }
  }

  /** Two users never share an id when both fit the field, whatever happened to each. */
  lemma NeverShared(y: Layout, h: seq<Event>, h': seq<Event>, id: nat, id': nat)
    requires id != id' && id < Pow2(y.idBits) && id' < Pow2(y.idBits)
    ensures IdAfter(y, h, id) != IdAfter(y, h', id')
  {
    ModSmall(id, Pow2(y.idBits));
    ModSmall(id', Pow2(y.idBits));
    PairEqual(Pow2(y.idBits), Pow2(y.seqBits), id, Since(h, id), id', Since(h', id'));
  }

  /** In general they share one exactly when their low bits agree and their counts do, modulo the window. */
  lemma SharedIff(y: Layout, h: seq<Event>, h': seq<Event>, id: nat, id': nat)
    ensures IdAfter(y, h, id) == IdAfter(y, h', id') <==>
            && id % Pow2(y.idBits) == id' % Pow2(y.idBits)
            && Since(h, id) % Pow2(y.seqBits) == Since(h', id') % Pow2(y.seqBits)
  {
    PairEqual(Pow2(y.idBits), Pow2(y.seqBits), id, Since(h, id), id', Since(h', id'));
  }

  /** An id comes back exactly after every full window of updates: 2048 of them, or 512. */
  lemma RepeatsIff(y: Layout, h: seq<Event>, more: seq<Event>, id: nat)
    requires SetSequence(id) !in more
    ensures IdAfter(y, h + more, id) == IdAfter(y, h, id) <==> Since(more, id) % Pow2(y.seqBits) == 0
    ensures Pow2(COMM_SEQ.seqBits) == 2048 && Pow2(RANK_SEQ.seqBits) == 512
  {
    SinceConcat(h, more, id);
    PairRepeats(Pow2(y.idBits), Pow2(y.seqBits), id, Since(h, id), Since(more, id));
  }

  /** No history gives a communicator the id that `postMulticast_impl` refuses. */
  lemma CommSeqNeverNoId(h: seq<Event>, comm: nat)
    ensures IdAfter(COMM_SEQ, h, comm) < 0x40_0000 < NO_ID
  {
    Pow2Values();
  }

  /** A rank gets it exactly when all of its low 23 bits are set and its sequence number is 511. */
  lemma RankSeqNoIdIff(h: seq<Event>, rank: nat)
    ensures IdAfter(RANK_SEQ, h, rank) <= NO_ID
    ensures IdAfter(RANK_SEQ, h, rank) == NO_ID <==> rank % 0x80_0000 == 0x7F_FFFF && Since(h, rank) % 0x200 == 0x1FF
  {
    Pow2Values();
  }

  // --------------------------------------------------------------------------------- the managers

  /** What a map holds for a key once `operator[]` has made sure that there is something. */
  function Entry(m: map<nat, nat>, k: nat): nat {
    if k in m then m[k] else 0
  }

  /** Every entry is the number of updates of its key, cut to the width of the field. */
  ghost predicate Counts(window: nat, m: map<nat, nat>, h: seq<Event>)
    requires window >= 1
  {
    forall k :: Entry(m, k) == Since(h, k) % window
  }

  lemma UpdateKeeps(window: nat, m: map<nat, nat>, h: seq<Event>, id: nat)
    requires window >= 1 && Counts(window, m, h)
    ensures Counts(window, m[id := (Entry(m, id) + 1) % window], h + [Update(id)])
  {
    var m' := m[id := (Entry(m, id) + 1) % window];
    var h' := h + [Update(id)];
    assert h'[..|h|] == h;
    Successor(Since(h, id), window);
    forall k ensures Entry(m', k) == Since(h', k) % window {
    }
  }

  lemma SetKeeps(window: nat, m: map<nat, nat>, h: seq<Event>, id: nat)
    requires window >= 1 && Counts(window, m, h)
    ensures Counts(window, m[id := 0], h + [SetSequence(id)])
  {
    var m', h' := m[id := 0], h + [SetSequence(id)];
    assert h'[..|h|] == h;
    ModSmall(0, window);
    forall k ensures Entry(m', k) == Since(h', k) % window {
    }
  }

  datatype Kind = ByComm | ByRank
  {
    function Layout(): (y: Layout)
      ensures ByComm? ==> Pow2(y.idBits) == 0x800 && Pow2(y.seqBits) == 0x800
      ensures ByRank? ==> Pow2(y.idBits) == 0x80_0000 && Pow2(y.seqBits) == 0x200
    {
      Pow2Values();
      if ByComm? then COMM_SEQ else RANK_SEQ
    }
  }

  /** Both managers; they differ in their widths and in what they take the id from. */
  class SeqConnMgr {
    const kind: Kind
    const connid: nat
    var seqs: map<nat, nat>
    ghost var history: seq<Event>

    /** What a sender and a receiver use to find their sequence number. */
    function SendKey(comm: nat, root: nat): nat {
      if kind.ByComm? then comm else root
    }

    function RecvKey(comm: nat, src: nat): nat {
      if kind.ByComm? then comm else src
    }

    ghost function Window(): nat {
      Pow2(kind.Layout().seqBits)
    }

    ghost predicate Valid()
      reads this
    {
      Counts(Window(), seqs, history)
    }

    constructor (kind: Kind, connid: nat)
      ensures Valid() && history == [] && this.kind == kind && this.connid == connid
    {
      this.kind, this.connid := kind, connid;
      seqs, history := map[], [];
      new;
      ModSmall(0, Window());
    }

    /** The bit expressions of the code. */
    method Pack(id: nat, n: nat) returns (cid: nat)
      ensures cid == Pair(Pow2(kind.Layout().idBits), Window(), id, n)
    {
      PackedIsPair(kind.Layout(), id, n);
      cid := Packed(kind.Layout(), id, n);
    }

    method Masked(n: nat) returns (r: nat)
      ensures r == n % Window()
    {
      AndMask(n, kind.Layout().seqBits);
      r := And(n, Mask(kind.Layout().seqBits));
    }

    /** `operator[]` of the map, which inserts a zero without changing what any key stands for. */
    method At(k: nat) returns (n: nat)
      modifies this`seqs
      ensures k in seqs && n == seqs[k]
      ensures forall j :: Entry(seqs, j) == Entry(old(seqs), j)
    {
      if k !in seqs {
        seqs := seqs[k := 0];
      }
      n := seqs[k];
    }

    method CurrentId(key: nat) returns (cid: nat)
      requires Valid()
      modifies this`seqs
      ensures Valid() && cid == IdAfter(kind.Layout(), history, key)
    {
      var n := At(key);
      assert n == Entry(seqs, key);
      PairMod(Pow2(kind.Layout().idBits), Window(), key, Since(history, key));
      cid := Pack(key, n);
    }

    /** `getConnectionId_impl`: by the communicator whatever the root, or by the root whatever the communicator. */
    method GetConnectionId(comm: nat, root: nat) returns (cid: nat)
      requires Valid()
      modifies this`seqs
      ensures Valid()
      ensures connid != 0xFFFF_FFFF ==> cid == connid
      ensures connid == 0xFFFF_FFFF && kind.ByComm? ==> cid == Pair(0x800, 0x800, comm, Since(history, comm))
      ensures connid == 0xFFFF_FFFF && kind.ByRank? ==> cid == Pair(0x80_0000, 0x200, root, Since(history, root))
    {
      if connid != NO_ID {
        return connid;
      }
      cid := CurrentId(SendKey(comm, root));
    }

    /** `getRecvConnectionId_impl`: what the root's sender uses, when asked with the root as the source. */
    method GetRecvConnectionId(comm: nat, src: nat) returns (cid: nat)
      requires Valid()
      modifies this`seqs
      ensures Valid()
      ensures connid != 0xFFFF_FFFF ==> cid == connid
      ensures connid == 0xFFFF_FFFF && kind.ByComm? ==> cid == Pair(0x800, 0x800, comm, Since(history, comm))
      ensures connid == 0xFFFF_FFFF && kind.ByRank? ==> cid == Pair(0x80_0000, 0x200, src, Since(history, src))
    {
      if connid != NO_ID {
        return connid;
      }
      cid := CurrentId(RecvKey(comm, src));
    }

    /** Asked about the same root, sender and receiver use the same id. */
    method BothSides(comm: nat, root: nat) returns (send: nat, recv: nat)
      requires Valid()
      modifies this`seqs
      ensures Valid() && send == recv
    {
      send := GetConnectionId(comm, root);
      recv := GetRecvConnectionId(comm, root);
    }

    /** `updateConnectionId`, which takes no notice of a fixed id. */
    method UpdateConnectionId(id: nat) returns (cid: nat)
      requires Valid()
      modifies this
      ensures Valid() && history == old(history) + [Update(id)]
      ensures kind.ByComm? ==> cid == Pair(0x800, 0x800, id, Since(history, id))
      ensures kind.ByRank? ==> cid == Pair(0x80_0000, 0x200, id, Since(history, id))
    {
      Advance(id);
      cid := CurrentId(id);
    }

    /** The first two lines of `updateConnectionId`. */
    method Advance(id: nat)
      requires Valid()
      modifies this
      ensures Valid() && history == old(history) + [Update(id)]
    {
      UpdateKeeps(Window(), seqs, history, id);
      var n := At(id);
      var r := Masked(n + 1);
      ghost var expected := old(seqs)[id := (Entry(old(seqs), id) + 1) % Window()];
      seqs := seqs[id := r];
      history := history + [Update(id)];
      assert forall j :: Entry(seqs, j) == Entry(expected, j);
    }

    /** `setSequence`, of the communicator manager only. */
    method Reset(comm: nat)
      requires Valid() && kind.ByComm?
      modifies this
      ensures Valid() && history == old(history) + [SetSequence(comm)]
    {
      SetKeeps(Window(), seqs, history, comm);
      seqs := seqs[comm := 0];
      history := history + [SetSequence(comm)];
    }
  }
}
