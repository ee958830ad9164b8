/**
  One member's allgather executor: the phase counter, the per-phase receive records with their
  signed completion count, and the staging buffer that is rotated into place at the end.

  These functions say, on values, what each entry point of the executor does; the class in
  AllgatherExecutor carries them out in place and is proved to do exactly what they say.
 */
module AllgatherSteps {
  import opened Cyclic

  /** The `_buflen` bytes one member contributes. */
  type Block = seq<bv8>

  /** A partner in one phase of the schedule, and the number of blocks its message carries. */
  datatype Source = Source(rank: nat, len: nat)

  /** Where a message of `len` blocks from `rank` is received: `_tmpbuf + offset * _buflen`. */
  datatype Slot = Slot(rank: nat, offset: nat, len: nat)

  /** `PhaseRecvStr`; `configured` stands for `exec != NULL`. */
  datatype PhaseRecv = PhaseRecv(configured: bool, doneCount: int, partnerCount: nat, slots: seq<Slot>)

  /** A message handed to `multicast`: the first `len` blocks of the staging buffer. */
  datatype Post = Post(dst: nat, phase: nat, len: nat)

  /**
    What does not change during a run: the group's size, the member's index, the sources of every
    phase, the block contributed, and whether a completion callback is set.
   */
  datatype Config = Config(n: nat, me: nat, sources: seq<seq<Source>>, block: Block, hasCallback: bool)
  {
    ghost predicate Valid() {
      && me < n
      && (forall p :: 0 <= p < |sources| ==> |sources[p]| >= 1)
      && forall p, i :: 0 <= p < |sources| && 0 <= i < |sources[p]| ==> sources[p][i].rank < n
    }

    /** The distance from this member to `rank`, going right. */
    function Distance(rank: nat): (d: nat)
      requires me < n && rank < n
      ensures d < n && Plus(n, me, d) == rank
    {
      ModOfSum(rank + n - me, n);
      (rank + n - me) % n
    }

    /** The member that is as far to the left as `rank` is to the right. */
    function Opposite(rank: nat): (d: nat)
      requires me < n && rank < n
      ensures d == Minus(n, me, Distance(rank))
    {
      ModOfSum(me + n - Distance(rank), n);
      (me + n - Distance(rank)) % n
    }

    function SlotFor(s: Source): Slot
      requires me < n && s.rank < n
    {
      Slot(s.rank, Distance(s.rank), s.len)
    }

    function SlotsOf(p: nat): (r: seq<Slot>)
      requires Valid() && p < |sources|
      ensures |r| == |sources[p]|
    {
      seq(|sources[p]|, i requires 0 <= i < |sources[p]| => SlotFor(sources[p][i]))
    }

    function PostsOf(p: nat): (r: seq<Post>)
      requires Valid() && p < |sources|
      ensures |r| == |sources[p]|
    {
      seq(|sources[p]|, i requires 0 <= i < |sources[p]| => Post(Opposite(sources[p][i].rank), p, sources[p][i].len))
    }
  }

  /** The executor's mutable state. */
  datatype Exec = Exec(
    curPhase: nat,
    sendsLeft: int,          // _donecount
    recvs: seq<PhaseRecv>,   // _mrecvstr
    tmp: seq<Block>,         // _tmpbuf, block by block
    out: seq<Block>,         // _rbuf, block by block
    callbacks: nat           // how often _cb_done was called
  )

  ghost predicate WellFormedRecv(c: Config, rv: PhaseRecv, p: nat)
    requires c.Valid() && p < |c.sources|
  {
    rv.configured ==> rv.slots == c.SlotsOf(p) && rv.partnerCount <= |rv.slots|
  }

  ghost predicate WellFormed(c: Config, e: Exec) {
    && c.Valid()
    && |e.recvs| == |c.sources|
    && |e.tmp| == |e.out| == c.n
    && forall p :: 0 <= p < |e.recvs| ==> WellFormedRecv(c, e.recvs[p], p)
  }

  /** The final layout: `tmp[k]` belongs to the member `k` places to the right of `me`. */
  function Unrotated(me: nat, tmp: seq<Block>): (r: seq<Block>)
    requires me < |tmp|
    ensures |r| == |tmp|
    ensures forall k :: 0 <= k < |tmp| ==> r[Plus(|tmp|, me, k)] == tmp[k]
  {
    var r := tmp[|tmp| - me..] + tmp[..|tmp| - me];
    assert forall k :: 0 <= k < |tmp| ==> r[Plus(|tmp|, me, k)] == tmp[k];
    r
  }

  function Fired(c: Config, e: Exec): Exec {
    if c.hasCallback then e.(callbacks := e.callbacks + 1) else e
  }

  function Configured(c: Config, e: Exec, p: nat, partners: nat): Exec
    requires c.Valid() && p < |e.recvs| == |c.sources|
  {
    e.(recvs := e.recvs[p := e.recvs[p].(configured := true, partnerCount := partners, slots := c.SlotsOf(p))])
  }

  /** `sendNext`: post this phase's messages or, after the last phase, deliver the result. */
  function SendNext(c: Config, e: Exec): (r: (Exec, seq<Post>))
    requires WellFormed(c, e)
    ensures WellFormed(c, r.0)
  {
    var p := e.curPhase;
    if p < |c.sources| then
      var e' := if e.recvs[p].configured then e else Configured(c, e, p, |c.sources[p]|);
      (e'.(sendsLeft := |c.sources[p]|), c.PostsOf(p))
    else
      (Fired(c, e.(out := Unrotated(c.me, e.tmp))), [])
  }

  /** `start`: an empty gather is done at once; otherwise the own block goes first. */
  function Start(c: Config, e: Exec): (r: (Exec, seq<Post>))
    requires WellFormed(c, e)
    ensures WellFormed(c, r.0)
  {
    if |c.block| == 0 && c.hasCallback then
      (Fired(c, e), [])
    else
      SendNext(c, e.(tmp := e.tmp[0 := c.block], curPhase := 0, sendsLeft := 0))
  }

  /** A start sends nothing exactly when there are no phases, or no data and someone to tell so. */
  lemma StartsSilently(c: Config, e: Exec)
    requires WellFormed(c, e)
    ensures Start(c, e).1 == [] <==> |c.sources| == 0 || (|c.block| == 0 && c.hasCallback)
    ensures Start(c, e).0.callbacks == e.callbacks + (if Start(c, e).1 == [] && c.hasCallback then 1 else 0)
  {
  }

  /** The transition both completion handlers make when a phase is over. */
  function NextPhase(c: Config, e: Exec): (r: (Exec, seq<Post>))
    requires WellFormed(c, e)
    ensures WellFormed(c, r.0)
  {
    SendNext(c, e.(curPhase := e.curPhase + 1, sendsLeft := 0))
  }

  /** `notifySendDone` */
  function NotifySendDone(c: Config, e: Exec): (r: (Exec, seq<Post>))
    requires WellFormed(c, e) && e.curPhase < |c.sources|
    ensures WellFormed(c, r.0)
  {
    var e1 := e.(sendsLeft := e.sendsLeft - 1);
    if e1.sendsLeft != 0 then (e1, []) else
    var rv := e1.recvs[e1.curPhase];
    var rv' := rv.(doneCount := rv.doneCount - rv.partnerCount);
    if rv'.doneCount != 0 then (e1.(recvs := e1.recvs[e1.curPhase := rv']), [])
    else NextPhase(c, e1.(recvs := e1.recvs[e1.curPhase := rv'.(partnerCount := 0)]))
  }

  /** `notifyRecvDone`; the cookie is the record of `phase` */
  function NotifyRecvDone(c: Config, e: Exec, phase: nat): (r: (Exec, seq<Post>))
    requires WellFormed(c, e) && phase < |c.sources|
    ensures WellFormed(c, r.0)
  {
    var rv := e.recvs[phase].(doneCount := e.recvs[phase].doneCount + 1);
    var e1 := e.(recvs := e.recvs[phase := rv]);
    if rv.doneCount != 0 then (e1, []) else NextPhase(c, e1)
  }

  /** The last slot of `slots` that belongs to `src`, or 0. */
  function LastOf(slots: seq<Slot>, src: nat): (i: nat)
    ensures slots != [] ==> i < |slots|
  {
    if slots == [] then 0
    else if slots[|slots| - 1].rank == src then |slots| - 1
    else LastOf(slots[..|slots| - 1], src)
  }

  /** The first of `slots[i..k]` that belongs to `src`, or 0. */
  function FirstOf(slots: seq<Slot>, i: nat, k: nat, src: nat): (r: nat)
    requires i <= k <= |slots|
    ensures slots != [] ==> r < |slots|
    decreases k - i
  {
    if i == k then 0 else if slots[i].rank == src then i else FirstOf(slots, i + 1, k, src)
  }

  /**
    `notifyRecv`: the header of a message from `src` for `phase` arrived. The record is set up if
    this is the first the executor hears of the phase; the answer is where the data goes.
   */
  function NotifyRecv(c: Config, e: Exec, src: nat, phase: nat): (r: (Exec, nat))
    requires WellFormed(c, e) && phase < |c.sources|
    ensures WellFormed(c, r.0) && r.0.recvs[phase].configured && r.1 < |r.0.recvs[phase].slots|
  {
    if !e.recvs[phase].configured then
      (Configured(c, e, phase, 1), LastOf(c.SlotsOf(phase), src))
    else
      (e, FirstOf(e.recvs[phase].slots, 0, e.recvs[phase].partnerCount, src))
  }
}
