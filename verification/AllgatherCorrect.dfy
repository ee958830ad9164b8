/** What every action of the allgather protocol keeps, and what follows for whole runs. */
module AllgatherCorrect {
  import opened Cyclic
  import opened AllgatherSteps
  import opened AllgatherProtocol

  // ---------- the invariant ----------

  ghost predicate IsSent(s: State, r: nat, p: nat)
    requires r < |s.msgs| && p < |s.msgs[r]|
  {
    s.msgs[r][p].Posted? && s.msgs[r][p].sendDone
  }

  ghost predicate IsReceived(s: State, r: nat, p: nat)
    requires r < |s.msgs| && p < |s.msgs[r]|
  {
    s.msgs[r][p].Posted? && s.msgs[r][p].recvDone
  }

  ghost predicate IsAnnounced(s: State, r: nat, p: nat)
    requires r < |s.msgs| && p < |s.msgs[r]|
  {
    s.msgs[r][p].Posted? && s.msgs[r][p].announced
  }

  /** The lengths alone, which is all the invariant's clauses need to make sense. */
  ghost predicate Dims(g: Group, s: State) {
    && |s.started| == |s.execs| == |s.msgs| == g.n
    && forall r :: 0 <= r < g.n ==>
         && |s.execs[r].recvs| == |s.msgs[r]| == |g.dist|
         && |s.execs[r].tmp| == |s.execs[r].out| == g.n
  }

  /** Position `j` of member `d`'s staging buffer holds the block of the member `j` places on. */
  ghost predicate Holds(g: Group, s: State, d: nat, j: nat)
    requires g.Valid() && Dims(g, s) && d < g.n && j < g.n
  {
    s.execs[d].tmp[j] == g.blocks[Plus(g.n, d, j)]
  }

  /** The message of `r` in phase `p` carries the blocks `r`, `r + 1`, ... and lands behind `dist[p]`. */
  ghost predicate ContentOk(g: Group, s: State, r: nat, p: nat)
    requires g.Valid() && Dims(g, s) && r < g.n && p < |g.dist| && s.msgs[r][p].Posted?
  {
    var m := s.msgs[r][p];
    && m.dst == g.To(r, p)
    && |m.payload| == |m.written| == g.len[p]
    && (m.announced ==> m.slot == Slot(r, g.dist[p], g.len[p]))
    && (m.sendDone ==> forall i :: 0 <= i < g.len[p] ==> m.payload[i].Some?)
    && (m.recvDone ==> m.announced && forall i :: 0 <= i < g.len[p] ==> m.written[i])
    && (forall i :: 0 <= i < g.len[p] && m.payload[i].Some? ==> m.payload[i].value == g.blocks[Plus(g.n, r, i)])
    && (forall i :: 0 <= i < g.len[p] && m.written[i] ==> m.announced && Holds(g, s, m.dst, g.dist[p] + i))
  }

  /** Member `r` has posted exactly the phases up to its current one, and finished all before it. */
  ghost predicate MsgOk(g: Group, s: State, r: nat, p: nat)
    requires g.Valid() && Dims(g, s) && r < g.n && p < |g.dist|
  {
    && (s.msgs[r][p].Posted? <==> s.started[r] && p <= s.execs[r].curPhase)
    && (s.started[r] && p < s.execs[r].curPhase ==> IsSent(s, r, p))
    && (s.msgs[r][p].Posted? ==> ContentOk(g, s, r, p))
  }

  function Bit(b: bool): int { if b then 1 else 0 }

  /** The signed count of a phase's record: received minus sent. */
  ghost predicate RecvOk(g: Group, s: State, d: nat, p: nat)
    requires g.Valid() && Dims(g, s) && d < g.n && p < |g.dist|
  {
    var rv, f := s.execs[d].recvs[p], g.From(d, p);
    && (rv.configured <==> (s.started[d] && p <= s.execs[d].curPhase) || IsAnnounced(s, f, p))
    && rv.doneCount == Bit(IsReceived(s, f, p)) - Bit(IsSent(s, d, p))
    && (rv.configured && !IsSent(s, d, p) ==> rv.partnerCount == 1)
    && (s.started[d] && p < s.execs[d].curPhase ==> IsReceived(s, f, p))
  }

  ghost predicate RankBase(g: Group, s: State, r: nat)
    requires g.Valid() && Dims(g, s) && r < g.n
  {
    var e := s.execs[r];
    && e.curPhase <= |g.dist|
    && (!s.started[r] ==> e.curPhase == 0 && e.callbacks == 0)
    && (s.started[r] ==> Holds(g, s, r, 0))
    && (s.started[r] && e.curPhase < |g.dist| ==> e.callbacks == 0)
  }

  ghost predicate RankLive(g: Group, s: State, r: nat)
    requires g.Valid() && Dims(g, s) && r < g.n
  {
    var e := s.execs[r];
    s.started[r] ==>
      if e.curPhase < |g.dist| then
        && e.sendsLeft == Bit(!IsSent(s, r, e.curPhase))
        && !(IsSent(s, r, e.curPhase) && IsReceived(s, g.From(r, e.curPhase), e.curPhase))
      else
        e.out == g.blocks && e.callbacks == Bit(g.hasCallback)
  }

  ghost predicate Quiet(g: Group, s: State, r: nat)
    requires g.Valid() && Dims(g, s) && r < g.n
  {
    && s.execs[r].curPhase == 0
    && s.execs[r].callbacks == Bit(s.started[r])
    && (forall j :: 0 <= j < g.n ==> |s.execs[r].out[j]| == 0)
    && (forall p :: 0 <= p < |g.dist| ==> s.msgs[r][p] == Unposted)
  }

  ghost predicate Core(g: Group, s: State)
    requires g.Valid()
  {
    && Dims(g, s)
    && (forall r, p :: 0 <= r < g.n && 0 <= p < |g.dist| ==> MsgOk(g, s, r, p) && RecvOk(g, s, r, p))
    && (forall r :: 0 <= r < g.n ==> RankBase(g, s, r))
  }

  ghost predicate Inv(g: Group, s: State)
    requires g.Valid()
  {
    if g.Empty() then
      Dims(g, s) && forall r :: 0 <= r < g.n ==> Quiet(g, s, r)
    else
      Core(g, s) && forall r :: 0 <= r < g.n ==> RankLive(g, s, r)
  }

  // ---------- the schedule ----------

  /** The phase that brings position `j`. */
  ghost function PhaseOf(g: Group, j: nat, p: nat): (q: nat)
    requires g.Valid() && p <= |g.dist| && 1 <= j < g.Span(p)
    ensures q < p && g.dist[q] <= j < g.dist[q] + g.len[q]
  {
    if p > 0 && j >= g.dist[p - 1] then p - 1 else PhaseOf(g, j, p - 1)
  }

  lemma {:induction false} SpanMonotone(g: Group, p: nat, q: nat)
    requires g.Valid() && p <= q <= |g.dist|
    ensures g.Span(p) <= g.Span(q)
    decreases q - p
  {
    if p < q {
      SpanMonotone(g, p + 1, q);
    }
  }

  /** The phase invariant: before phase `p` a member holds the `Span(p)` blocks from its own on. */
  lemma PrefixHeld(g: Group, s: State, r: nat, j: nat)
    requires g.Valid() && Core(g, s) && r < g.n && s.started[r]
    requires s.execs[r].curPhase <= |g.dist| && j < g.Span(s.execs[r].curPhase)
    ensures j < g.n && Holds(g, s, r, j)
  {
    assert RankBase(g, s, r);
    SpanMonotone(g, s.execs[r].curPhase, |g.dist|);
    if j > 0 {
      var q := PhaseOf(g, j, s.execs[r].curPhase);
      var f := g.From(r, q);
      assert RecvOk(g, s, r, q) && MsgOk(g, s, f, q);
      assert s.msgs[f][q].written[j - g.dist[q]];
    }
  }

  // ---------- preservation, action by action ----------

  lemma InitInv(g: Group, s: State)
    requires g.Valid() && Init(g, s)
    ensures Inv(g, s)
  {
  }

  /** While a send is outstanding, its phase is the current one. */
  lemma OutstandingIsCurrent(g: Group, s: State, r: nat, p: nat)
    requires g.Valid() && Core(g, s) && r < g.n && p < |g.dist|
    requires s.msgs[r][p].Posted? && !s.msgs[r][p].sendDone
    ensures s.started[r] && p == s.execs[r].curPhase
  {
    assert MsgOk(g, s, r, p);
  }

  /** Nothing that was in place in `d`'s staging buffer behind position 0 is lost. */
  ghost predicate TmpKept(g: Group, s: State, s': State, d: nat)
    requires g.Valid() && Dims(g, s) && Dims(g, s') && d < g.n
  {
    forall j :: 1 <= j < g.n && Holds(g, s, d, j) ==> Holds(g, s', d, j)
  }

  ghost predicate SameClock(s: State, s': State, r: nat)
    requires r < |s.started| == |s.execs| && r < |s'.started| == |s'.execs|
  {
    s'.started[r] == s.started[r] && s'.execs[r].curPhase == s.execs[r].curPhase
  }

  lemma MsgFrame(g: Group, s: State, s': State, r: nat, p: nat)
    requires g.Valid() && Dims(g, s) && Dims(g, s') && r < g.n && p < |g.dist|
    requires MsgOk(g, s, r, p) && SameClock(s, s', r) && s'.msgs[r][p] == s.msgs[r][p]
    requires s.msgs[r][p].Posted? ==> TmpKept(g, s, s', g.To(r, p))
    ensures MsgOk(g, s', r, p)
  {
  }

  lemma RecvFrame(g: Group, s: State, s': State, d: nat, p: nat)
    requires g.Valid() && Dims(g, s) && Dims(g, s') && d < g.n && p < |g.dist|
    requires RecvOk(g, s, d, p) && SameClock(s, s', d) && s'.execs[d].recvs[p] == s.execs[d].recvs[p]
    requires IsSent(s', d, p) == IsSent(s, d, p)
    requires IsReceived(s', g.From(d, p), p) == IsReceived(s, g.From(d, p), p)
    requires IsAnnounced(s', g.From(d, p), p) == IsAnnounced(s, g.From(d, p), p)
    ensures RecvOk(g, s', d, p)
  {
  }

  /** Member `x` is untouched, except that its staging buffer may have gained blocks. */
  ghost predicate Calm(g: Group, s: State, s': State, x: nat)
    requires g.Valid() && Dims(g, s) && Dims(g, s') && x < g.n
  {
    && SameClock(s, s', x)
    && TmpKept(g, s, s', x)
    && (Holds(g, s, x, 0) ==> Holds(g, s', x, 0))
    && s'.execs[x].callbacks == s.execs[x].callbacks
    && s'.execs[x].out == s.execs[x].out
  }

  /** Only member `x` and the message of `r` in phase `p` are touched, and of `x` only record `p`. */
  ghost predicate Local(g: Group, s: State, s': State, r: nat, p: nat, x: nat)
    requires g.Valid() && Dims(g, s) && Dims(g, s') && r < g.n && p < |g.dist| && x < g.n
  {
    && (forall y :: 0 <= y < g.n ==> Calm(g, s, s', y))
    && (forall y :: 0 <= y < g.n && y != x ==> s'.execs[y].sendsLeft == s.execs[y].sendsLeft)
    && (forall y, q :: 0 <= y < g.n && 0 <= q < |g.dist| && (y, q) != (x, p) ==>
          s'.execs[y].recvs[q] == s.execs[y].recvs[q])
    && (forall y, q :: 0 <= y < g.n && 0 <= q < |g.dist| && (y, q) != (r, p) ==> s'.msgs[y][q] == s.msgs[y][q])
    && (x == r || IsSent(s', r, p) == IsSent(s, r, p))
    && (x != g.To(r, p) ==>
          IsReceived(s', r, p) == IsReceived(s, r, p) && IsAnnounced(s', r, p) == IsAnnounced(s, r, p))
  }

  lemma LocalRecv(g: Group, s: State, s': State, r: nat, p: nat, x: nat, y: nat, q: nat)
    requires g.Valid() && Dims(g, s) && Dims(g, s') && r < g.n && p < |g.dist| && x < g.n
    requires y < g.n && q < |g.dist| && (y, q) != (x, p)
    requires Local(g, s, s', r, p, x) && RecvOk(g, s, y, q)
    ensures RecvOk(g, s', y, q)
  {
    assert Calm(g, s, s', y);
    var f := g.From(y, q);
    assert q != p ==> s'.msgs[f][q] == s.msgs[f][q] && s'.msgs[y][q] == s.msgs[y][q];
    RecvFrame(g, s, s', y, q);
  }

  lemma LocalRank(g: Group, s: State, s': State, r: nat, p: nat, x: nat, y: nat)
    requires g.Valid() && Dims(g, s) && Dims(g, s') && r < g.n && p < |g.dist| && x < g.n && y < g.n
    requires Local(g, s, s', r, p, x) && RankBase(g, s, y)
    ensures RankBase(g, s', y)
    ensures y != x && RankLive(g, s, y) ==> RankLive(g, s', y)
  {
    assert Calm(g, s, s', y);
  }

  /** A local step keeps the invariant if it does so where it acts. */
  lemma LocalKeeps(g: Group, s: State, s': State, r: nat, p: nat, x: nat)
    requires g.Valid() && Core(g, s) && Dims(g, s') && r < g.n && p < |g.dist| && x < g.n
    requires Local(g, s, s', r, p, x) && MsgOk(g, s', r, p) && RecvOk(g, s', x, p)
    ensures Core(g, s')
    ensures forall y :: 0 <= y < g.n && y != x && RankLive(g, s, y) ==> RankLive(g, s', y)
  {
    forall y, q | 0 <= y < g.n && 0 <= q < |g.dist|
      ensures MsgOk(g, s', y, q) && RecvOk(g, s', y, q)
    {
      if (y, q) != (r, p) {
        assert Calm(g, s, s', y) && Calm(g, s, s', g.To(y, q));
        MsgFrame(g, s, s', y, q);
      }
      if (y, q) != (x, p) {
        LocalRecv(g, s, s', r, p, x, y, q);
      }
    }
    forall y | 0 <= y < g.n
      ensures RankBase(g, s', y) && (y != x && RankLive(g, s, y) ==> RankLive(g, s', y))
    {
      LocalRank(g, s, s', r, p, x, y);
    }
  }

  // --- the network reads the sender's buffer

  lemma CaptureLocal(g: Group, s: State, r: nat, p: nat, i: nat)
    requires g.Valid() && Shape(g, s) && Dims(g, s) && Enabled(g, s, Capture(r, p, i))
    ensures var s' := DoCapture(g, s, r, p, i);
            Dims(g, s') && Local(g, s, s', r, p, r) && s'.execs == s.execs
  {
  }

  lemma CaptureKeeps(g: Group, s: State, r: nat, p: nat, i: nat)
    requires g.Valid() && !g.Empty() && Shape(g, s) && Inv(g, s) && Enabled(g, s, Capture(r, p, i))
    ensures Inv(g, DoCapture(g, s, r, p, i))
  {
    var s' := DoCapture(g, s, r, p, i);
    CaptureLocal(g, s, r, p, i);
    OutstandingIsCurrent(g, s, r, p);
    assert MsgOk(g, s, r, p) && RecvOk(g, s, r, p) && RankLive(g, s, r);
    PrefixHeld(g, s, r, i);
    LocalKeeps(g, s, s', r, p, r);
  }

  // --- a block lands

  ghost predicate WriteDelta(g: Group, s: State, s': State, r: nat, p: nat, i: nat)
    requires g.Valid() && Dims(g, s) && r < g.n && p < |g.dist|
  {
    var d := g.To(r, p);
    && Dims(g, s') && Local(g, s, s', r, p, d)
    && s.msgs[r][p].Posted? && s.msgs[r][p].announced && !s.msgs[r][p].recvDone
    && i < |s.msgs[r][p].payload| == |s.msgs[r][p].written|
    && s'.msgs[r][p] == s.msgs[r][p].(written := s.msgs[r][p].written[i := true])
    && s'.execs[d] == s.execs[d].(tmp := s'.execs[d].tmp)
    && (ContentOk(g, s, r, p) ==> Holds(g, s', d, g.dist[p] + i))
  }

  lemma WriteActs(g: Group, s: State, r: nat, p: nat, i: nat)
    requires g.Valid() && Shape(g, s) && Dims(g, s) && Enabled(g, s, Write(r, p, i)) && ContentOk(g, s, r, p)
    ensures WriteDelta(g, s, DoWrite(g, s, r, p, i), r, p, i)
  {
    var s', d := DoWrite(g, s, r, p, i), g.To(r, p);
    assert Holds(g, s', d, g.dist[p] + i);
    forall j | 0 <= j < g.n && Holds(g, s, d, j)
      ensures Holds(g, s', d, j)
    {
    }
  }

  lemma WriteOk(g: Group, s: State, s': State, r: nat, p: nat, i: nat)
    requires g.Valid() && Dims(g, s) && r < g.n && p < |g.dist|
    requires MsgOk(g, s, r, p) && WriteDelta(g, s, s', r, p, i)
    ensures MsgOk(g, s', r, p)
  {
    assert Calm(g, s, s', r) && Calm(g, s, s', g.To(r, p));
  }

  lemma WriteKeeps(g: Group, s: State, s': State, r: nat, p: nat, i: nat)
    requires g.Valid() && !g.Empty() && Inv(g, s) && r < g.n && p < |g.dist| && WriteDelta(g, s, s', r, p, i)
    ensures Inv(g, s')
  {
    var d := g.To(r, p);
    WriteOk(g, s, s', r, p, i);
    assert Calm(g, s, s', d);
    RecvFrame(g, s, s', d, p);
    LocalKeeps(g, s, s', r, p, d);
    assert RankLive(g, s, d);
  }

  // --- a header arrives

  ghost predicate AnnounceDelta(g: Group, s: State, s': State, r: nat, p: nat)
    requires g.Valid() && Dims(g, s) && r < g.n && p < |g.dist|
  {
    var d := g.To(r, p);
    && Dims(g, s') && Local(g, s, s', r, p, d)
    && s.msgs[r][p].Posted? && !s.msgs[r][p].announced
    && s'.msgs[r][p] == s.msgs[r][p].(announced := true, slot := Slot(r, g.dist[p], g.len[p]))
    && s'.execs[d] == s.execs[d].(recvs := s.execs[d].recvs[p := s'.execs[d].recvs[p]])
    && s'.execs[d].recvs[p] ==
       if s.execs[d].recvs[p].configured then s.execs[d].recvs[p]
       else s.execs[d].recvs[p].(configured := true, partnerCount := 1, slots := [Slot(r, g.dist[p], g.len[p])])
  }

  /** The receiver's answer to a header: where the data goes, and the record it set up if it had none. */
  lemma AnnounceAnswer(g: Group, e: Exec, r: nat, p: nat)
    requires g.Valid() && r < g.n && p < |g.dist| && WellFormed(g.Member(g.To(r, p)), e)
    ensures var d, slot := g.To(r, p), Slot(r, g.dist[p], g.len[p]);
            var (e', i) := NotifyRecv(g.Member(d), e, r, p);
            && i < |e'.recvs[p].slots| && e'.recvs[p].slots[i] == slot
            && e' == e.(recvs := e.recvs[p := e'.recvs[p]])
            && e'.recvs[p] == if e.recvs[p].configured then e.recvs[p]
                              else e.recvs[p].(configured := true, partnerCount := 1, slots := [slot])
  {
    assert g.Member(g.To(r, p)).SlotsOf(p) == [Slot(r, g.dist[p], g.len[p])];
  }

  lemma AnnounceActs(g: Group, s: State, r: nat, p: nat)
    requires g.Valid() && Shape(g, s) && Dims(g, s) && Enabled(g, s, Announce(r, p)) && s.msgs[r][p].dst == g.To(r, p)
    ensures AnnounceDelta(g, s, DoAnnounce(g, s, r, p), r, p)
  {
    var s', d := DoAnnounce(g, s, r, p), g.To(r, p);
    AnnounceAnswer(g, s.execs[d], r, p);
    forall y | 0 <= y < g.n ensures Calm(g, s, s', y) {
    }
  }

  lemma AnnounceOk(g: Group, s: State, s': State, r: nat, p: nat)
    requires g.Valid() && Dims(g, s) && r < g.n && p < |g.dist|
    requires MsgOk(g, s, r, p) && RecvOk(g, s, g.To(r, p), p) && AnnounceDelta(g, s, s', r, p)
    ensures MsgOk(g, s', r, p) && RecvOk(g, s', g.To(r, p), p)
  {
    assert Calm(g, s, s', r) && Calm(g, s, s', g.To(r, p));
  }

  lemma AnnounceKeeps(g: Group, s: State, s': State, r: nat, p: nat)
    requires g.Valid() && !g.Empty() && Inv(g, s) && r < g.n && p < |g.dist| && AnnounceDelta(g, s, s', r, p)
    ensures Inv(g, s')
  {
    var d := g.To(r, p);
    AnnounceOk(g, s, s', r, p);
    LocalKeeps(g, s, s', r, p, d);
    assert RankLive(g, s, d) && Calm(g, s, s', d);
  }

  // --- completions that do not end a phase, and those that do

  /**
    A completion has been noted but the phase has not been left yet: everything holds except that
    member `d` may have both halves of its current phase behind it.
   */
  ghost predicate Noted(g: Group, s: State, d: nat)
    requires g.Valid()
  {
    && Core(g, s) && d < g.n && s.started[d] && s.execs[d].curPhase < |g.dist|
    && forall y :: 0 <= y < g.n && y != d ==> RankLive(g, s, y)
  }

  ghost predicate PhaseOver(g: Group, s: State, d: nat)
    requires g.Valid() && Dims(g, s) && d < g.n && s.execs[d].curPhase < |g.dist|
  {
    var p := s.execs[d].curPhase;
    IsSent(s, d, p) && IsReceived(s, g.From(d, p), p)
  }

  /** The state in which `d`'s send of phase `p` is noted as done. */
  ghost function NoteSend(g: Group, s: State, d: nat, p: nat): State
    requires g.Valid() && Dims(g, s) && d < g.n && p < |g.dist| && s.msgs[d][p].Posted?
  {
    var e := s.execs[d];
    var rv := e.recvs[p].(doneCount := e.recvs[p].doneCount - 1);
    var s1 := s.(execs := s.execs[d := e.(sendsLeft := 0, recvs := e.recvs[p := rv])]);
    SetMsg(s1, d, p, s.msgs[d][p].(sendDone := true))
  }

  /** The state in which the receiver of `r`'s phase-`p` message has noted it as complete. */
  ghost function NoteRecv(g: Group, s: State, r: nat, p: nat): State
    requires g.Valid() && Dims(g, s) && r < g.n && p < |g.dist| && s.msgs[r][p].Posted?
  {
    var d := g.To(r, p);
    var e := s.execs[d];
    var rv := e.recvs[p].(doneCount := e.recvs[p].doneCount + 1);
    SetMsg(s.(execs := s.execs[d := e.(recvs := e.recvs[p := rv])]), r, p, s.msgs[r][p].(recvDone := true))
  }

  ghost predicate AllCaptured(m: Msg) {
    m.Posted? && forall i :: 0 <= i < |m.payload| ==> m.payload[i].Some?
  }

  ghost predicate AllWritten(m: Msg) {
    m.Posted? && forall i :: 0 <= i < |m.written| ==> m.written[i]
  }

  lemma NoteSendLocal(g: Group, s: State, d: nat, p: nat)
    requires g.Valid() && Dims(g, s) && d < g.n && p < |g.dist| && s.msgs[d][p].Posted?
    ensures Dims(g, NoteSend(g, s, d, p)) && Local(g, s, NoteSend(g, s, d, p), d, p, d)
  {
    forall y | 0 <= y < g.n ensures Calm(g, s, NoteSend(g, s, d, p), y) {
    }
  }

  lemma NoteSendOk(g: Group, s: State, d: nat, p: nat)
    requires g.Valid() && Dims(g, s) && d < g.n && p < |g.dist| && AllCaptured(s.msgs[d][p]) && !s.msgs[d][p].sendDone
    requires MsgOk(g, s, d, p) && RecvOk(g, s, d, p)
    ensures var s' := NoteSend(g, s, d, p); Dims(g, s') && MsgOk(g, s', d, p) && RecvOk(g, s', d, p)
  {
  }

  lemma NoteSendKeeps(g: Group, s: State, d: nat, p: nat)
    requires g.Valid() && !g.Empty() && Inv(g, s) && d < g.n && p < |g.dist|
    requires AllCaptured(s.msgs[d][p]) && !s.msgs[d][p].sendDone
    ensures p == s.execs[d].curPhase && Noted(g, NoteSend(g, s, d, p), d)
    ensures !PhaseOver(g, NoteSend(g, s, d, p), d) ==> Inv(g, NoteSend(g, s, d, p))
  {
    var s' := NoteSend(g, s, d, p);
    OutstandingIsCurrent(g, s, d, p);
    assert MsgOk(g, s, d, p) && RecvOk(g, s, d, p) && RankLive(g, s, d);
    NoteSendLocal(g, s, d, p);
    NoteSendOk(g, s, d, p);
    LocalKeeps(g, s, s', d, p, d);
  }

  lemma NoteRecvLocal(g: Group, s: State, r: nat, p: nat)
    requires g.Valid() && Dims(g, s) && r < g.n && p < |g.dist| && s.msgs[r][p].Posted?
    ensures var s', d := NoteRecv(g, s, r, p), g.To(r, p);
            Dims(g, s') && Local(g, s, s', r, p, d)
  {
    var s', d := NoteRecv(g, s, r, p), g.To(r, p);
    forall y | 0 <= y < g.n ensures Calm(g, s, s', y) {
    }
  }

  lemma NoteRecvMsg(g: Group, s: State, r: nat, p: nat)
    requires g.Valid() && Dims(g, s) && r < g.n && p < |g.dist|
    requires AllWritten(s.msgs[r][p]) && s.msgs[r][p].announced && MsgOk(g, s, r, p)
    ensures Dims(g, NoteRecv(g, s, r, p)) && MsgOk(g, NoteRecv(g, s, r, p), r, p)
  {
  }

  lemma NoteRecvRecord(g: Group, s: State, r: nat, p: nat)
    requires g.Valid() && Dims(g, s) && r < g.n && p < |g.dist|
    requires s.msgs[r][p].Posted? && !s.msgs[r][p].recvDone && RecvOk(g, s, g.To(r, p), p)
    ensures Dims(g, NoteRecv(g, s, r, p)) && RecvOk(g, NoteRecv(g, s, r, p), g.To(r, p), p)
  {
  }

  /** The receiver `d` has its send of phase `p` behind it and was waiting for this message only. */
  ghost predicate WaitingFor(g: Group, s: State, d: nat, p: nat)
    requires g.Valid() && Dims(g, s) && d < g.n && p < |g.dist|
  {
    s.started[d] && p == s.execs[d].curPhase && IsSent(s, d, p)
  }

  lemma NoteRecvLive(g: Group, s: State, r: nat, p: nat)
    requires g.Valid() && Dims(g, s) && r < g.n && p < |g.dist| && s.msgs[r][p].Posted? && !s.msgs[r][p].recvDone
    requires RankLive(g, s, g.To(r, p)) && !WaitingFor(g, s, g.To(r, p), p)
    ensures Dims(g, NoteRecv(g, s, r, p)) && RankLive(g, NoteRecv(g, s, r, p), g.To(r, p))
  {
  }

  lemma NoteRecvKeeps(g: Group, s: State, r: nat, p: nat)
    requires g.Valid() && !g.Empty() && Inv(g, s) && r < g.n && p < |g.dist|
    requires AllWritten(s.msgs[r][p]) && s.msgs[r][p].announced && !s.msgs[r][p].recvDone
    ensures var s', d := NoteRecv(g, s, r, p), g.To(r, p);
            if WaitingFor(g, s, d, p) then Noted(g, s', d) && PhaseOver(g, s', d) else Inv(g, s')
  {
    var s', d := NoteRecv(g, s, r, p), g.To(r, p);
    assert MsgOk(g, s, r, p) && RecvOk(g, s, d, p) && RankLive(g, s, d);
    NoteRecvLocal(g, s, r, p);
    NoteRecvMsg(g, s, r, p);
    NoteRecvRecord(g, s, r, p);
    LocalKeeps(g, s, s', r, p, d);
    if !WaitingFor(g, s, d, p) {
      NoteRecvLive(g, s, r, p);
    }
  }

  // --- entering a phase

  /**
    Member `d` is about to call `sendNext`: its phase counter already names the phase it enters,
    but it has not posted that phase's message nor, unless an early header did, set up its record.
   */
  ghost predicate AtGate(g: Group, s: State, d: nat)
    requires g.Valid()
  {
    && Dims(g, s) && d < g.n && s.started[d] && s.execs[d].curPhase <= |g.dist|
    && Holds(g, s, d, 0) && s.execs[d].callbacks == 0
    && (forall y, q :: 0 <= y < g.n && 0 <= q < |g.dist| && (y, q) != (d, s.execs[d].curPhase) ==>
          MsgOk(g, s, y, q) && RecvOk(g, s, y, q))
    && (forall y :: 0 <= y < g.n && y != d ==> RankBase(g, s, y) && RankLive(g, s, y))
    && (s.execs[d].curPhase < |g.dist| ==> GateRecord(g, s, d))
  }

  ghost predicate GateRecord(g: Group, s: State, d: nat)
    requires g.Valid() && Dims(g, s) && d < g.n && s.execs[d].curPhase < |g.dist|
  {
    var p := s.execs[d].curPhase;
    var rv, f := s.execs[d].recvs[p], g.From(d, p);
    && s.msgs[d][p] == Unposted
    && (rv.configured <==> IsAnnounced(s, f, p))
    && rv.doneCount == Bit(IsReceived(s, f, p))
    && (rv.configured ==> rv.partnerCount == 1)
  }

  /** What `sendNext` does to a member at the gate of a phase. */
  ghost predicate EnterDelta(g: Group, s: State, s': State, d: nat)
    requires g.Valid() && Dims(g, s) && d < g.n && s.execs[d].curPhase < |g.dist|
  {
    var p := s.execs[d].curPhase;
    && Dims(g, s') && s'.started == s.started
    && (forall y :: 0 <= y < g.n && y != d ==> s'.execs[y] == s.execs[y])
    && (forall y, q :: 0 <= y < g.n && 0 <= q < |g.dist| && (y, q) != (d, p) ==> s'.msgs[y][q] == s.msgs[y][q])
    && s'.msgs[d][p] == Fresh(Post(g.To(d, p), p, g.len[p]))
    && s'.execs[d] == s.execs[d].(sendsLeft := 1, recvs := s.execs[d].recvs[p := s'.execs[d].recvs[p]])
    && s'.execs[d].recvs[p].configured
    && s'.execs[d].recvs[p].doneCount == s.execs[d].recvs[p].doneCount
    && (s.execs[d].recvs[p].configured ==> s'.execs[d].recvs[p] == s.execs[d].recvs[p])
    && (!s.execs[d].recvs[p].configured ==> s'.execs[d].recvs[p].partnerCount == 1)
  }

  lemma EnterActs(g: Group, s: State, d: nat)
    requires g.Valid() && Shape(g, s) && Dims(g, s) && d < g.n && s.execs[d].curPhase < |g.dist|
    ensures var res, p := SendNext(g.Member(d), s.execs[d]), s.execs[d].curPhase;
            && |res.1| == 1 && res.1[0] == Post(g.To(d, p), p, g.len[p])
            && EnterDelta(g, s, Put(g, s, d, res), d)
  {
  }

  lemma EnterMsg(g: Group, s: State, s': State, d: nat, y: nat, q: nat)
    requires g.Valid() && AtGate(g, s, d) && s.execs[d].curPhase < |g.dist| && EnterDelta(g, s, s', d)
    requires y < g.n && q < |g.dist|
    ensures MsgOk(g, s', y, q) && RecvOk(g, s', y, q)
  {
    var p := s.execs[d].curPhase;
    if (y, q) != (d, p) {
      assert MsgOk(g, s, y, q) && RecvOk(g, s, y, q);
      MsgFrame(g, s, s', y, q);
      RecvFrame(g, s, s', y, q);
    }
  }

  lemma EnterKeeps(g: Group, s: State, s': State, d: nat)
    requires g.Valid() && !g.Empty() && AtGate(g, s, d) && s.execs[d].curPhase < |g.dist| && EnterDelta(g, s, s', d)
    ensures Inv(g, s')
  {
    forall y, q | 0 <= y < g.n && 0 <= q < |g.dist|
      ensures MsgOk(g, s', y, q) && RecvOk(g, s', y, q)
    {
      EnterMsg(g, s, s', d, y, q);
    }
    forall y | 0 <= y < g.n
      ensures RankBase(g, s', y) && RankLive(g, s', y)
    {
      assert y != d ==> RankBase(g, s, y) && RankLive(g, s, y);
    }
  }

  /** After the last phase the whole staging buffer is in place, and unrotating it is the result. */
  lemma FinishResult(g: Group, s: State, d: nat)
    requires g.Valid() && Dims(g, s) && d < g.n
    requires forall j :: 0 <= j < g.n ==> Holds(g, s, d, j)
    ensures Unrotated(d, s.execs[d].tmp) == g.blocks
  {
    forall k | 0 <= k < g.n
      ensures Unrotated(d, s.execs[d].tmp)[k] == g.blocks[k]
    {
      var j := Minus(g.n, k, d);
      assert Holds(g, s, d, j) && Plus(g.n, d, j) == k;
    }
  }

  /** `d` has delivered; nothing else has changed. */
  ghost predicate Delivered(g: Group, s: State, s': State, d: nat)
    requires g.Valid() && Dims(g, s) && d < g.n
  {
    s' == s.(execs := s.execs[d := Fired(g.Member(d), s.execs[d].(out := Unrotated(d, s.execs[d].tmp)))])
  }

  lemma DeliveredMsg(g: Group, s: State, s': State, d: nat, y: nat, q: nat)
    requires g.Valid() && Dims(g, s) && d < g.n && Delivered(g, s, s', d)
    requires y < g.n && q < |g.dist| && MsgOk(g, s, y, q) && RecvOk(g, s, y, q)
    ensures Dims(g, s') && MsgOk(g, s', y, q) && RecvOk(g, s', y, q)
  {
    MsgFrame(g, s, s', y, q);
    RecvFrame(g, s, s', y, q);
  }

  lemma DeliveredRank(g: Group, s: State, s': State, d: nat, y: nat)
    requires g.Valid() && Dims(g, s) && Dims(g, s') && d < g.n && Delivered(g, s, s', d)
    requires y < g.n && y != d && RankBase(g, s, y) && RankLive(g, s, y)
    ensures RankBase(g, s', y) && RankLive(g, s', y)
  {
  }

  lemma FinishKeeps(g: Group, s: State, s': State, d: nat)
    requires g.Valid() && !g.Empty() && AtGate(g, s, d) && s.execs[d].curPhase == |g.dist| && Delivered(g, s, s', d)
    ensures Inv(g, s')
  {
    assert RankBase(g, s, d);
    forall j | 0 <= j < g.n
      ensures Holds(g, s, d, j)
    {
      PrefixHeld(g, s, d, j);
    }
    FinishResult(g, s, d);
    forall y, q | 0 <= y < g.n && 0 <= q < |g.dist|
      ensures Dims(g, s') && MsgOk(g, s', y, q) && RecvOk(g, s', y, q)
    {
      DeliveredMsg(g, s, s', d, y, q);
    }
    forall y | 0 <= y < g.n && y != d
      ensures RankBase(g, s', y) && RankLive(g, s', y)
    {
      DeliveredRank(g, s, s', d, y);
    }
  }

  /** `sendNext` keeps the invariant for a member at the gate of a phase, or past the last one. */
  lemma SendNextKeeps(g: Group, s: State, d: nat)
    requires g.Valid() && !g.Empty() && Shape(g, s) && AtGate(g, s, d)
    ensures var res := SendNext(g.Member(d), s.execs[d]);
            && |res.1| <= 1 && (res.1 != [] ==> res.1[0].phase < |g.dist| && res.1[0].dst < g.n)
            && Inv(g, Put(g, s, d, res))
  {
    if s.execs[d].curPhase < |g.dist| {
      EnterActs(g, s, d);
      EnterKeeps(g, s, Put(g, s, d, SendNext(g.Member(d), s.execs[d])), d);
    } else {
      FinishKeeps(g, s, Put(g, s, d, SendNext(g.Member(d), s.execs[d])), d);
    }
  }

  /** `s'` is `s` with `d` moved on to its next phase; the old phase's partner count is dead. */
  ghost predicate Moved(g: Group, s: State, s': State, d: nat)
    requires g.Valid() && Dims(g, s) && d < g.n && s.execs[d].curPhase < |g.dist|
  {
    var p, e := s.execs[d].curPhase, s.execs[d];
    && Dims(g, s')
    && s' == s.(execs := s.execs[d := s'.execs[d]])
    && s'.execs[d] == e.(curPhase := p + 1, sendsLeft := 0, recvs := e.recvs[p := s'.execs[d].recvs[p]])
    && s'.execs[d].recvs[p] == e.recvs[p].(partnerCount := s'.execs[d].recvs[p].partnerCount)
  }

  lemma MovedOther(g: Group, s: State, s': State, d: nat, y: nat, q: nat)
    requires g.Valid() && Dims(g, s) && d < g.n && s.execs[d].curPhase < |g.dist| && Moved(g, s, s', d)
    requires y < g.n && q < |g.dist| && y != d && MsgOk(g, s, y, q) && RecvOk(g, s, y, q)
    ensures MsgOk(g, s', y, q) && RecvOk(g, s', y, q)
  {
    MsgFrame(g, s, s', y, q);
    RecvFrame(g, s, s', y, q);
  }

  lemma MovedOwn(g: Group, s: State, s': State, d: nat, q: nat)
    requires g.Valid() && Dims(g, s) && d < g.n && s.started[d] && s.execs[d].curPhase < |g.dist| && PhaseOver(g, s, d)
    requires Moved(g, s, s', d) && q < |g.dist| && q != s.execs[d].curPhase + 1
    requires MsgOk(g, s, d, q) && RecvOk(g, s, d, q)
    ensures MsgOk(g, s', d, q) && RecvOk(g, s', d, q)
  {
  }

  lemma MovedAtGate(g: Group, s: State, s': State, d: nat)
    requires g.Valid() && Noted(g, s, d) && PhaseOver(g, s, d) && Moved(g, s, s', d)
    ensures AtGate(g, s', d)
  {
    assert RankBase(g, s, d);
    forall y, q | 0 <= y < g.n && 0 <= q < |g.dist| && (y, q) != (d, s'.execs[d].curPhase)
      ensures MsgOk(g, s', y, q) && RecvOk(g, s', y, q)
    {
      assert MsgOk(g, s, y, q) && RecvOk(g, s, y, q);
      if y == d {
        MovedOwn(g, s, s', d, q);
      } else {
        MovedOther(g, s, s', d, y, q);
      }
    }
    forall y | 0 <= y < g.n && y != d
      ensures RankBase(g, s', y) && RankLive(g, s', y)
    {
      assert RankBase(g, s, y) && RankLive(g, s, y);
    }
    if s'.execs[d].curPhase < |g.dist| {
      assert MsgOk(g, s, d, s'.execs[d].curPhase) && RecvOk(g, s, d, s'.execs[d].curPhase);
    }
  }

  // --- the completion handlers

  /** `s` with member `d` in state `e`. */
  ghost function With(s: State, d: nat, e: Exec): State
    requires d < |s.execs|
  {
    s.(execs := s.execs[d := e])
  }

  /** Put depends on `d`'s old state in no way. */
  lemma PutOver(g: Group, s: State, d: nat, e: Exec, res: (Exec, seq<Post>))
    requires g.Valid() && Shape(g, s) && d < g.n && WellFormed(g.Member(d), e) && WellFormed(g.Member(d), res.0)
    requires |res.1| <= 1 && (res.1 != [] ==> res.1[0].phase < |g.dist| && res.1[0].dst < g.n)
    ensures Shape(g, With(s, d, e)) && Put(g, s, d, res) == Put(g, With(s, d, e), d, res)
  {
    assert s.execs[d := e][d := res.0] == s.execs[d := res.0];
  }

  /** The state in which the phase `d` just left has been counted, and `d` is at the next gate. */
  ghost function Leave(c: Config, e: Exec, partners: nat): Exec
    requires WellFormed(c, e) && e.curPhase < |c.sources|
  {
    var p := e.curPhase;
    e.(recvs := e.recvs[p := e.recvs[p].(partnerCount := partners)], curPhase := p + 1, sendsLeft := 0)
  }

  /** The executor after its only send of the phase is counted. */
  ghost function SendCounted(e: Exec, p: nat): Exec
    requires p < |e.recvs|
  {
    e.(sendsLeft := 0, recvs := e.recvs[p := e.recvs[p].(doneCount := e.recvs[p].doneCount - 1)])
  }

  /** `notifySendDone` for a member whose only send of the phase just finished. */
  lemma ExecSendDone(c: Config, e: Exec)
    requires WellFormed(c, e) && e.curPhase < |c.sources|
    requires e.sendsLeft == 1 && e.recvs[e.curPhase].partnerCount == 1
    ensures var e1 := SendCounted(e, e.curPhase);
            && WellFormed(c, e1) && WellFormed(c, Leave(c, e1, 0))
            && NotifySendDone(c, e) ==
               if e1.recvs[e.curPhase].doneCount != 0 then (e1, []) else SendNext(c, Leave(c, e1, 0))
  {
    var e1 := SendCounted(e, e.curPhase);
    var rv := e1.recvs[e.curPhase].(partnerCount := 0);
    assert e.recvs[e.curPhase := rv] == e1.recvs[e.curPhase := rv];
  }

  /** `notifyRecvDone` on the record of `phase`. */
  lemma ExecRecvDone(c: Config, e: Exec, phase: nat)
    requires WellFormed(c, e) && phase < |c.sources| && (e.recvs[phase].doneCount == -1 ==> phase == e.curPhase)
    ensures var rv := e.recvs[phase].(doneCount := e.recvs[phase].doneCount + 1);
            var e1 := e.(recvs := e.recvs[phase := rv]);
            && WellFormed(c, e1)
            && (rv.doneCount == 0 ==> WellFormed(c, Leave(c, e1, rv.partnerCount)))
            && NotifyRecvDone(c, e, phase) ==
               if rv.doneCount != 0 then (e1, []) else SendNext(c, Leave(c, e1, rv.partnerCount))
  {
    var rv := e.recvs[phase].(doneCount := e.recvs[phase].doneCount + 1);
    assert e.recvs[phase := rv][phase := rv] == e.recvs[phase := rv];
  }

  /** Leaving a phase that is over keeps the invariant, whatever the dead partner count is set to. */
  lemma LeaveKeeps(g: Group, s: State, d: nat, partners: nat)
    requires g.Valid() && !g.Empty() && Shape(g, s) && Noted(g, s, d) && PhaseOver(g, s, d)
    requires WellFormed(g.Member(d), Leave(g.Member(d), s.execs[d], partners))
    ensures var res := SendNext(g.Member(d), Leave(g.Member(d), s.execs[d], partners));
            && |res.1| <= 1 && (res.1 != [] ==> res.1[0].phase < |g.dist| && res.1[0].dst < g.n)
            && Inv(g, Put(g, s, d, res))
  {
    var l := Leave(g.Member(d), s.execs[d], partners);
    var gate := With(s, d, l);
    assert Moved(g, s, gate, d);
    MovedAtGate(g, s, gate, d);
    SendNextKeeps(g, gate, d);
    PutOver(g, s, d, l, SendNext(g.Member(d), l));
  }

  lemma SendDoneActs(g: Group, s: State, r: nat, p: nat)
    requires g.Valid() && Shape(g, s) && Dims(g, s) && Enabled(g, s, SendDone(r, p))
    requires p == s.execs[r].curPhase && s.execs[r].sendsLeft == 1 && s.execs[r].recvs[p].partnerCount == 1
    ensures var s1 := NoteSend(g, s, r, p);
            && Shape(g, s1)
            && DoSendDone(g, s, r, p) == Put(g, s1, r, NotifySendDone(g.Member(r), s.execs[r]))
  {
    ExecSendDone(g.Member(r), s.execs[r]);
    var s0 := SetMsg(s, r, p, s.msgs[r][p].(sendDone := true));
    PutOver(g, s0, r, SendCounted(s.execs[r], p), NotifySendDone(g.Member(r), s.execs[r]));
  }

  /** Before the completion exactly one send is counted; after it, zero means that the phase is over. */
  lemma SendDoneCounts(g: Group, s: State, r: nat, p: nat)
    requires g.Valid() && !g.Empty() && Inv(g, s) && r < g.n && p < |g.dist|
    requires AllCaptured(s.msgs[r][p]) && !s.msgs[r][p].sendDone
    ensures p == s.execs[r].curPhase && s.execs[r].sendsLeft == 1 && s.execs[r].recvs[p].partnerCount == 1
    ensures var s1 := NoteSend(g, s, r, p);
            Dims(g, s1) && (s1.execs[r].recvs[p].doneCount == 0 <==> PhaseOver(g, s1, r))
  {
    OutstandingIsCurrent(g, s, r, p);
    assert MsgOk(g, s, r, p) && RecvOk(g, s, r, p) && RankLive(g, s, r);
  }

  lemma SendDoneKeeps(g: Group, s: State, r: nat, p: nat)
    requires g.Valid() && !g.Empty() && Shape(g, s) && Inv(g, s) && Enabled(g, s, SendDone(r, p))
    ensures Inv(g, DoSendDone(g, s, r, p))
  {
    var s1 := NoteSend(g, s, r, p);
    NoteSendKeeps(g, s, r, p);
    SendDoneCounts(g, s, r, p);
    SendDoneActs(g, s, r, p);
    ExecSendDone(g.Member(r), s.execs[r]);
    if PhaseOver(g, s1, r) {
      LeaveKeeps(g, s1, r, 0);
    }
  }

  lemma RecvDoneActs(g: Group, s: State, r: nat, p: nat)
    requires g.Valid() && Shape(g, s) && Dims(g, s) && Enabled(g, s, RecvDone(r, p)) && s.msgs[r][p].dst == g.To(r, p)
    requires var e := s.execs[g.To(r, p)]; e.recvs[p].doneCount == -1 ==> p == e.curPhase
    ensures var s1, d := NoteRecv(g, s, r, p), g.To(r, p);
            && Shape(g, s1)
            && if s.execs[d].recvs[p].doneCount != -1 then DoRecvDone(g, s, r, p) == s1
               else
                 var l := Leave(g.Member(d), s1.execs[d], s1.execs[d].recvs[p].partnerCount);
                 WellFormed(g.Member(d), l) && DoRecvDone(g, s, r, p) == Put(g, s1, d, SendNext(g.Member(d), l))
  {
    var d := g.To(r, p);
    ExecRecvDone(g.Member(d), s.execs[d], p);
    var s0 := SetMsg(s, r, p, s.msgs[r][p].(recvDone := true));
    var s1 := NoteRecv(g, s, r, p);
    PutOver(g, s0, d, s1.execs[d], NotifyRecvDone(g.Member(d), s.execs[d], p));
    assert s1 == With(s0, d, s1.execs[d]);
  }

  /** A record counts -1 only for the current phase, with its send done: no early message advances. */
  lemma NegativeOnlyWaiting(g: Group, s: State, d: nat, p: nat)
    requires g.Valid() && Core(g, s) && d < g.n && p < |g.dist| && !IsReceived(s, g.From(d, p), p)
    ensures s.execs[d].recvs[p].doneCount == -1 <==> WaitingFor(g, s, d, p)
    ensures s.execs[d].recvs[p].doneCount == 0 <==> !WaitingFor(g, s, d, p)
  {
    assert MsgOk(g, s, d, p) && RecvOk(g, s, d, p);
  }

  lemma RecvDoneKeeps(g: Group, s: State, r: nat, p: nat)
    requires g.Valid() && !g.Empty() && Shape(g, s) && Inv(g, s) && Enabled(g, s, RecvDone(r, p))
    ensures Inv(g, DoRecvDone(g, s, r, p))
  {
    var d := g.To(r, p);
    assert MsgOk(g, s, r, p);
    NegativeOnlyWaiting(g, s, d, p);
    NoteRecvKeeps(g, s, r, p);
    RecvDoneActs(g, s, r, p);
    if WaitingFor(g, s, d, p) {
      var s1 := NoteRecv(g, s, r, p);
      LeaveKeeps(g, s1, d, s1.execs[d].recvs[p].partnerCount);
    }
  }

  // --- starting

  ghost function StartGate(g: Group, s: State, r: nat): State
    requires g.Valid() && Dims(g, s) && r < g.n
  {
    var e := s.execs[r];
    s.(started := s.started[r := true],
       execs := s.execs[r := e.(tmp := e.tmp[0 := g.blocks[r]], curPhase := 0, sendsLeft := 0)])
  }

  lemma StartMsg(g: Group, s: State, r: nat, y: nat, q: nat)
    requires g.Valid() && Core(g, s) && r < g.n && !s.started[r]
    requires y < g.n && q < |g.dist| && (y, q) != (r, 0)
    ensures var s' := StartGate(g, s, r); Dims(g, s') && MsgOk(g, s', y, q) && RecvOk(g, s', y, q)
  {
    var s' := StartGate(g, s, r);
    assert MsgOk(g, s, y, q) && RecvOk(g, s, y, q) && RankBase(g, s, r);
    if y != r {
      MsgFrame(g, s, s', y, q);
      RecvFrame(g, s, s', y, q);
    }
  }

  lemma StartAtGate(g: Group, s: State, r: nat)
    requires g.Valid() && !g.Empty() && Inv(g, s) && r < g.n && !s.started[r]
    ensures AtGate(g, StartGate(g, s, r), r)
  {
    var s' := StartGate(g, s, r);
    assert RankBase(g, s, r);
    forall y, q | 0 <= y < g.n && 0 <= q < |g.dist| && (y, q) != (r, 0)
      ensures MsgOk(g, s', y, q) && RecvOk(g, s', y, q)
    {
      StartMsg(g, s, r, y, q);
    }
    forall y | 0 <= y < g.n && y != r
      ensures RankBase(g, s', y) && RankLive(g, s', y)
    {
      assert RankBase(g, s, y) && RankLive(g, s, y);
    }
    if 0 < |g.dist| {
      assert MsgOk(g, s, r, 0) && RecvOk(g, s, r, 0);
    }
  }

  lemma StartKeeps(g: Group, s: State, r: nat)
    requires g.Valid() && !g.Empty() && Shape(g, s) && Inv(g, s) && Enabled(g, s, Start(r))
    ensures Inv(g, DoStart(g, s, r))
  {
    var gate := StartGate(g, s, r);
    StartAtGate(g, s, r);
    assert Shape(g, gate);
    SendNextKeeps(g, gate, r);
    PutOver(g, s.(started := s.started[r := true]), r, gate.execs[r], SendNext(g.Member(r), gate.execs[r]));
  }

  // --- the empty gather

  lemma EmptyKeeps(g: Group, s: State, a: Action)
    requires g.Valid() && g.Empty() && Shape(g, s) && Inv(g, s) && Enabled(g, s, a)
    ensures a.Start? && Inv(g, Do(g, s, a))
  {
    assert Quiet(g, s, a.r);
    forall r | 0 <= r < g.n
      ensures Quiet(g, Do(g, s, a), r)
    {
      assert Quiet(g, s, r);
    }
  }

  // ---------- what holds of every run ----------

  /** Every action keeps the invariant. */
  lemma StepKeeps(g: Group, s: State, a: Action)
    requires g.Valid() && Shape(g, s) && Inv(g, s) && Enabled(g, s, a)
    ensures Inv(g, Do(g, s, a))
  {
    if g.Empty() {
      EmptyKeeps(g, s, a);
    } else {
      match a
      case Start(r) => StartKeeps(g, s, r);
      case Capture(r, p, i) => CaptureKeeps(g, s, r, p, i);
      case SendDone(r, p) => SendDoneKeeps(g, s, r, p);
      case Announce(r, p) => AnnounceStep(g, s, r, p);
      case Write(r, p, i) => WriteStep(g, s, r, p, i);
      case RecvDone(r, p) => RecvDoneKeeps(g, s, r, p);
    }
  }

  lemma AnnounceStep(g: Group, s: State, r: nat, p: nat)
    requires g.Valid() && !g.Empty() && Shape(g, s) && Inv(g, s) && Enabled(g, s, Announce(r, p))
    ensures Inv(g, DoAnnounce(g, s, r, p))
  {
    assert MsgOk(g, s, r, p);
    AnnounceActs(g, s, r, p);
    AnnounceKeeps(g, s, DoAnnounce(g, s, r, p), r, p);
  }

  lemma WriteStep(g: Group, s: State, r: nat, p: nat, i: nat)
    requires g.Valid() && !g.Empty() && Shape(g, s) && Inv(g, s) && Enabled(g, s, Write(r, p, i))
    ensures Inv(g, DoWrite(g, s, r, p, i))
  {
    assert MsgOk(g, s, r, p);
    WriteActs(g, s, r, p, i);
    WriteKeeps(g, s, DoWrite(g, s, r, p, i), r, p, i);
  }

  lemma {:induction false} RunKeeps(g: Group, s: State, acts: seq<Action>, s': State)
    requires g.Valid() && Shape(g, s) && Inv(g, s) && Run(g, s, acts, s')
    ensures Shape(g, s') && Inv(g, s')
    decreases |acts|
  {
    if acts != [] {
      StepKeeps(g, s, acts[0]);
      RunKeeps(g, Do(g, s, acts[0]), acts[1..], s');
    }
  }
}
