/** The allgather's guarantees, for every group, every schedule that meets the contract and every run. */
module AllgatherTheorems {
  import opened Cyclic
  import opened AllgatherSteps
  import opened AllgatherSchedule
  import opened AllgatherProtocol
  import opened AllgatherCorrect
  import opened AllgatherProgress

  /** A state some run from some initial state leads to. */
  ghost predicate Reachable(g: Group, s: State)
    requires g.Valid()
  {
    Shape(g, s) && exists s0, acts :: Init(g, s0) && Run(g, s0, acts, s)
  }

  lemma ReachableInv(g: Group, s: State)
    requires g.Valid() && Reachable(g, s)
    ensures Inv(g, s) && Dims(g, s)
  {
    var s0, acts :| Init(g, s0) && Run(g, s0, acts, s);
    InitInv(g, s0);
    RunKeeps(g, s0, acts, s);
  }

  /**
    Correctness: a member that has finished holds block `j` of member `j` at position `j`, for every
    `j`, and its callback fired exactly once; before that its callback has not fired.
   */
  lemma GathersEverything(g: Group, s: State, r: nat)
    requires g.Valid() && Reachable(g, s) && r < g.n
    ensures Dims(g, s)
    ensures Finished(g, s, r) ==> s.execs[r].out == g.blocks && s.execs[r].callbacks == Bit(g.hasCallback)
    ensures !Finished(g, s, r) ==> s.execs[r].callbacks == 0
  {
    ReachableInv(g, s);
    if g.Empty() {
      assert Quiet(g, s, r);
      assert forall j :: 0 <= j < g.n ==> s.execs[r].out[j] == g.blocks[j] == [];
    } else {
      assert RankBase(g, s, r) && RankLive(g, s, r);
    }
  }

  /** Blocks of one length, at least one. */
  ghost predicate Even(blocks: seq<Block>, blockLen: nat) {
    |blocks| >= 1 && forall j :: 0 <= j < |blocks| ==> |blocks[j]| == blockLen
  }

  /** The group as the shipped binomial schedule sets it up. */
  ghost function BinomialGroup(blocks: seq<Block>, blockLen: nat, hasCallback: bool): (g: Group)
    requires Even(blocks, blockLen)
    ensures g.Valid() && g.n == |blocks| && g.blocks == blocks && g.hasCallback == hasCallback
  {
    BinomialMeetsContract(|blocks|);
    Group(|blocks|, Reversed(Spans(|blocks|)), Reversed(Subsizes(|blocks|)), blocks, blockLen, hasCallback)
  }

  /**
    An executor's configuration, read off a schedule's arrays: phase `p` takes the right list of
    broadcast phase `nphases - p - 1`.
   */
  function Scheduled(me: nat, t: TreeSchedule, blocks: seq<Block>, hasCallback: bool): Config
    requires me < |blocks| && |t.partners| == |t.subsizes|
  {
    var n := |t.partners|;
    Config(|blocks|, me, seq(n, p requires 0 <= p < n => [Source(t.partners[n - p - 1], t.subsizes[n - p - 1])]),
           blocks[me], hasCallback)
  }

  /** What `BinomialInit` computes on member `me` configures its executor as that member of the group. */
  lemma BinomialMember(me: nat, t: TreeSchedule, blocks: seq<Block>, blockLen: nat, hasCallback: bool)
    requires Even(blocks, blockLen) && me < |blocks| && Filled(me, |blocks|, t, |Spans(|blocks|)|)
    ensures Scheduled(me, t, blocks, hasCallback) == BinomialGroup(blocks, blockLen, hasCallback).Member(me)
  {
    var c, g := Scheduled(me, t, blocks, hasCallback), BinomialGroup(blocks, blockLen, hasCallback);
    forall p | 0 <= p < |t.partners| ensures c.sources[p] == g.Member(me).sources[p] {
      BinomialRightList(me, |blocks|, t, p);
    }
    assert c.sources == g.Member(me).sources;
  }

  /** The binomial allgather needs no assumption on the schedule: any number of equally long blocks will do. */
  lemma BinomialGathersEverything(blocks: seq<Block>, blockLen: nat, hasCallback: bool, s: State, r: nat)
    requires Even(blocks, blockLen) && Reachable(BinomialGroup(blocks, blockLen, hasCallback), s) && r < |blocks|
    ensures var g := BinomialGroup(blocks, blockLen, hasCallback);
            && Dims(g, s)
            && (Finished(g, s, r) ==> s.execs[r].out == blocks && s.execs[r].callbacks == Bit(hasCallback))
            && (!Finished(g, s, r) ==> s.execs[r].callbacks == 0)
  {
    GathersEverything(BinomialGroup(blocks, blockLen, hasCallback), s, r);
  }

  /**
    Accounting: a step leaves a member's phase alone or advances it by one; it advances only on
    the completion of that phase's send or receive, when both are then done.
   */
  lemma AdvancesOnBoth(g: Group, s: State, a: Action, d: nat)
    requires g.Valid() && !g.Empty() && Reachable(g, s) && Enabled(g, s, a) && d < g.n && s.started[d]
    ensures Dims(g, s) && Dims(g, Do(g, s, a))
    ensures var s', p := Do(g, s, a), s.execs[d].curPhase;
            && p <= s'.execs[d].curPhase <= p + 1
            && (s'.execs[d].curPhase == p + 1 ==>
                  && p < |g.dist|
                  && IsSent(s', d, p) && IsReceived(s', g.From(d, p), p)
                  && (a == SendDone(d, p) || a == RecvDone(g.From(d, p), p)))
  {
    ReachableInv(g, s);
    StepKeeps(g, s, a);
    StepEvolves(g, s, a);
    AdvanceByFlags(g, s, Do(g, s, a), a, d);
  }

  lemma FlagsAt(g: Group, s: State, s': State, a: Action, r: nat, p: nat)
    requires g.Valid() && Dims(g, s) && Dims(g, s') && Evolves(g, s, s', a) && r < g.n && p < |g.dist|
    ensures s.msgs[r][p].Posted? ==> s'.msgs[r][p].Posted?
    ensures IsSent(s, r, p) ==> IsSent(s', r, p)
    ensures IsReceived(s, r, p) ==> IsReceived(s', r, p)
    ensures IsSent(s', r, p) && !IsSent(s, r, p) ==> a == SendDone(r, p)
    ensures IsReceived(s', r, p) && !IsReceived(s, r, p) ==> a == RecvDone(r, p)
  {
    assert if About(a, r, p) then Acted(a, s.msgs[r][p], s'.msgs[r][p]) else Bystander(s.msgs[r][p], s'.msgs[r][p]);
  }

  lemma NoRetreat(g: Group, s: State, s': State, a: Action, d: nat)
    requires g.Valid() && !g.Empty() && Inv(g, s) && Inv(g, s') && Evolves(g, s, s', a) && d < g.n && s.started[d]
    ensures s.execs[d].curPhase <= s'.execs[d].curPhase <= |g.dist| && s'.started[d]
  {
    var p := s.execs[d].curPhase;
    assert RankBase(g, s, d) && RankBase(g, s', d) && RankLive(g, s', d);
    if p > 0 {
      var f := g.From(d, p - 1);
      assert MsgOk(g, s, d, p - 1) && RecvOk(g, s, d, p - 1) && MsgOk(g, s', d, p - 1);
      FlagsAt(g, s, s', a, d, p - 1);
      FlagsAt(g, s, s', a, f, p - 1);
    }
    if p < |g.dist| {
      assert MsgOk(g, s, d, p) && MsgOk(g, s', d, p);
      FlagsAt(g, s, s', a, d, p);
    }
  }

  lemma AdvanceByFlags(g: Group, s: State, s': State, a: Action, d: nat)
    requires g.Valid() && !g.Empty() && Inv(g, s) && Inv(g, s') && Evolves(g, s, s', a) && d < g.n && s.started[d]
    ensures var p := s.execs[d].curPhase;
            && p <= s'.execs[d].curPhase <= p + 1
            && (s'.execs[d].curPhase == p + 1 ==>
                  && p < |g.dist|
                  && IsSent(s', d, p) && IsReceived(s', g.From(d, p), p)
                  && (a == SendDone(d, p) || a == RecvDone(g.From(d, p), p)))
  {
    var p, p' := s.execs[d].curPhase, s'.execs[d].curPhase;
    NoRetreat(g, s, s', a, d);
    if p < p' {
      assert MsgOk(g, s', d, p) && RecvOk(g, s', d, p) && RankLive(g, s, d);
      FlagsAt(g, s, s', a, d, p);
      FlagsAt(g, s, s', a, g.From(d, p), p);
      if p + 1 < |g.dist| {
        assert MsgOk(g, s', d, p + 1) && MsgOk(g, s, d, p + 1);
        FlagsAt(g, s, s', a, d, p + 1);
      }
    }
  }

  /**
    The signed count of a phase is negative only for the current phase, once its send is done and
    while its receive is not; and a record not yet set up counts zero, as the code asserts.
   */
  lemma NegativeOnlyForCurrent(g: Group, s: State, d: nat, p: nat)
    requires g.Valid() && !g.Empty() && Reachable(g, s) && d < g.n && p < |g.dist|
    ensures Dims(g, s)
    ensures s.execs[d].recvs[p].doneCount < 0 <==>
            s.started[d] && p == s.execs[d].curPhase && IsSent(s, d, p) && !IsReceived(s, g.From(d, p), p)
    ensures !s.execs[d].recvs[p].configured ==> s.execs[d].recvs[p].doneCount == 0
  {
    ReachableInv(g, s);
    var f := g.From(d, p);
    assert MsgOk(g, s, d, p) && MsgOk(g, s, f, p) && RecvOk(g, s, d, p);
  }

  /** While `r`'s send of phase `p` is outstanding, `r` holds what it is sending. */
  lemma OutstandingContent(g: Group, s: State, r: nat, p: nat)
    requires g.Valid() && !g.Empty() && Reachable(g, s) && r < g.n && p < |g.dist|
    requires s.msgs[r][p].Posted? && !s.msgs[r][p].sendDone
    ensures |s.execs[r].tmp| == g.n
    ensures forall i :: 0 <= i < g.len[p] ==> s.execs[r].tmp[i] == g.blocks[Plus(g.n, r, i)]
  {
    ReachableInv(g, s);
    OutstandingIsCurrent(g, s, r, p);
    forall i | 0 <= i < g.len[p]
      ensures s.execs[r].tmp[i] == g.blocks[Plus(g.n, r, i)]
    {
      PrefixHeld(g, s, r, i);
    }
  }

  /**
    In-flight stability: whenever a send is outstanding, the blocks being sent are the same, whatever
    else has arrived; so it does not matter when, or how often, the network reads them.
   */
  lemma StableWhileOutstanding(g: Group, s: State, s': State, r: nat, p: nat)
    requires g.Valid() && !g.Empty() && Reachable(g, s) && Reachable(g, s') && r < g.n && p < |g.dist|
    requires s.msgs[r][p].Posted? && !s.msgs[r][p].sendDone
    requires s'.msgs[r][p].Posted? && !s'.msgs[r][p].sendDone
    ensures g.len[p] <= |s.execs[r].tmp| == |s'.execs[r].tmp|
    ensures s.execs[r].tmp[..g.len[p]] == s'.execs[r].tmp[..g.len[p]]
  {
    OutstandingContent(g, s, r, p);
    OutstandingContent(g, s', r, p);
    SamePrefix(s.execs[r].tmp, s'.execs[r].tmp, g.len[p]);
  }

  lemma SamePrefix(t: seq<Block>, t': seq<Block>, k: nat)
    requires k <= |t| == |t'| && forall i :: 0 <= i < k ==> t[i] == t'[i]
    ensures t[..k] == t'[..k]
  {
  }

  /** And no arriving block is even written there: receives aim inside the buffer and behind the prefix. */
  lemma WritesBehindOutstanding(g: Group, s: State, f: nat, q: nat, i: nat, p: nat)
    requires g.Valid() && !g.Empty() && Reachable(g, s) && Enabled(g, s, Write(f, q, i)) && p < |g.dist|
    ensures var m := s.msgs[f][q];
            && m.slot.offset + i < g.n
            && (s.msgs[m.dst][p].Posted? && !s.msgs[m.dst][p].sendDone ==> g.len[p] <= m.slot.offset)
  {
    ReachableInv(g, s);
    var m := s.msgs[f][q];
    assert MsgOk(g, s, f, q) && RecvOk(g, s, m.dst, q) && g.From(m.dst, q) == f;
    if s.msgs[m.dst][p].Posted? && !s.msgs[m.dst][p].sendDone {
      OutstandingIsCurrent(g, s, m.dst, p);
      SpanMonotone(g, p, q);
    }
  }

  /**
    Progress: in every reachable state with an unfinished member some action is enabled that was
    not taken before; only a bounded number of actions can be new; and a finishing continuation
    exists from everywhere.
   */
  lemma NeverStuck(g: Group, s: State) returns (a: Action)
    requires g.Valid() && Reachable(g, s) && Dims(g, s) && !AllFinished(g, s)
    ensures Enabled(g, s, a) && !Happened(g, s, a)
  {
    ReachableInv(g, s);
    a := Progress(g, s);
  }

  lemma BoundedNews(g: Group, s0: State, acts: seq<Action>, s: State)
    requires g.Valid() && Init(g, s0) && Run(g, s0, acts, s)
    ensures News(g, s0, acts) <= |Universe(g)|
  {
    InitInv(g, s0);
    NewsBounded(g, s0, acts, s);
  }

  lemma AlwaysCanFinish(g: Group, s: State) returns (acts: seq<Action>, s': State)
    requires g.Valid() && Reachable(g, s)
    ensures Run(g, s, acts, s') && Dims(g, s') && AllFinished(g, s')
  {
    ReachableInv(g, s);
    acts, s' := CanFinish(g, s);
  }

  /** Every group has a state to begin with. */
  ghost function Beginning(g: Group): (s: State)
    requires g.Valid()
    ensures Init(g, s)
  {
    var junk := seq(g.n, _ => seq(g.blockLen, _ => 0));
    var e := Exec(0, 0, seq(|g.dist|, _ => PhaseRecv(false, 0, 0, [])), junk, junk, 0);
    State(seq(g.n, _ => false), seq(g.n, _ => e), seq(g.n, _ => seq(|g.dist|, _ => Unposted)))
  }

  /** From every such state, whatever the buffers hold, some run gathers everything everywhere. */
  lemma EveryGroupGathers(g: Group, s0: State) returns (acts: seq<Action>, s: State)
    requires g.Valid() && Init(g, s0)
    ensures Run(g, s0, acts, s) && Dims(g, s) && AllFinished(g, s)
    ensures forall r :: 0 <= r < g.n ==> s.execs[r].out == g.blocks
  {
    assert Run(g, s0, [], s0);
    acts, s := AlwaysCanFinish(g, s0);
    InitInv(g, s0);
    RunKeeps(g, s0, acts, s);
    forall r | 0 <= r < g.n ensures s.execs[r].out == g.blocks {
      GathersEverything(g, s, r);
    }
  }
}
