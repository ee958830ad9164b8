/** How the messages evolve from step to step, and why the allgather cannot get stuck. */
module AllgatherProgress {
  import opened Sets
  import opened AllgatherSteps
  import opened AllgatherProtocol
  import opened AllgatherCorrect

  // ---------- what one action does to the messages ----------

  /** The change `a` makes to the one message it is about. */
  ghost predicate Acted(a: Action, m: Msg, m': Msg) {
    && m.Posted?
    && match a
       case Start(_) => false
       case Capture(_, _, i) =>
         i < |m.payload| && exists b :: m' == m.(payload := m.payload[i := Some(b)])
       case SendDone(_, _) => m' == m.(sendDone := true)
       case Announce(_, _) => m'.Posted? && m' == m.(announced := true, slot := m'.slot)
       case Write(_, _, i) => i < |m.written| && m' == m.(written := m.written[i := true])
       case RecvDone(_, _) => m' == m.(recvDone := true)
  }

  /** Any other message is left alone, unless it is posted just now. */
  ghost predicate Bystander(m: Msg, m': Msg) {
    m' == m || (m.Unposted? && m'.Posted? && !m'.sendDone && !m'.announced && !m'.recvDone)
  }

  ghost predicate About(a: Action, r: nat, p: nat) {
    !a.Start? && a.r == r && a.p == p
  }

  ghost predicate Evolves(g: Group, s: State, s': State, a: Action)
    requires g.Valid() && Dims(g, s) && Dims(g, s')
  {
    && (forall r, p :: 0 <= r < g.n && 0 <= p < |g.dist| ==>
          if About(a, r, p) then Acted(a, s.msgs[r][p], s'.msgs[r][p]) else Bystander(s.msgs[r][p], s'.msgs[r][p]))
    && s'.started == if a.Start? && a.r < |s.started| then s.started[a.r := true] else s.started
  }

  /** A completed receive makes a member post its next phase or nothing. */
  lemma RecvDonePosts(g: Group, d: nat, e: Exec, p: nat)
    requires g.Valid() && d < g.n && WellFormed(g.Member(d), e) && p < |g.dist|
    ensures var posts := NotifyRecvDone(g.Member(d), e, p).1;
            |posts| <= 1 && (posts != [] ==> posts[0].phase == e.curPhase + 1 < |g.dist| && posts[0].dst < g.n)
  {
  }

  lemma PutMsgs(g: Group, s: State, d: nat, res: (Exec, seq<Post>))
    requires g.Valid() && Shape(g, s) && d < g.n && WellFormed(g.Member(d), res.0)
    requires |res.1| <= 1 && (res.1 != [] ==> res.1[0].phase < |g.dist| && res.1[0].dst < g.n)
    requires res.1 != [] ==> s.msgs[d][res.1[0].phase] == Unposted
    ensures var s' := Put(g, s, d, res);
            && s'.started == s.started
            && forall r, p :: 0 <= r < g.n && 0 <= p < |g.dist| ==> Bystander(s.msgs[r][p], s'.msgs[r][p])
  {
  }

  lemma StartEvolves(g: Group, s: State, r: nat)
    requires g.Valid() && Shape(g, s) && Dims(g, s) && Inv(g, s) && Enabled(g, s, Start(r))
    ensures Evolves(g, s, DoStart(g, s, r), Start(r))
  {
    if g.Empty() {
      assert Quiet(g, s, r);
    } else {
      assert RankBase(g, s, r) && (0 < |g.dist| ==> MsgOk(g, s, r, 0));
    }
    var s0 := s.(started := s.started[r := true]);
    PutMsgs(g, s0, r, AllgatherSteps.Start(g.Member(r), s.execs[r]));
  }

  lemma SendDoneEvolves(g: Group, s: State, r: nat, p: nat)
    requires g.Valid() && !g.Empty() && Shape(g, s) && Inv(g, s) && Enabled(g, s, SendDone(r, p))
    ensures Evolves(g, s, DoSendDone(g, s, r, p), SendDone(r, p))
  {
    OutstandingIsCurrent(g, s, r, p);
    assert p + 1 < |g.dist| ==> MsgOk(g, s, r, p + 1);
    var s0 := SetMsg(s, r, p, s.msgs[r][p].(sendDone := true));
    PutMsgs(g, s0, r, NotifySendDone(g.Member(r), s.execs[r]));
  }

  /** The change of one message, followed by posting at most one. */
  lemma PutEvolves(g: Group, s: State, a: Action, m: Msg, d: nat, res: (Exec, seq<Post>))
    requires g.Valid() && Shape(g, s) && Dims(g, s) && d < g.n && WellFormed(g.Member(d), res.0)
    requires !a.Start? && a.r < g.n && a.p < |g.dist| && Acted(a, s.msgs[a.r][a.p], m) && MsgShape(g, m)
    requires |res.1| <= 1 && (res.1 != [] ==> res.1[0].phase < |g.dist| && res.1[0].dst < g.n)
    requires res.1 != [] ==> s.msgs[d][res.1[0].phase] == Unposted
    ensures var s' := Put(g, SetMsg(s, a.r, a.p, m), d, res); Dims(g, s') && Evolves(g, s, s', a)
  {
    PutMsgs(g, SetMsg(s, a.r, a.p, m), d, res);
  }

  lemma RecvDoneEvolves(g: Group, s: State, r: nat, p: nat)
    requires g.Valid() && !g.Empty() && Shape(g, s) && Inv(g, s) && Enabled(g, s, RecvDone(r, p))
    ensures Evolves(g, s, DoRecvDone(g, s, r, p), RecvDone(r, p))
  {
    var d := s.msgs[r][p].dst;
    var q := s.execs[d].curPhase + 1;
    assert q < |g.dist| ==> MsgOk(g, s, d, q);
    RecvDonePosts(g, d, s.execs[d], p);
    PutEvolves(g, s, RecvDone(r, p), s.msgs[r][p].(recvDone := true), d, NotifyRecvDone(g.Member(d), s.execs[d], p));
  }

  /** The actions of the network alone touch one message. */
  lemma NetworkEvolves(g: Group, s: State, a: Action)
    requires g.Valid() && Shape(g, s) && Enabled(g, s, a) && (a.Capture? || a.Announce? || a.Write?)
    requires Dims(g, s) && Dims(g, Do(g, s, a)) && (a.Capture? ==> a.i < g.n)
    ensures Evolves(g, s, Do(g, s, a), a)
  {
  }

  /** Every action changes the message it is about as its name says, and no other but by posting. */
  lemma StepEvolves(g: Group, s: State, a: Action)
    requires g.Valid() && Shape(g, s) && Inv(g, s) && Enabled(g, s, a)
    ensures Dims(g, Do(g, s, a)) && Evolves(g, s, Do(g, s, a), a)
  {
    StepKeeps(g, s, a);
    if a.Start? {
      StartEvolves(g, s, a.r);
    } else if g.Empty() {
      EmptyKeeps(g, s, a);
    } else {
      match a
      case Capture(r, p, i) =>
        assert MsgOk(g, s, r, p);
        NetworkEvolves(g, s, a);
      case SendDone(r, p) => SendDoneEvolves(g, s, r, p);
      case Announce(r, p) => NetworkEvolves(g, s, a);
      case Write(r, p, i) => NetworkEvolves(g, s, a);
      case RecvDone(r, p) => RecvDoneEvolves(g, s, r, p);
    }
  }

  // ---------- what has happened so far ----------

  /** What `a` is for has already come about in the message it is about. */
  ghost predicate Marked(m: Msg, a: Action) {
    && m.Posted?
    && match a
       case Start(_) => false
       case Capture(_, _, i) => i < |m.payload| && m.payload[i].Some?
       case SendDone(_, _) => m.sendDone
       case Announce(_, _) => m.announced
       case Write(_, _, i) => i < |m.written| && m.written[i]
       case RecvDone(_, _) => m.recvDone
  }

  lemma MarkedStays(m: Msg, m': Msg, a: Action, b: Action)
    requires Marked(m, b) && (Acted(a, m, m') || Bystander(m, m'))
    ensures Marked(m', b)
  {
  }

  /** `a`, or an action with the same lasting effect, has been taken. */
  ghost predicate Happened(g: Group, s: State, a: Action)
    requires g.Valid() && Dims(g, s)
  {
    a.r < g.n && if a.Start? then s.started[a.r] else a.p < |g.dist| && Marked(s.msgs[a.r][a.p], a)
  }

  /** Nothing that happened is undone. */
  lemma HappenedStays(g: Group, s: State, a: Action, b: Action)
    requires g.Valid() && Shape(g, s) && Inv(g, s) && Enabled(g, s, a) && Happened(g, s, b)
    ensures Dims(g, Do(g, s, a)) && Happened(g, Do(g, s, a), b)
  {
    StepEvolves(g, s, a);
    if !b.Start? {
      MarkedStays(s.msgs[b.r][b.p], Do(g, s, a).msgs[b.r][b.p], a, b);
    }
  }

  lemma HappenedNow(g: Group, s: State, a: Action)
    requires g.Valid() && Shape(g, s) && Inv(g, s) && Enabled(g, s, a)
    ensures Dims(g, Do(g, s, a)) && Happened(g, Do(g, s, a), a)
  {
    StepEvolves(g, s, a);
    var s' := Do(g, s, a);
    if !a.Start? {
      assert About(a, a.r, a.p);
      assert Acted(a, s.msgs[a.r][a.p], s'.msgs[a.r][a.p]);
    }
  }

  /** All the actions a run can need. */
  ghost function Universe(g: Group): set<Action> {
    (set r | 0 <= r < g.n :: Start(r))
    + (set r, p, i | 0 <= r < g.n && 0 <= p < |g.dist| && 0 <= i < g.n :: Capture(r, p, i))
    + (set r, p, i | 0 <= r < g.n && 0 <= p < |g.dist| && 0 <= i < g.n :: Write(r, p, i))
    + (set r, p | 0 <= r < g.n && 0 <= p < |g.dist| :: SendDone(r, p))
    + (set r, p | 0 <= r < g.n && 0 <= p < |g.dist| :: Announce(r, p))
    + (set r, p | 0 <= r < g.n && 0 <= p < |g.dist| :: RecvDone(r, p))
  }

  ghost function History(g: Group, s: State): set<Action>
    requires g.Valid() && Dims(g, s)
  {
    set a | a in Universe(g) && Happened(g, s, a)
  }

  lemma InUniverse(g: Group, s: State, a: Action)
    requires g.Valid() && Shape(g, s) && Inv(g, s) && Enabled(g, s, a)
    ensures a in Universe(g)
  {
    if g.Empty() {
      EmptyKeeps(g, s, a);
    } else if !a.Start? {
      assert MsgOk(g, s, a.r, a.p);
    }
  }

  /** An action that brings something new makes the history grow. */
  lemma HistoryGrows(g: Group, s: State, a: Action)
    requires g.Valid() && Shape(g, s) && Inv(g, s) && Enabled(g, s, a)
    ensures Dims(g, Do(g, s, a))
    ensures History(g, s) <= History(g, Do(g, s, a)) <= Universe(g)
    ensures !Happened(g, s, a) ==> History(g, s) < History(g, Do(g, s, a))
  {
    HappenedNow(g, s, a);
    InUniverse(g, s, a);
    forall b | b in History(g, s)
      ensures b in History(g, Do(g, s, a))
    {
      HappenedStays(g, s, a, b);
    }
    assert !Happened(g, s, a) ==> a !in History(g, s) && a in History(g, Do(g, s, a));
  }

  // ---------- progress ----------

  ghost predicate Finished(g: Group, s: State, r: nat)
    requires g.Valid() && Dims(g, s) && r < g.n
  {
    s.started[r] && (g.Empty() || s.execs[r].curPhase >= |g.dist|)
  }

  ghost predicate AllFinished(g: Group, s: State)
    requires g.Valid() && Dims(g, s)
  {
    forall r :: 0 <= r < g.n ==> Finished(g, s, r)
  }

  /** A posted send that is not done can be read further or completed. */
  lemma SendMoves(g: Group, s: State, r: nat, p: nat) returns (a: Action)
    requires g.Valid() && Shape(g, s) && Core(g, s) && r < g.n && p < |g.dist|
    requires s.msgs[r][p].Posted? && !s.msgs[r][p].sendDone
    ensures Enabled(g, s, a) && !Happened(g, s, a)
  {
    var m := s.msgs[r][p];
    if i :| 0 <= i < |m.payload| && !m.payload[i].Some? {
      a := Capture(r, p, i);
    } else {
      a := SendDone(r, p);
    }
  }

  /** A message that has been sent can be announced, written further, or completed. */
  lemma RecvMoves(g: Group, s: State, r: nat, p: nat) returns (a: Action)
    requires g.Valid() && Shape(g, s) && Core(g, s) && r < g.n && p < |g.dist|
    requires IsSent(s, r, p) && !IsReceived(s, r, p)
    ensures Enabled(g, s, a) && !Happened(g, s, a)
  {
    var m := s.msgs[r][p];
    assert MsgOk(g, s, r, p);
    if !m.announced {
      a := Announce(r, p);
    } else if i :| 0 <= i < |m.written| && !m.written[i] {
      a := Write(r, p, i);
    } else {
      a := RecvDone(r, p);
    }
  }

  lemma {:induction false} Lowest(g: Group, s: State, k: nat) returns (r: nat)
    requires g.Valid() && Dims(g, s) && 1 <= k <= g.n
    ensures r < k && forall y :: 0 <= y < k ==> s.execs[r].curPhase <= s.execs[y].curPhase
  {
    if k == 1 {
      r := 0;
    } else {
      r := Lowest(g, s, k - 1);
      if s.execs[k - 1].curPhase < s.execs[r].curPhase {
        r := k - 1;
      }
    }
  }

  /**
    As long as some member has not finished, some action is enabled that has not been taken yet:
    a start or, for the member in the lowest phase, a step of its own message or of its source's.
   */
  lemma Progress(g: Group, s: State) returns (a: Action)
    requires g.Valid() && Shape(g, s) && Inv(g, s) && !AllFinished(g, s)
    ensures Enabled(g, s, a) && !Happened(g, s, a)
  {
    if r :| 0 <= r < g.n && !s.started[r] {
      a := Start(r);
    } else if g.Empty() {
      assert false;
    } else {
      var r := Lowest(g, s, g.n);
      var y :| 0 <= y < g.n && !Finished(g, s, y);
      var p := s.execs[r].curPhase;
      var f := g.From(r, p);
      assert MsgOk(g, s, r, p) && MsgOk(g, s, f, p) && RankLive(g, s, r);
      if !IsSent(s, r, p) {
        a := SendMoves(g, s, r, p);
      } else if !IsSent(s, f, p) {
        a := SendMoves(g, s, f, p);
      } else {
        a := RecvMoves(g, s, f, p);
      }
    }
  }

  /** The number of actions of a run that bring something new is bounded by the group's size alone. */
  ghost function News(g: Group, s: State, acts: seq<Action>): nat
    requires g.Valid() && Shape(g, s)
    decreases |acts|
  {
    if acts == [] || !Dims(g, s) || !Enabled(g, s, acts[0]) then 0
    else (if Happened(g, s, acts[0]) then 0 else 1) + News(g, Do(g, s, acts[0]), acts[1..])
  }

  lemma {:induction false} NewsBounded(g: Group, s: State, acts: seq<Action>, s': State)
    requires g.Valid() && Shape(g, s) && Inv(g, s) && Run(g, s, acts, s')
    ensures |History(g, s)| + News(g, s, acts) <= |Universe(g)|
    decreases |acts|
  {
    if acts == [] {
      SubsetSize(History(g, s), Universe(g));
    } else {
      StepKeeps(g, s, acts[0]);
      HistoryGrows(g, s, acts[0]);
      NewsBounded(g, Do(g, s, acts[0]), acts[1..], s');
      SubsetSize(History(g, s), History(g, Do(g, s, acts[0])));
      if !Happened(g, s, acts[0]) {
        StrictlySmaller(History(g, s), History(g, Do(g, s, acts[0])));
      }
    }
  }

  /** From every state a run can reach, some continuation finishes every member. */
  lemma {:induction false} CanFinish(g: Group, s: State) returns (acts: seq<Action>, s': State)
    requires g.Valid() && Shape(g, s) && Inv(g, s)
    ensures Run(g, s, acts, s') && Dims(g, s') && AllFinished(g, s')
    decreases |Universe(g)| - |History(g, s)|
  {
    if AllFinished(g, s) {
      acts, s' := [], s;
    } else {
      var a := Progress(g, s);
      StepKeeps(g, s, a);
      HistoryGrows(g, s, a);
      StrictlySmaller(History(g, s), History(g, Do(g, s, a)));
      SubsetSize(History(g, Do(g, s, a)), Universe(g));
      acts, s' := CanFinish(g, Do(g, s, a));
      acts := [a] + acts;
    }
  }
}
