/** The guarantees of many-to-many, for every group, every set of overlapping operations and every run. */
module AllToAllTheorems {
  import opened Sets
  import opened AllToAll
  import opened AllToAllCorrect
  import S = PacedSender
  import R = ManyToManyReceiver

  ghost predicate Reachable(g: Group, s: State)
    requires g.Valid()
  {
    exists acts :: Run(g, Initial(g), acts, s)
  }

  lemma ReachableInv(g: Group, s: State)
    requires g.Valid() && Reachable(g, s)
    ensures Shape(g, s) && Inv(g, s)
  {
    var acts :| Run(g, Initial(g), acts, s);
    InitialInv(g);
    RunKeeps(g, Initial(g), acts, s);
  }

  /** All messages of operation `c` for member `d` are complete. */
  ghost predicate AllIn(g: Group, s: State, c: ConnId, d: nat)
    requires Dims(g, s) && c in g.jobs && d < g.n
  {
    forall o :: 0 <= o < g.n ==> s.receivers[d].conns[c].status[o].Done?
  }

  /** What receiver `x` has made of operation `op`, whose connection id is `c`. */
  ghost predicate Exact(op: R.Op, x: R.Receiver, c: ConnId) {
    && c in x.conns && |op.sent| == |op.before|
    && var b := x.conns[c];
    && |b.buffer| == |b.status| == |op.sent|
    && R.Occurrences(x.finished, c) == (if forall o :: 0 <= o < |b.status| ==> b.status[o].Done? then 1 else 0)
    && R.Occurrences(x.dispatched, c) <= 1
    && forall o :: 0 <= o < |b.status| ==> b.buffer[o] == if b.status[o].Done? then op.sent[o] else op.before[o]
  }

  lemma ViewExact(cfg: R.Config, x: R.Receiver, c: ConnId)
    requires R.Inv(cfg, x) && c in cfg
    ensures Exact(cfg[c], x, c)
  {
    assert R.ViewOk(cfg[c], R.ViewOf(x, c));
    R.CountsBound(x.conns[c].status);
  }

  lemma ReceiverExact(g: Group, s: State, c: ConnId, d: nat)
    requires g.Valid() && Reachable(g, s) && c in g.jobs && d < g.n
    ensures Dims(g, s) && Exact(g.Operation(c, d), s.receivers[d], c)
  {
    ReachableInv(g, s);
    ViewExact(g.RecvConfig(d), s.receivers[d], c);
  }

  /**
    The receive side: the user's callback has run once if all messages of the operation are complete,
    and not otherwise; each slot holds exactly its origin's block for this member if that message is
    complete, and is untouched if not.
   */
  lemma ReceivesExactly(g: Group, s: State, c: ConnId, d: nat)
    requires g.Valid() && Reachable(g, s) && c in g.jobs && d < g.n
    ensures Dims(g, s) && g.JobValid(c) && |s.receivers[d].conns[c].buffer| == g.n
    ensures R.Occurrences(s.receivers[d].finished, c) == if AllIn(g, s, c, d) then 1 else 0
    ensures R.Occurrences(s.receivers[d].dispatched, c) <= 1
    ensures forall o :: 0 <= o < g.n ==>
              s.receivers[d].conns[c].buffer[o] ==
              if s.receivers[d].conns[c].status[o].Done? then g.jobs[c].blocks[o][d] else g.jobs[c].before[d][o]
  {
    assert g.JobValid(c);
    ReceiverExact(g, s, c, d);
  }

  /** All-to-all: a member whose receive callback has run holds, from every origin, the block meant for it. */
  lemma DeliversEverything(g: Group, s: State, c: ConnId, d: nat)
    requires g.Valid() && Reachable(g, s) && c in g.jobs && d < g.n
    ensures Dims(g, s) && g.JobValid(c)
    ensures R.Occurrences(s.receivers[d].finished, c) > 0 ==>
              s.receivers[d].conns[c].buffer == seq(g.n, o requires 0 <= o < g.n => g.jobs[c].blocks[o][d])
  {
    ReceivesExactly(g, s, c, d);
  }

  lemma SenderExact(c: S.Config, x: S.Sender)
    requires S.Inv(c, x)
    ensures x.log <= c.perm
    ensures x.callbacks == if x.completed == |c.perm| then 1 else 0
    ensures x.completed <= |x.log| <= x.completed + c.window
  {
  }

  lemma SenderInv(g: Group, s: State, c: ConnId, r: nat)
    requires g.Valid() && Reachable(g, s) && c in g.jobs && r < g.n
    ensures Dims(g, s) && SenderOk(g, s, c, r)
  {
    ReachableInv(g, s);
  }

  /** The send side: each destination at most once, in permuted order; one callback, after the last completion. */
  lemma SendsExactly(g: Group, s: State, c: ConnId, r: nat)
    requires g.Valid() && Reachable(g, s) && c in g.jobs && r < g.n
    ensures Dims(g, s)
    ensures Log(s, c, r) <= g.Permutation(r)
    ensures s.senders[c][r].Sending? ==>
              var x := s.senders[c][r].s;
              && x.callbacks == (if x.completed == g.n then 1 else 0)
              && x.completed <= |x.log| <= x.completed + g.window
  {
    SenderInv(g, s, c, r);
    if s.senders[c][r].Sending? {
      SenderExact(g.SendConfig(r), s.senders[c][r].s);
    }
  }

  // ---------- progress ----------

  /** Every member has sent everything, received everything, and called back. */
  ghost predicate AllDone(g: Group, s: State)
    requires Dims(g, s)
  {
    && (forall c, r :: c in g.jobs && 0 <= r < g.n ==> SenderFinished(g, s, c, r))
    && (forall c, d :: c in g.jobs && 0 <= d < g.n ==> AllIn(g, s, c, d))
  }

  lemma FinishedLog(g: Group, s: State, c: ConnId, o: nat, d: nat)
    requires Dims(g, s) && Triple(g, c, o, d) && SenderOk(g, s, c, o) && SenderFinished(g, s, c, o)
    ensures d in Log(s, c, o)
  {
    PermutationHits(g, o, d);
  }

  /** With its sender finished, a message that is not complete is on the network or announced. */
  lemma MessageMoves(g: Group, s: State, c: ConnId, o: nat, d: nat) returns (a: Action)
    requires g.Valid() && Shape(g, s) && Inv(g, s) && Triple(g, c, o, d) && d in Log(s, c, o)
    requires !s.receivers[d].conns[c].status[o].Done?
    ensures Enabled(g, s, a) && !a.Launch?
  {
    if Absent(g, s, c, o, d) {
      assert MessageOk(g, s, c, o, d);
      a := Deliver(PacketOf(g, c, o, d), true);
    } else {
      a := Lands(c, o, d);
    }
  }

  lemma SenderMoves(g: Group, s: State, c: ConnId, r: nat) returns (a: Action)
    requires g.Valid() && Shape(g, s) && Dims(g, s) && c in g.jobs && r < g.n && SenderOk(g, s, c, r)
    requires !SenderFinished(g, s, c, r)
    ensures Enabled(g, s, a) && (a.Launch? ==> a == Launch(c, r))
  {
    if s.senders[c][r].Idle? {
      a := Launch(c, r);
    } else {
      S.StepPossible(g.SendConfig(r), s.senders[c][r].s);
      var step :| S.Enabled(g.SendConfig(r), s.senders[c][r].s, step);
      a := Send(c, r, step);
    }
  }

  ghost predicate SenderFinished(g: Group, s: State, c: ConnId, r: nat)
    requires Dims(g, s) && c in g.jobs && r < g.n
  {
    s.senders[c][r].Sending? && S.Finished(g.SendConfig(r), s.senders[c][r].s)
  }

  lemma ReceiveMoves(g: Group, s: State, c: ConnId, d: nat) returns (a: Action)
    requires g.Valid() && Shape(g, s) && Inv(g, s) && c in g.jobs && d < g.n && !AllIn(g, s, c, d)
    requires forall r :: 0 <= r < g.n ==> SenderFinished(g, s, c, r)
    ensures Enabled(g, s, a) && !a.Launch?
  {
    var o :| 0 <= o < g.n && !s.receivers[d].conns[c].status[o].Done?;
    assert SenderOk(g, s, c, o) && SenderFinished(g, s, c, o);
    FinishedLog(g, s, c, o, d);
    a := MessageMoves(g, s, c, o, d);
  }

  /** As long as anything is left to do, some step is enabled. */
  lemma NeverStuck(g: Group, s: State) returns (a: Action)
    requires g.Valid() && Reachable(g, s) && Dims(g, s) && !AllDone(g, s)
    ensures Shape(g, s) && Enabled(g, s, a)
  {
    ReachableInv(g, s);
    a := SomeStep(g, s);
  }

  lemma SomeStep(g: Group, s: State) returns (a: Action)
    requires g.Valid() && Shape(g, s) && Inv(g, s) && !AllDone(g, s)
    ensures Enabled(g, s, a)
  {
    if c, r :| c in g.jobs && 0 <= r < g.n && !SenderFinished(g, s, c, r) {
      assert SenderOk(g, s, c, r);
      a := SenderMoves(g, s, c, r);
    } else {
      var c, d :| c in g.jobs && 0 <= d < g.n && !AllIn(g, s, c, d);
      a := ReceiveMoves(g, s, c, d);
    }
  }

  // ---------- termination ----------

  datatype Token = SendToken(c: ConnId, r: nat, x: nat) | RecvToken(c: ConnId, o: nat, d: nat, x: nat)

  /** What is left for the sender of `r` in operation `c`. */
  ghost function SendLeft(g: Group, s: State, c: ConnId, r: nat): int
    requires Dims(g, s) && c in g.jobs && r < g.n
  {
    if s.senders[c][r].Idle? then 6 * g.n + 2 else S.Left(g.SendConfig(r), s.senders[c][r].s)
  }

  /** What is left for the message of `o` in operation `c` at `d`. */
  ghost function RecvLeft(g: Group, s: State, c: ConnId, o: nat, d: nat): int
    requires Dims(g, s) && Triple(g, c, o, d)
  {
    match s.receivers[d].conns[c].status[o]
    case Absent => 2
    case Announced(_) => 1
    case Done => 0
  }

  ghost function SendTokens(g: Group, s: State): set<Token>
    requires Dims(g, s)
  {
    set c, r: nat, x: nat | c in g.jobs && 0 <= r < g.n && 0 <= x < 6 * g.n + 2 && x < SendLeft(g, s, c, r) ::
      SendToken(c, r, x)
  }

  ghost function RecvTokens(g: Group, s: State): set<Token>
    requires Dims(g, s)
  {
    set c, o: nat, d: nat, x: nat |
      c in g.jobs && 0 <= o < g.n && 0 <= d < g.n && 0 <= x < 2 && x < RecvLeft(g, s, c, o, d) ::
      RecvToken(c, o, d, x)
  }

  ghost function Todo(g: Group, s: State): set<Token>
    requires Dims(g, s)
  {
    SendTokens(g, s) + RecvTokens(g, s)
  }

  /** Only `r`'s sender moved, and it has less left. */
  lemma SendTokensShrink(g: Group, s: State, s': State, c: ConnId, r: nat)
    requires OnlySender(g, s, s', c, r) && 0 <= SendLeft(g, s', c, r) < SendLeft(g, s, c, r) <= 6 * g.n + 2
    ensures SendTokens(g, s') < SendTokens(g, s) && RecvTokens(g, s') == RecvTokens(g, s)
  {
    var t := SendToken(c, r, SendLeft(g, s', c, r));
    assert t in SendTokens(g, s) && t !in SendTokens(g, s');
    forall t' | t' in SendTokens(g, s')
      ensures t' in SendTokens(g, s)
    {
      assert (t'.c, t'.r) != (c, r) ==> SendLeft(g, s', t'.c, t'.r) == SendLeft(g, s, t'.c, t'.r);
    }
  }

  /** Only the message of `o` in operation `c` moved at `d`, and it has less left. */
  lemma RecvTokensShrink(g: Group, s: State, s': State, c: ConnId, o: nat, d: nat)
    requires Dims(g, s) && Dims(g, s') && Triple(g, c, o, d) && s'.senders == s.senders
    requires RecvLeft(g, s', c, o, d) < RecvLeft(g, s, c, o, d)
    requires forall c': ConnId, o': nat, d': nat :: Triple(g, c', o', d') && (c', o', d') != (c, o, d) ==>
               RecvLeft(g, s', c', o', d') == RecvLeft(g, s, c', o', d')
    ensures RecvTokens(g, s') < RecvTokens(g, s) && SendTokens(g, s') == SendTokens(g, s)
  {
    var t := RecvToken(c, o, d, RecvLeft(g, s', c, o, d));
    assert t in RecvTokens(g, s) && t !in RecvTokens(g, s');
    forall t' | t' in RecvTokens(g, s')
      ensures t' in RecvTokens(g, s)
    {
      assert Triple(g, t'.c, t'.o, t'.d);
    }
  }

  lemma LeftBound(c: S.Config, x: S.Sender)
    requires S.Inv(c, x)
    ensures 0 <= S.Left(c, x) <= 6 * |c.perm| + 2
  {
  }

  lemma LaunchShrinks(g: Group, s: State, c: ConnId, r: nat)
    requires g.Valid() && Shape(g, s) && Dims(g, s) && Enabled(g, s, Launch(c, r))
    ensures var s' := Do(g, s, Launch(c, r)); Dims(g, s') && Todo(g, s') < Todo(g, s)
  {
    var s' := Do(g, s, Launch(c, r));
    ShapeDims(g, s');
    SendTokensShrink(g, s, s', c, r);
  }

  lemma SendShrinks(g: Group, s: State, c: ConnId, r: nat, step: S.Step)
    requires g.Valid() && Shape(g, s) && Dims(g, s) && Enabled(g, s, Send(c, r, step)) && SenderOk(g, s, c, r)
    ensures var s' := DoSend(g, s, c, r, step); Dims(g, s') && Todo(g, s') < Todo(g, s)
  {
    var s', cfg, x := DoSend(g, s, c, r, step), g.SendConfig(r), s.senders[c][r].s;
    S.StepDecreases(cfg, x, step);
    LeftBound(cfg, x);
    SendActs(g, s, c, r, step);
    SendTokensShrink(g, s, s', c, r);
  }

  /** `d`'s receiver is now `x`, in which the message of `o` in `c` is further on. */
  lemma ReceiverShrinks(g: Group, s: State, s': State, c: ConnId, o: nat, d: nat, x: R.Receiver)
    requires Dims(g, s) && Dims(g, s') && Triple(g, c, o, d) && s'.senders == s.senders
    requires s'.receivers == s.receivers[d := x] && OneStatus(g, s.receivers[d], x, c, o)
    requires RecvLeft(g, s', c, o, d) < RecvLeft(g, s, c, o, d)
    ensures Todo(g, s') < Todo(g, s)
  {
    forall c': ConnId, o': nat, d': nat | Triple(g, c', o', d') && (c', o', d') != (c, o, d)
      ensures RecvLeft(g, s', c', o', d') == RecvLeft(g, s, c', o', d')
    {
    }
    RecvTokensShrink(g, s, s', c, o, d);
  }

  lemma DeliverShrinks(g: Group, s: State, p: Packet, immediate: bool)
    requires g.Valid() && Shape(g, s) && Dims(g, s) && p in s.net && Triple(g, p.c, p.origin, p.dest)
    requires R.CanArrive(g.RecvConfig(p.dest), s.receivers[p.dest], p.c, p.origin)
    ensures var s' := DoDeliver(g, s, p, immediate); Dims(g, s') && Todo(g, s') < Todo(g, s)
  {
    var s' := DoDeliver(g, s, p, immediate);
    ShapeDims(g, s');
    ArriveOneStatus(g, s.receivers[p.dest], p.c, p.origin, p.dest, p.data, immediate);
    DeliverDoes(g, s, p, immediate);
    ReceiverShrinks(g, s, s', p.c, p.origin, p.dest, s'.receivers[p.dest]);
  }

  lemma LandsShrinks(g: Group, s: State, c: ConnId, o: nat, d: nat)
    requires g.Valid() && Shape(g, s) && Dims(g, s) && Enabled(g, s, Lands(c, o, d))
    ensures var s' := Do(g, s, Lands(c, o, d)); Dims(g, s') && Todo(g, s') < Todo(g, s)
  {
    var s' := Do(g, s, Lands(c, o, d));
    ShapeDims(g, s');
    LandOneStatus(g, s.receivers[d], c, o, d);
    LandStatus(g.RecvConfig(d), s.receivers[d], c, o);
    ReceiverShrinks(g, s, s', c, o, d, s'.receivers[d]);
  }

  /** Every step takes something off the list of things to do. */
  lemma StepShrinks(g: Group, s: State, a: Action)
    requires g.Valid() && Shape(g, s) && Inv(g, s) && Enabled(g, s, a)
    ensures Dims(g, Do(g, s, a)) && Todo(g, Do(g, s, a)) < Todo(g, s)
  {
    match a
    case Launch(c, r) => LaunchShrinks(g, s, c, r);
    case Send(c, r, step) =>
      assert SenderOk(g, s, c, r);
      SendShrinks(g, s, c, r, step);
    case Deliver(p, immediate) =>
      CanDeliver(g, s, p);
      DeliverShrinks(g, s, p, immediate);
    case Lands(c, o, d) => LandsShrinks(g, s, c, o, d);
  }

  lemma {:induction false} RunShrinks(g: Group, s: State, acts: seq<Action>, s': State)
    requires g.Valid() && Shape(g, s) && Inv(g, s) && Run(g, s, acts, s')
    ensures |acts| <= |Todo(g, s)|
    decreases |acts|
  {
    if acts != [] {
      StepKeeps(g, s, acts[0]);
      StepShrinks(g, s, acts[0]);
      RunShrinks(g, Do(g, s, acts[0]), acts[1..], s');
      StrictlySmaller(Todo(g, Do(g, s, acts[0])), Todo(g, s));
    }
  }

  /**
    Every run comes to an end, whatever the network does: its length is bounded by the size of the
    operations alone. With NeverStuck, it can only end with everything sent and received.
   */
  lemma Terminates(g: Group, acts: seq<Action>, s: State)
    requires g.Valid() && Run(g, Initial(g), acts, s)
    ensures Dims(g, Initial(g)) && |acts| <= |Todo(g, Initial(g))|
  {
    InitialInv(g);
    RunShrinks(g, Initial(g), acts, s);
  }

  lemma {:induction false} FinishFrom(g: Group, s: State) returns (acts: seq<Action>, s': State)
    requires g.Valid() && Shape(g, s) && Inv(g, s)
    ensures Run(g, s, acts, s') && Shape(g, s') && Dims(g, s') && AllDone(g, s')
    decreases |Todo(g, s)|
  {
    if AllDone(g, s) {
      acts, s' := [], s;
    } else {
      var a := SomeStep(g, s);
      StepKeeps(g, s, a);
      StepShrinks(g, s, a);
      StrictlySmaller(Todo(g, Do(g, s, a)), Todo(g, s));
      acts, s' := FinishFrom(g, Do(g, s, a));
      acts := [a] + acts;
    }
  }

  /** From every reachable state some continuation completes every operation everywhere. */
  lemma AlwaysCanFinish(g: Group, s: State) returns (acts: seq<Action>, s': State)
    requires g.Valid() && Reachable(g, s)
    ensures Shape(g, s) && Run(g, s, acts, s') && Dims(g, s') && AllDone(g, s')
  {
    ReachableInv(g, s);
    acts, s' := FinishFrom(g, s);
  }
}
