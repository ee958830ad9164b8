/**
  Connection ids come back. In AllToAll every operation has a name of its own; on the wire, and in
  the receivers' queues, there is only its connection id, which several operations may share. The
  queues of the code, kept by id, are shown to follow those of the model, kept by operation, in every
  run in which an operation starts only while no other one with its id is open: launched by some
  member and not yet called back on all. Launching at most a window of operations ahead is enough.
 */
module ConnectionReuse {
  import opened Sets
  import opened AllToAll
  import opened AllToAllCorrect
  import opened AllToAllTheorems
  import Ids = ConnectionIds
  import S = PacedSender
  import R = ManyToManyReceiver

  // ---------- open operations ----------

  ghost predicate Launched(g: Group, s: State, c: ConnId)
    requires Dims(g, s) && c in g.jobs
  {
    exists r :: 0 <= r < g.n && s.senders[c][r].Sending?
  }

  /** The receive callback has run on every member. */
  ghost predicate Served(g: Group, s: State, c: ConnId)
    requires Dims(g, s) && c in g.jobs
  {
    forall d :: 0 <= d < g.n ==> AllIn(g, s, c, d)
  }

  ghost predicate Open(g: Group, s: State, c: ConnId)
    requires Dims(g, s) && c in g.jobs
  {
    Launched(g, s, c) && !Served(g, s, c)
  }

  /** No other operation with the same id is open. */
  ghost predicate Free(g: Group, s: State, wire: ConnId -> nat, c: ConnId)
    requires Dims(g, s)
  {
    forall c' :: c' in g.jobs && c' != c && wire(c') == wire(c) ==> !Open(g, s, c')
  }

  ghost predicate Allowed(g: Group, s: State, wire: ConnId -> nat, a: Action)
    requires g.Valid() && Shape(g, s) && Dims(g, s)
  {
    Enabled(g, s, a) && (a.Launch? ==> Free(g, s, wire, a.c))
  }

  /** No two operations with one id are open. */
  ghost predicate Exclusive(g: Group, s: State, wire: ConnId -> nat)
    requires Dims(g, s)
  {
    forall c :: c in g.jobs && Open(g, s, c) ==> Free(g, s, wire, c)
  }

  // ---------- what a step opens and serves ----------

  /** Only the message of `o` in operation `c` has come further at `d`. */
  ghost predicate CameFurther(g: Group, s: State, s': State, c: ConnId, o: nat, d: nat) {
    && Dims(g, s) && Dims(g, s') && Triple(g, c, o, d) && s'.senders == s.senders
    && s'.receivers == s.receivers[d := s'.receivers[d]]
    && OneStatus(g, s.receivers[d], s'.receivers[d], c, o)
    && !s.receivers[d].conns[c].status[o].Done?
  }

  ghost predicate Stepped(g: Group, s: State, s': State, a: Action) {
    && Dims(g, s) && Dims(g, s')
    && match a
       case Launch(c, r) => OnlySender(g, s, s', c, r) && s'.senders[c][r].Sending?
       case Send(c, r, _) => OnlySender(g, s, s', c, r) && s.senders[c][r].Sending? && s'.senders[c][r].Sending?
       case Deliver(p, _) => CameFurther(g, s, s', p.c, p.origin, p.dest)
       case Lands(c, o, d) => CameFurther(g, s, s', c, o, d)
  }

  lemma LaunchSteps(g: Group, s: State, c: ConnId, r: nat)
    requires g.Valid() && Shape(g, s) && Dims(g, s) && Enabled(g, s, Launch(c, r))
    ensures Stepped(g, s, Do(g, s, Launch(c, r)), Launch(c, r))
  {
    ShapeDims(g, Do(g, s, Launch(c, r)));
  }

  lemma ReceiverSteps(g: Group, s: State, c: ConnId, o: nat, d: nat, x: R.Receiver, net: multiset<Packet>)
    requires Dims(g, s) && Triple(g, c, o, d) && OneStatus(g, s.receivers[d], x, c, o)
    requires !s.receivers[d].conns[c].status[o].Done?
    ensures CameFurther(g, s, s.(net := net, receivers := s.receivers[d := x]), c, o, d)
  {
    ReceiverDims(g, s, d, x, net);
  }

  lemma DeliverSteps(g: Group, s: State, p: Packet, immediate: bool)
    requires g.Valid() && Shape(g, s) && Inv(g, s) && p in s.net
    ensures Stepped(g, s, DoDeliver(g, s, p, immediate), Deliver(p, immediate))
  {
    CanDeliver(g, s, p);
    var x := R.Arrive(g.RecvConfig(p.dest), s.receivers[p.dest], p.c, p.origin, p.data, immediate);
    ArriveOneStatus(g, s.receivers[p.dest], p.c, p.origin, p.dest, p.data, immediate);
    DeliverDoes(g, s, p, immediate);
    ReceiverSteps(g, s, p.c, p.origin, p.dest, x, s.net - multiset{p});
  }

  lemma LandsSteps(g: Group, s: State, c: ConnId, o: nat, d: nat)
    requires g.Valid() && Shape(g, s) && Dims(g, s) && Enabled(g, s, Lands(c, o, d))
    ensures Stepped(g, s, Do(g, s, Lands(c, o, d)), Lands(c, o, d))
  {
    ShapeDims(g, Do(g, s, Lands(c, o, d)));
    LandOneStatus(g, s.receivers[d], c, o, d);
  }

  lemma EveryStep(g: Group, s: State, a: Action)
    requires g.Valid() && Shape(g, s) && Inv(g, s) && Enabled(g, s, a)
    ensures Stepped(g, s, Do(g, s, a), a)
  {
    match a
    case Launch(c, r) => LaunchSteps(g, s, c, r);
    case Send(c, r, step) => SendActs(g, s, c, r, step);
    case Deliver(p, immediate) => DeliverSteps(g, s, p, immediate);
    case Lands(c, o, d) => LandsSteps(g, s, c, o, d);
  }

  lemma AllInStays(g: Group, s: State, s': State, a: Action, c: ConnId, d: nat)
    requires Stepped(g, s, s', a) && c in g.jobs && d < g.n && AllIn(g, s, c, d)
    ensures AllIn(g, s', c, d)
  {
  }

  lemma ServedStays(g: Group, s: State, s': State, a: Action, c: ConnId)
    requires Stepped(g, s, s', a) && c in g.jobs && Served(g, s, c)
    ensures Served(g, s', c)
  {
    forall d | 0 <= d < g.n ensures AllIn(g, s', c, d) {
      AllInStays(g, s, s', a, c, d);
    }
  }

  lemma LaunchedStep(g: Group, s: State, s': State, a: Action, c: ConnId)
    requires Stepped(g, s, s', a) && c in g.jobs && Launched(g, s', c)
    ensures Launched(g, s, c) || (a.Launch? && a.c == c)
  {
    var r :| 0 <= r < g.n && s'.senders[c][r].Sending?;
    assert s.senders[c][r].Sending? || (a.Launch? && a.c == c);
  }

  /** What is open after a step was open before, or is launched by it. */
  lemma OpenStep(g: Group, s: State, s': State, a: Action, c: ConnId)
    requires Stepped(g, s, s', a) && c in g.jobs && Open(g, s', c)
    ensures Open(g, s, c) || (a.Launch? && a.c == c)
  {
    LaunchedStep(g, s, s', a, c);
    if Served(g, s, c) {
      ServedStays(g, s, s', a, c);
    }
  }

  lemma ExclusiveStep(g: Group, s: State, s': State, wire: ConnId -> nat, a: Action)
    requires Stepped(g, s, s', a) && Exclusive(g, s, wire) && (a.Launch? ==> Free(g, s, wire, a.c))
    ensures Exclusive(g, s', wire)
  {
    forall c, c' | c in g.jobs && c' in g.jobs && c' != c && wire(c') == wire(c) && Open(g, s', c)
      ensures !Open(g, s', c')
    {
      OpenStep(g, s, s', a, c);
      assert Open(g, s, c) ==> Free(g, s, wire, c);
      if Open(g, s', c') {
        OpenStep(g, s, s', a, c');
      }
    }
  }

  // ---------- the queues ----------

  /** A queue by operation, with the ids that are really in it. */
  ghost function Image(wire: ConnId -> nat, q: seq<R.RecvState>): (r: seq<R.RecvState>)
    ensures |r| == |q|
    ensures forall k :: 0 <= k < |q| ==> r[k] == R.RecvState(wire(q[k].connId), q[k].doneCountDown)
  {
    seq(|q|, k requires 0 <= k < |q| => R.RecvState(wire(q[k].connId), q[k].doneCountDown))
  }

  /** Whatever is queued under the id of `c` belongs to `c`. */
  ghost predicate Own(wire: ConnId -> nat, q: seq<R.RecvState>, c: ConnId) {
    forall k :: 0 <= k < |q| && wire(q[k].connId) == wire(c) ==> q[k].connId == c
  }

  lemma {:induction false} FindImage(wire: ConnId -> nat, q: seq<R.RecvState>, c: ConnId)
    requires Own(wire, q, c)
    ensures R.Find(Image(wire, q), wire(c)) == R.Find(q, c)
  {
    if q != [] {
      assert Image(wire, q)[1..] == Image(wire, q[1..]);
      if q[0].connId != c {
        FindImage(wire, q[1..], c);
      }
    }
  }

  lemma {:induction false} CountDownImage(wire: ConnId -> nat, q: seq<R.RecvState>, c: ConnId)
    requires Own(wire, q, c)
    ensures R.CountDown(Image(wire, q), wire(c)) == Image(wire, R.CountDown(q, c))
  {
    if q != [] {
      assert Image(wire, q)[1..] == Image(wire, q[1..]);
      if q[0].connId != c {
        CountDownImage(wire, q[1..], c);
        assert R.CountDown(q, c) == [q[0]] + R.CountDown(q[1..], c);
      } else if q[0].doneCountDown != 1 {
        assert R.CountDown(q, c) == [R.RecvState(c, q[0].doneCountDown - 1)] + q[1..];
      }
    }
  }

  /** The find-or-create of `handle_m2m` on a queue. */
  function Found(q: seq<R.RecvState>, key: nat, participants: nat): seq<R.RecvState> {
    if R.Find(q, key) < |q| then q else q + [R.RecvState(key, participants)]
  }

  lemma FoundImage(wire: ConnId -> nat, q: seq<R.RecvState>, c: ConnId, n: nat)
    requires Own(wire, q, c)
    ensures Found(Image(wire, q), wire(c), n) == Image(wire, Found(q, c, n))
    ensures Own(wire, Found(q, c, n), c)
  {
    FindImage(wire, q, c);
  }

  /** `handle_m2m` on a queue; `now` says that the message is complete at once. */
  function Handled(q: seq<R.RecvState>, key: nat, participants: nat, now: bool): seq<R.RecvState> {
    if now then R.CountDown(Found(q, key, participants), key) else Found(q, key, participants)
  }

  lemma HandledImage(wire: ConnId -> nat, q: seq<R.RecvState>, c: ConnId, n: nat, now: bool)
    requires Own(wire, q, c)
    ensures Handled(Image(wire, q), wire(c), n, now) == Image(wire, Handled(q, c, n, now))
  {
    FoundImage(wire, q, c, n);
    if now {
      CountDownImage(wire, Found(q, c, n), c);
    }
  }

  lemma ArriveQueue(cfg: R.Config, x: R.Receiver, c: ConnId, o: nat, data: Block, immediate: bool)
    requires R.Shape(cfg, x) && R.CanArrive(cfg, x, c, o)
    ensures R.Arrive(cfg, x, c, o, data, immediate).queue ==
            Handled(x.queue, c, |cfg[c].sent|, |data| == 0 || immediate)
  {
  }

  lemma LandQueue(cfg: R.Config, x: R.Receiver, c: ConnId, o: nat)
    requires R.Shape(cfg, x) && R.CanLand(cfg, x, c, o)
    ensures R.Land(cfg, x, c, o).queue == R.CountDown(x.queue, c)
  {
  }

  // ---------- what is queued is open ----------

  /** Every queued state belongs to an operation of the group. */
  ghost predicate Known(g: Group, q: seq<R.RecvState>) {
    forall k :: 0 <= k < |q| ==> q[k].connId in g.jobs
  }

  lemma {:induction false} CountDownKnown(g: Group, q: seq<R.RecvState>, c: ConnId)
    requires Known(g, q)
    ensures Known(g, R.CountDown(q, c))
  {
    if q != [] && q[0].connId != c {
      CountDownKnown(g, q[1..], c);
    }
  }

  lemma HandledKnown(g: Group, q: seq<R.RecvState>, c: ConnId, n: nat, now: bool)
    requires Known(g, q) && c in g.jobs
    ensures Known(g, Handled(q, c, n, now))
  {
    CountDownKnown(g, Found(q, c, n), c);
  }

  lemma {:induction false} CountersOf(q: seq<R.RecvState>, k: nat)
    requires k < |q|
    ensures R.Counters(q, q[k].connId) != []
  {
    if k > 0 {
      CountersOf(q[1..], k - 1);
    }
  }

  /** A connection with a queued state has a message that came, and one that is not complete. */
  lemma QueuedShare(op: R.Op, v: R.View) returns (o: nat, o': nat)
    requires R.ViewOk(op, v) && v.counters != []
    ensures o < |v.conn.status| && !v.conn.status[o].Absent?
    ensures o' < |v.conn.status| && !v.conn.status[o'].Done?
  {
    R.CountsBound(v.conn.status);
    var i :| 0 <= i < |v.conn.status| && !v.conn.status[i].Absent?;
    var j :| 0 <= j < |v.conn.status| && !v.conn.status[j].Done?;
    o, o' := i, j;
  }

  /** An operation is open when something of it was sent and something is not complete. */
  lemma OpenBetween(g: Group, s: State, c: ConnId, o: nat, d: nat, o': nat)
    requires Dims(g, s) && Triple(g, c, o, d) && o' < g.n
    requires d in Log(s, c, o) && !s.receivers[d].conns[c].status[o'].Done?
    ensures Open(g, s, c)
  {
    assert s.senders[c][o].Sending?;
    assert !AllIn(g, s, c, d);
  }

  lemma QueuedIsOpen(g: Group, s: State, d: nat, k: nat)
    requires g.Valid() && Inv(g, s) && d < g.n && Known(g, s.receivers[d].queue) && k < |s.receivers[d].queue|
    ensures Open(g, s, s.receivers[d].queue[k].connId)
  {
    var x := s.receivers[d];
    var c := x.queue[k].connId;
    CountersOf(x.queue, k);
    assert R.Inv(g.RecvConfig(d), x);
    var o, o' := QueuedShare(g.RecvConfig(d)[c], R.ViewOf(x, c));
    assert MessageOk(g, s, c, o, d);
    OpenBetween(g, s, c, o, d, o');
  }

  lemma PacketIsOpen(g: Group, s: State, p: Packet)
    requires g.Valid() && Inv(g, s) && p in s.net
    ensures Triple(g, p.c, p.origin, p.dest) && Open(g, s, p.c)
  {
    assert PacketOk(g, s, p);
    OpenBetween(g, s, p.c, p.origin, p.dest, p.origin);
  }

  lemma AnnouncedIsOpen(g: Group, s: State, c: ConnId, o: nat, d: nat)
    requires g.Valid() && Inv(g, s) && Triple(g, c, o, d) && s.receivers[d].conns[c].status[o].Announced?
    ensures Open(g, s, c)
  {
    assert MessageOk(g, s, c, o, d);
    OpenBetween(g, s, c, o, d, o);
  }

  /** So what a receiver has queued under the id of an open operation belongs to that operation. */
  lemma OpenOwns(g: Group, s: State, wire: ConnId -> nat, c: ConnId, d: nat)
    requires g.Valid() && Inv(g, s) && d < g.n && Known(g, s.receivers[d].queue)
    requires Exclusive(g, s, wire) && c in g.jobs && Open(g, s, c)
    ensures Own(wire, s.receivers[d].queue, c)
  {
    var q := s.receivers[d].queue;
    forall k | 0 <= k < |q| && wire(q[k].connId) == wire(c) ensures q[k].connId == c {
      QueuedIsOpen(g, s, d, k);
      assert Free(g, s, wire, c);
    }
  }

  // ---------- the queues of the code ----------

  /** What `handle_m2m` and `recvM2mDone` do to the queues, which they search by id. */
  ghost function DoQueues(g: Group, wire: ConnId -> nat, qs: seq<seq<R.RecvState>>, a: Action): seq<seq<R.RecvState>> {
    match a
    case Deliver(p, immediate) =>
      if p.dest < |qs| then
        qs[p.dest := Handled(qs[p.dest], wire(p.c), g.n, |p.data| == 0 || immediate)]
      else qs
    case Lands(c, _, d) => if d < |qs| then qs[d := R.CountDown(qs[d], wire(c))] else qs
    case _ => qs
  }

  ghost predicate Follows(g: Group, s: State, wire: ConnId -> nat, qs: seq<seq<R.RecvState>>) {
    && |qs| == |s.receivers| == g.n
    && forall d :: 0 <= d < g.n ==> Known(g, s.receivers[d].queue) && qs[d] == Image(wire, s.receivers[d].queue)
  }

  lemma FollowsOne(g: Group, s: State, s': State, wire: ConnId -> nat, qs: seq<seq<R.RecvState>>, d: nat)
    requires Follows(g, s, wire, qs) && d < g.n && |s'.receivers| == g.n
    requires s'.receivers == s.receivers[d := s'.receivers[d]] && Known(g, s'.receivers[d].queue)
    ensures Follows(g, s', wire, qs[d := Image(wire, s'.receivers[d].queue)])
  {
  }

  /** What a step does to the model's queues, and that the ids involved are unambiguous. */
  ghost predicate QueueStep(g: Group, s: State, s': State, wire: ConnId -> nat, a: Action) {
    && |s.receivers| == |s'.receivers| == g.n
    && match a
       case Deliver(p, immediate) =>
         && p.c in g.jobs && p.dest < g.n && Own(wire, s.receivers[p.dest].queue, p.c)
         && s'.receivers == s.receivers[p.dest := s'.receivers[p.dest]]
         && s'.receivers[p.dest].queue ==
            Handled(s.receivers[p.dest].queue, p.c, g.n, |p.data| == 0 || immediate)
       case Lands(c, _, d) =>
         && d < g.n && Own(wire, s.receivers[d].queue, c)
         && s'.receivers == s.receivers[d := s'.receivers[d]]
         && s'.receivers[d].queue == R.CountDown(s.receivers[d].queue, c)
       case _ => s'.receivers == s.receivers
  }

  ghost predicate AllKnown(g: Group, s: State) {
    |s.receivers| == g.n && forall d :: 0 <= d < g.n ==> Known(g, s.receivers[d].queue)
  }

  lemma DeliverQueue(g: Group, s: State, p: Packet, immediate: bool)
    requires g.Valid() && Shape(g, s) && Inv(g, s) && p in s.net
    ensures Triple(g, p.c, p.origin, p.dest)
    ensures var s' := DoDeliver(g, s, p, immediate);
            && |s'.receivers| == g.n && s'.receivers == s.receivers[p.dest := s'.receivers[p.dest]]
            && s'.receivers[p.dest].queue ==
               Handled(s.receivers[p.dest].queue, p.c, g.n, |p.data| == 0 || immediate)
  {
    CanDeliver(g, s, p);
    DeliverDoes(g, s, p, immediate);
    ArriveQueue(g.RecvConfig(p.dest), s.receivers[p.dest], p.c, p.origin, p.data, immediate);
  }

  lemma PacketOwns(g: Group, s: State, wire: ConnId -> nat, p: Packet)
    requires g.Valid() && Inv(g, s) && AllKnown(g, s) && Exclusive(g, s, wire) && p in s.net
    ensures p.dest < g.n && Own(wire, s.receivers[p.dest].queue, p.c)
  {
    PacketIsOpen(g, s, p);
    OpenOwns(g, s, wire, p.c, p.dest);
  }

  lemma LandsQueue(g: Group, s: State, c: ConnId, o: nat, d: nat)
    requires g.Valid() && Shape(g, s) && Inv(g, s) && Enabled(g, s, Lands(c, o, d))
    ensures Triple(g, c, o, d) && s.receivers[d].conns[c].status[o].Announced?
    ensures var s' := Do(g, s, Lands(c, o, d));
            && |s'.receivers| == g.n && s'.receivers == s.receivers[d := s'.receivers[d]]
            && s'.receivers[d].queue == R.CountDown(s.receivers[d].queue, c)
  {
    LandOneStatus(g, s.receivers[d], c, o, d);
    LandQueue(g.RecvConfig(d), s.receivers[d], c, o);
  }

  lemma AnnouncedOwns(g: Group, s: State, wire: ConnId -> nat, c: ConnId, o: nat, d: nat)
    requires g.Valid() && Inv(g, s) && AllKnown(g, s) && Exclusive(g, s, wire)
    requires Triple(g, c, o, d) && s.receivers[d].conns[c].status[o].Announced?
    ensures Own(wire, s.receivers[d].queue, c)
  {
    AnnouncedIsOpen(g, s, c, o, d);
    OpenOwns(g, s, wire, c, d);
  }

  lemma DeliverQueueStep(g: Group, s: State, wire: ConnId -> nat, p: Packet, immediate: bool)
    requires g.Valid() && Shape(g, s) && Inv(g, s) && AllKnown(g, s) && Exclusive(g, s, wire) && p in s.net
    ensures QueueStep(g, s, DoDeliver(g, s, p, immediate), wire, Deliver(p, immediate))
  {
    PacketOwns(g, s, wire, p);
    DeliverQueue(g, s, p, immediate);
  }

  lemma LandsQueueStep(g: Group, s: State, wire: ConnId -> nat, c: ConnId, o: nat, d: nat)
    requires g.Valid() && Shape(g, s) && Inv(g, s) && AllKnown(g, s) && Exclusive(g, s, wire)
    requires Enabled(g, s, Lands(c, o, d))
    ensures QueueStep(g, s, Do(g, s, Lands(c, o, d)), wire, Lands(c, o, d))
  {
    LandsQueue(g, s, c, o, d);
    AnnouncedOwns(g, s, wire, c, o, d);
  }

  lemma QuietQueueStep(g: Group, s: State, s': State, wire: ConnId -> nat, a: Action)
    requires Stepped(g, s, s', a) && (a.Launch? || a.Send?)
    ensures QueueStep(g, s, s', wire, a)
  {
  }

  lemma QueueSteps(g: Group, s: State, wire: ConnId -> nat, a: Action)
    requires g.Valid() && Shape(g, s) && Inv(g, s) && AllKnown(g, s) && Exclusive(g, s, wire) && Enabled(g, s, a)
    requires Stepped(g, s, Do(g, s, a), a)
    ensures QueueStep(g, s, Do(g, s, a), wire, a)
  {
    match a
    case Deliver(p, immediate) => DeliverQueueStep(g, s, wire, p, immediate);
    case Lands(c, o, d) => LandsQueueStep(g, s, wire, c, o, d);
    case _ => QuietQueueStep(g, s, Do(g, s, a), wire, a);
  }

  lemma FollowsStep(g: Group, s: State, s': State, wire: ConnId -> nat, qs: seq<seq<R.RecvState>>, a: Action)
    requires Follows(g, s, wire, qs) && QueueStep(g, s, s', wire, a)
    ensures Follows(g, s', wire, DoQueues(g, wire, qs, a))
  {
    match a
    case Deliver(p, immediate) =>
      var q, now := s.receivers[p.dest].queue, |p.data| == 0 || immediate;
      HandledImage(wire, q, p.c, g.n, now);
      HandledKnown(g, q, p.c, g.n, now);
      FollowsOne(g, s, s', wire, qs, p.dest);
    case Lands(c, o, d) =>
      CountDownImage(wire, s.receivers[d].queue, c);
      CountDownKnown(g, s.receivers[d].queue, c);
      FollowsOne(g, s, s', wire, qs, d);
    case _ =>
  }

  /** Everything that holds along a run in which ids are reused. */
  ghost predicate Tracked(g: Group, s: State, wire: ConnId -> nat, qs: seq<seq<R.RecvState>>)
    requires g.Valid()
  {
    Shape(g, s) && Inv(g, s) && Exclusive(g, s, wire) && Follows(g, s, wire, qs)
  }

  lemma StepTracks(g: Group, s: State, wire: ConnId -> nat, qs: seq<seq<R.RecvState>>, a: Action)
    requires g.Valid() && Tracked(g, s, wire, qs) && Allowed(g, s, wire, a)
    ensures Tracked(g, Do(g, s, a), wire, DoQueues(g, wire, qs, a))
  {
    StepKeeps(g, s, a);
    EveryStep(g, s, a);
    ExclusiveStep(g, s, Do(g, s, a), wire, a);
    assert AllKnown(g, s);
    QueueSteps(g, s, wire, a);
    FollowsStep(g, s, Do(g, s, a), wire, qs, a);
  }

  ghost predicate RunOn(g: Group, wire: ConnId -> nat, s: State, qs: seq<seq<R.RecvState>>, acts: seq<Action>,
                        s': State, qs': seq<seq<R.RecvState>>)
    requires g.Valid()
    decreases |acts|
  {
    if acts == [] then s' == s && qs' == qs
    else
      && Shape(g, s) && Dims(g, s) && Allowed(g, s, wire, acts[0])
      && RunOn(g, wire, Do(g, s, acts[0]), DoQueues(g, wire, qs, acts[0]), acts[1..], s', qs')
  }

  lemma {:induction false} RunTracks(g: Group, wire: ConnId -> nat, s: State, qs: seq<seq<R.RecvState>>,
                                     acts: seq<Action>, s': State, qs': seq<seq<R.RecvState>>)
    requires g.Valid() && Tracked(g, s, wire, qs) && RunOn(g, wire, s, qs, acts, s', qs')
    ensures Tracked(g, s', wire, qs') && Run(g, s, acts, s')
    decreases |acts|
  {
    if acts != [] {
      StepTracks(g, s, wire, qs, acts[0]);
      RunTracks(g, wire, Do(g, s, acts[0]), DoQueues(g, wire, qs, acts[0]), acts[1..], s', qs');
    }
  }

  ghost function Empties(g: Group): seq<seq<R.RecvState>> {
    seq(g.n, _ => [])
  }

  lemma InitialTracked(g: Group, wire: ConnId -> nat)
    requires g.Valid()
    ensures Tracked(g, Initial(g), wire, Empties(g))
  {
    InitialInv(g);
    var s := Initial(g);
    assert forall c :: c in g.jobs ==> !Launched(g, s, c);
  }

  // ---------- results ----------

  /**
    Ids may be reused: in every run in which an operation starts only while no other one with its id
    is open, the queues that the code searches by id hold exactly the states of the operations, and
    the run is one of the model, so that all its guarantees hold.
   */
  lemma ReuseIsSafe(g: Group, wire: ConnId -> nat, acts: seq<Action>, s: State, qs: seq<seq<R.RecvState>>)
    requires g.Valid() && RunOn(g, wire, Initial(g), Empties(g), acts, s, qs)
    ensures Reachable(g, s) && |qs| == |s.receivers| == g.n
    ensures forall d :: 0 <= d < g.n ==> qs[d] == Image(wire, s.receivers[d].queue)
  {
    InitialTracked(g, wire);
    RunTracks(g, wire, Initial(g), Empties(g), acts, s, qs);
  }

  /** Member `d` holds, from every origin, the block that operation `c` has for it. */
  ghost predicate HoldsAll(g: Group, s: State, c: ConnId, d: nat) {
    && c in g.jobs && g.JobValid(c) && d < g.n == |s.receivers| && c in s.receivers[d].conns
    && s.receivers[d].conns[c].buffer == seq(g.n, o requires 0 <= o < g.n => g.jobs[c].blocks[o][d])
  }

  /** In particular, a member whose receive callback has run holds the blocks meant for it. */
  lemma ReuseDelivers(g: Group, wire: ConnId -> nat, acts: seq<Action>, s: State, qs: seq<seq<R.RecvState>>,
                      c: ConnId, d: nat)
    requires g.Valid() && RunOn(g, wire, Initial(g), Empties(g), acts, s, qs) && c in g.jobs && d < g.n
    ensures |s.receivers| == g.n && (R.Occurrences(s.receivers[d].finished, c) > 0 ==> HoldsAll(g, s, c, d))
  {
    ReuseIsSafe(g, wire, acts, s, qs);
    DeliversEverything(g, s, c, d);
  }

  // ---------- progress ----------

  lemma OpenMoves(g: Group, s: State, wire: ConnId -> nat, c: ConnId) returns (a: Action)
    requires g.Valid() && Shape(g, s) && Inv(g, s) && Exclusive(g, s, wire) && c in g.jobs && Open(g, s, c)
    ensures Allowed(g, s, wire, a)
  {
    assert Free(g, s, wire, c);
    if r :| 0 <= r < g.n && !SenderFinished(g, s, c, r) {
      assert SenderOk(g, s, c, r);
      a := SenderMoves(g, s, c, r);
    } else {
      var d :| 0 <= d < g.n && !AllIn(g, s, c, d);
      a := ReceiveMoves(g, s, c, d);
    }
  }

  /** The rule never blocks everything: what is open can go on, and with nothing open anything can start. */
  lemma ReuseNeverStuck(g: Group, s: State, wire: ConnId -> nat) returns (a: Action)
    requires g.Valid() && Shape(g, s) && Inv(g, s) && Exclusive(g, s, wire) && !AllDone(g, s)
    ensures Allowed(g, s, wire, a)
  {
    if c :| c in g.jobs && Open(g, s, c) {
      a := OpenMoves(g, s, wire, c);
    } else if c, r :| c in g.jobs && 0 <= r < g.n && !SenderFinished(g, s, c, r) {
      assert SenderOk(g, s, c, r);
      a := SenderMoves(g, s, c, r);
    } else {
      NothingLeft(g, s);
      assert false;
    }
  }

  lemma NothingLeft(g: Group, s: State)
    requires g.Valid() && Dims(g, s)
    requires forall c :: c in g.jobs ==> !Open(g, s, c)
    requires forall c, r :: c in g.jobs && 0 <= r < g.n ==> SenderFinished(g, s, c, r)
    ensures AllDone(g, s)
  {
    forall c, d | c in g.jobs && 0 <= d < g.n ensures AllIn(g, s, c, d) {
      assert SenderFinished(g, s, c, 0);
      assert Launched(g, s, c);
      assert !Open(g, s, c);
    }
  }

  /** From every state of such a run some continuation that keeps the rule completes every operation. */
  lemma {:induction false} ReuseCanFinish(g: Group, wire: ConnId -> nat, s: State, qs: seq<seq<R.RecvState>>)
    returns (acts: seq<Action>, s': State, qs': seq<seq<R.RecvState>>)
    requires g.Valid() && Tracked(g, s, wire, qs)
    ensures RunOn(g, wire, s, qs, acts, s', qs') && Tracked(g, s', wire, qs') && AllDone(g, s')
    decreases |Todo(g, s)|
  {
    if AllDone(g, s) {
      acts, s', qs' := [], s, qs;
    } else {
      var a := ReuseNeverStuck(g, s, wire);
      StepTracks(g, s, wire, qs, a);
      StepShrinks(g, s, a);
      StrictlySmaller(Todo(g, Do(g, s, a)), Todo(g, s));
      var rest, last, lastQs := ReuseCanFinish(g, wire, Do(g, s, a), DoQueues(g, wire, qs, a));
      acts, s', qs' := [a] + rest, last, lastQs;
      assert acts[1..] == rest;
    }
  }

  // ---------- sequence numbers ----------

  /** The id of a communicator's operation number `k`: after `k` updates. */
  ghost function SequenceId(y: Ids.Layout, comm: nat, k: nat): nat {
    Ids.IdAfter(y, seq(k, _ => Ids.Update(comm)), comm)
  }

  /** The ids of a communicator's operations. */
  ghost function Wire(y: Ids.Layout, comm: nat): ConnId -> nat {
    (j: ConnId) => SequenceId(y, comm, j)
  }

  lemma {:induction false} UpdatesCount(comm: nat, k: nat)
    ensures Ids.Since(seq(k, _ => Ids.Update(comm)), comm) == k
  {
    if k > 0 {
      var h := seq(k, _ => Ids.Update(comm));
      assert h[..k - 1] == seq(k - 1, _ => Ids.Update(comm));
      UpdatesCount(comm, k - 1);
    }
  }

  /** Operations of one communicator that share an id are a window apart at least. */
  lemma WindowApart(y: Ids.Layout, comm: nat, k: nat, k': nat)
    requires k < k' && SequenceId(y, comm, k) == SequenceId(y, comm, k')
    ensures k + Ids.Window(y) <= k'
  {
    UpdatesCount(comm, k);
    UpdatesCount(comm, k');
    Ids.SharedIff(y, seq(k, _ => Ids.Update(comm)), seq(k', _ => Ids.Update(comm)), comm, comm);
    Ids.ModShift(k, k' - k, Ids.Window(y));
    Multiple(k' - k, Ids.Window(y));
  }

  lemma Multiple(x: nat, d: nat)
    requires d > 0 && x > 0 && x % d == 0
    ensures x >= d
  {
  }

  /** Whatever has been launched, operations a window before it are served. */
  ghost predicate Ahead(g: Group, s: State, window: nat)
    requires Dims(g, s)
  {
    forall k, j :: k in g.jobs && j in g.jobs && Launched(g, s, k) && j + window <= k ==> Served(g, s, j)
  }

  /** Operation `k` may be launched: all that come a window before it are served. */
  ghost predicate InWindow(g: Group, s: State, window: nat, k: ConnId)
    requires Dims(g, s)
  {
    forall j :: j in g.jobs && j + window <= k ==> Served(g, s, j)
  }

  lemma AheadStep(g: Group, s: State, s': State, window: nat, a: Action)
    requires Stepped(g, s, s', a) && Ahead(g, s, window) && (a.Launch? ==> InWindow(g, s, window, a.c))
    ensures Ahead(g, s', window)
  {
    forall k, j | k in g.jobs && j in g.jobs && Launched(g, s', k) && j + window <= k ensures Served(g, s', j) {
      LaunchedStep(g, s, s', a, k);
      ServedStays(g, s, s', a, j);
    }
  }

  /** A served operation has been launched by every member. */
  lemma ServedLaunched(g: Group, s: State, k: ConnId, r: nat)
    requires g.Valid() && Inv(g, s) && k in g.jobs && r < g.n && Served(g, s, k)
    ensures s.senders[k][r].Sending?
  {
    assert AllIn(g, s, k, 0);
    InvMessage(g, s, k, r, 0);
    assert !Absent(g, s, k, r, 0);
  }

  lemma InvMessage(g: Group, s: State, c: ConnId, o: nat, d: nat)
    requires g.Valid() && Inv(g, s) && Triple(g, c, o, d)
    ensures !Absent(g, s, c, o, d) ==> s.senders[c][o].Sending?
  {
    assert MessageOk(g, s, c, o, d);
  }

  /**
    When the operations of a communicator carry their sequence numbers, it is enough to launch none
    before those a window back are served: 2048 operations, or 512, may be under way at once.
   */
  lemma WindowIsEnough(g: Group, s: State, y: Ids.Layout, comm: nat, k: ConnId, r: nat)
    requires g.Valid() && Shape(g, s) && Inv(g, s) && Ahead(g, s, Ids.Window(y))
    requires Enabled(g, s, Launch(k, r)) && InWindow(g, s, Ids.Window(y), k)
    ensures Allowed(g, s, Wire(y, comm), Launch(k, r))
  {
    forall j | j in g.jobs && j != k && SequenceId(y, comm, j) == SequenceId(y, comm, k)
      ensures !Open(g, s, j)
    {
      if j < k {
        WindowApart(y, comm, j, k);
      } else {
        WindowApart(y, comm, k, j);
        if Launched(g, s, j) {
          ServedLaunched(g, s, k, r);
        }
      }
    }
  }

  /** A run that launches no operation before those a window back are served. */
  ghost predicate RunInWindow(g: Group, window: nat, s: State, acts: seq<Action>, s': State)
    requires g.Valid()
    decreases |acts|
  {
    if acts == [] then s' == s
    else
      && Shape(g, s) && Dims(g, s) && Enabled(g, s, acts[0])
      && (acts[0].Launch? ==> InWindow(g, s, window, acts[0].c))
      && RunInWindow(g, window, Do(g, s, acts[0]), acts[1..], s')
  }

  lemma {:induction false} WindowRuns(g: Group, y: Ids.Layout, comm: nat, s: State, qs: seq<seq<R.RecvState>>,
                                      acts: seq<Action>, s': State) returns (qs': seq<seq<R.RecvState>>)
    requires g.Valid() && Tracked(g, s, Wire(y, comm), qs) && Ahead(g, s, Ids.Window(y))
    requires RunInWindow(g, Ids.Window(y), s, acts, s')
    ensures RunOn(g, Wire(y, comm), s, qs, acts, s', qs')
    decreases |acts|
  {
    if acts == [] {
      qs' := qs;
    } else {
      var a, wire := acts[0], Wire(y, comm);
      if a.Launch? {
        WindowIsEnough(g, s, y, comm, a.c, a.r);
      }
      EveryStep(g, s, a);
      StepTracks(g, s, wire, qs, a);
      AheadStep(g, s, Do(g, s, a), Ids.Window(y), a);
      qs' := WindowRuns(g, y, comm, Do(g, s, a), DoQueues(g, wire, qs, a), acts[1..], s');
    }
  }

  /** So every such run keeps the rule, and the ids of its sequence numbers never mix operations up. */
  lemma WindowIsSafe(g: Group, y: Ids.Layout, comm: nat, acts: seq<Action>, s: State)
    returns (qs: seq<seq<R.RecvState>>)
    requires g.Valid() && RunInWindow(g, Ids.Window(y), Initial(g), acts, s)
    ensures RunOn(g, Wire(y, comm), Initial(g), Empties(g), acts, s, qs)
    ensures Reachable(g, s) && |qs| == |s.receivers| == g.n
    ensures forall d :: 0 <= d < g.n ==> qs[d] == Image(Wire(y, comm), s.receivers[d].queue)
  {
    InitialTracked(g, Wire(y, comm));
    InitialAhead(g, Ids.Window(y));
    qs := WindowRuns(g, y, comm, Initial(g), Empties(g), acts, s);
    ReuseIsSafe(g, Wire(y, comm), acts, s, qs);
  }

  lemma InitialAhead(g: Group, window: nat)
    requires g.Valid()
    ensures Dims(g, Initial(g)) && Ahead(g, Initial(g), window)
  {
    InitialInv(g);
    var s := Initial(g);
    assert forall c :: c in g.jobs ==> !Launched(g, s, c);
  }

  // ---------- without the rule ----------

  /** A run in which operations start when they like. */
  ghost predicate RunFreely(g: Group, wire: ConnId -> nat, s: State, qs: seq<seq<R.RecvState>>, acts: seq<Action>,
                            s': State, qs': seq<seq<R.RecvState>>)
    requires g.Valid()
    decreases |acts|
  {
    if acts == [] then s' == s && qs' == qs
    else
      && Shape(g, s) && Enabled(g, s, acts[0])
      && RunFreely(g, wire, Do(g, s, acts[0]), DoQueues(g, wire, qs, acts[0]), acts[1..], s', qs')
  }

  /** The one message of operation `c` in a group of one has no data. */
  ghost predicate Hollow(g: Group, c: ConnId)
    requires g.Valid() && c in g.jobs
  {
    assert g.JobValid(c);
    g.n == 1 && g.jobs[c].blocks[0][0] == []
  }

  /** No two operations share an id, except those that never wait: empty ones, in a group of one. */
  ghost predicate Apart(g: Group, wire: ConnId -> nat)
    requires g.Valid()
  {
    forall c, c' :: c in g.jobs && c' in g.jobs && wire(c) == wire(c') && c != c' ==> Hollow(g, c) && Hollow(g, c')
  }

  /** In every run whatever, the queues kept by id follow those kept by operation. */
  ghost predicate AlwaysFollows(g: Group, wire: ConnId -> nat)
    requires g.Valid()
  {
    forall acts, s, qs :: RunFreely(g, wire, Initial(g), Empties(g), acts, s, qs) ==> Follows(g, s, wire, qs)
  }

  /** Hollow operations are never queued. */
  ghost predicate Solid(g: Group, q: seq<R.RecvState>)
    requires g.Valid()
  {
    forall k :: 0 <= k < |q| ==> q[k].connId in g.jobs && !Hollow(g, q[k].connId)
  }

  ghost predicate AllSolid(g: Group, s: State)
    requires g.Valid()
  {
    |s.receivers| == g.n && forall d :: 0 <= d < g.n ==> Solid(g, s.receivers[d].queue)
  }

  lemma ApartOwns(g: Group, wire: ConnId -> nat, q: seq<R.RecvState>, c: ConnId)
    requires g.Valid() && Apart(g, wire) && Solid(g, q) && c in g.jobs
    ensures Own(wire, q, c)
  {
  }

  lemma {:induction false} CountDownSolid(g: Group, q: seq<R.RecvState>, c: ConnId)
    requires g.Valid() && Solid(g, q)
    ensures Solid(g, R.CountDown(q, c))
  {
    if q != [] && q[0].connId != c {
      CountDownSolid(g, q[1..], c);
    }
  }

  /** A message that is all its operation has comes and goes without a trace. */
  lemma {:induction false} NoTrace(q: seq<R.RecvState>, c: ConnId)
    requires R.Find(q, c) == |q|
    ensures R.CountDown(q + [R.RecvState(c, 1)], c) == q
  {
    var longer := q + [R.RecvState(c, 1)];
    if q == [] {
      assert longer == [R.RecvState(c, 1)];
    } else {
      assert longer[0] == q[0] && longer[1..] == q[1..] + [R.RecvState(c, 1)];
      NoTrace(q[1..], c);
    }
  }

  lemma HandledSolid(g: Group, q: seq<R.RecvState>, c: ConnId, now: bool)
    requires g.Valid() && Solid(g, q) && c in g.jobs && (Hollow(g, c) ==> now)
    ensures Solid(g, Handled(q, c, g.n, now))
  {
    if Hollow(g, c) {
      if R.Find(q, c) == |q| {
        NoTrace(q, c);
      }
    } else if now {
      CountDownSolid(g, Found(q, c, g.n), c);
    }
  }

  lemma SolidStep(g: Group, s: State, s': State, wire: ConnId -> nat, a: Action)
    requires g.Valid() && AllSolid(g, s) && QueueStep(g, s, s', wire, a)
    requires a.Deliver? ==> a.p.origin < g.n && a.p.dest < g.n && a.p.data == BlockOf(g, a.p.c, a.p.origin, a.p.dest)
    ensures AllSolid(g, s')
  {
    match a
    case Deliver(p, immediate) => HandledSolid(g, s.receivers[p.dest].queue, p.c, |p.data| == 0 || immediate);
    case Lands(c, _, d) => CountDownSolid(g, s.receivers[d].queue, c);
    case _ =>
  }

  ghost function BlockOf(g: Group, c: ConnId, o: nat, d: nat): Block
    requires g.Valid() && o < g.n && d < g.n
  {
    if c in g.jobs then assert g.JobValid(c); g.jobs[c].blocks[o][d] else []
  }

  lemma ApartDeliver(g: Group, s: State, wire: ConnId -> nat, p: Packet, immediate: bool)
    requires g.Valid() && Shape(g, s) && Inv(g, s) && AllSolid(g, s) && Apart(g, wire) && p in s.net
    ensures QueueStep(g, s, DoDeliver(g, s, p, immediate), wire, Deliver(p, immediate))
    ensures p.origin < g.n && p.dest < g.n && p.data == BlockOf(g, p.c, p.origin, p.dest)
  {
    DeliverQueue(g, s, p, immediate);
    PacketIsBlock(g, s, p);
    ApartOwns(g, wire, s.receivers[p.dest].queue, p.c);
  }

  lemma PacketIsBlock(g: Group, s: State, p: Packet)
    requires g.Valid() && Inv(g, s) && p in s.net
    ensures p.origin < g.n && p.dest < g.n && p.data == BlockOf(g, p.c, p.origin, p.dest)
  {
    assert PacketOk(g, s, p);
  }

  lemma ApartLands(g: Group, s: State, wire: ConnId -> nat, c: ConnId, o: nat, d: nat)
    requires g.Valid() && Shape(g, s) && Inv(g, s) && AllSolid(g, s) && Apart(g, wire) && Enabled(g, s, Lands(c, o, d))
    ensures QueueStep(g, s, Do(g, s, Lands(c, o, d)), wire, Lands(c, o, d))
  {
    LandsQueue(g, s, c, o, d);
    ApartOwns(g, wire, s.receivers[d].queue, c);
  }

  lemma ApartQueueStep(g: Group, s: State, wire: ConnId -> nat, a: Action)
    requires g.Valid() && Shape(g, s) && Inv(g, s) && AllSolid(g, s) && Apart(g, wire) && Enabled(g, s, a)
    ensures QueueStep(g, s, Do(g, s, a), wire, a)
    ensures a.Deliver? ==> a.p.origin < g.n && a.p.dest < g.n && a.p.data == BlockOf(g, a.p.c, a.p.origin, a.p.dest)
  {
    match a
    case Deliver(p, immediate) => ApartDeliver(g, s, wire, p, immediate);
    case Lands(c, o, d) => ApartLands(g, s, wire, c, o, d);
    case _ =>
      EveryStep(g, s, a);
      QuietQueueStep(g, s, Do(g, s, a), wire, a);
  }

  lemma {:induction false} ApartFollows(g: Group, wire: ConnId -> nat, s: State, qs: seq<seq<R.RecvState>>,
                                        acts: seq<Action>, s': State, qs': seq<seq<R.RecvState>>)
    requires g.Valid() && Apart(g, wire) && Shape(g, s) && Inv(g, s) && AllSolid(g, s) && Follows(g, s, wire, qs)
    requires RunFreely(g, wire, s, qs, acts, s', qs')
    ensures Follows(g, s', wire, qs')
    decreases |acts|
  {
    if acts != [] {
      var a := acts[0];
      StepKeeps(g, s, a);
      ApartQueueStep(g, s, wire, a);
      SolidStep(g, s, Do(g, s, a), wire, a);
      FollowsStep(g, s, Do(g, s, a), wire, qs, a);
      ApartFollows(g, wire, Do(g, s, a), DoQueues(g, wire, qs, a), acts[1..], s', qs');
    }
  }

  lemma FreelyPrepend(g: Group, wire: ConnId -> nat, s: State, qs: seq<seq<R.RecvState>>, a: Action, rest: seq<Action>,
                      s': State, qs': seq<seq<R.RecvState>>)
    requires g.Valid() && Shape(g, s) && Enabled(g, s, a)
    requires RunFreely(g, wire, Do(g, s, a), DoQueues(g, wire, qs, a), rest, s', qs')
    ensures RunFreely(g, wire, s, qs, [a] + rest, s', qs')
  {
    assert ([a] + rest)[1..] == rest;
  }

  /** A member that has not launched operation `c` may launch it and send its first message, to itself. */
  lemma FirstPost(g: Group, x: S.Sender)
    requires g.Valid() && x == S.Begin(g.SendConfig(0))
    ensures S.Enabled(g.SendConfig(0), x, S.Post) && S.Target(x) == 0 && g.Permutation(0)[0] == 0 && x.log == []
  {
  }

  lemma LaunchFirst(g: Group, s: State, c: ConnId)
    requires g.Valid() && Shape(g, s) && Inv(g, s) && c in g.jobs && s.senders[c][0].Idle?
    ensures Enabled(g, s, Launch(c, 0))
    ensures var s1 := Do(g, s, Launch(c, 0));
            && Inv(g, s1) && OnlySender(g, s, s1, c, 0) && s1.net == s.net
            && s1.senders[c][0] == Sending(S.Begin(g.SendConfig(0)))
            && Enabled(g, s1, Send(c, 0, S.Post))
  {
    StepKeeps(g, s, Launch(c, 0));
    LaunchSteps(g, s, c, 0);
    FirstPost(g, S.Begin(g.SendConfig(0)));
  }

  lemma PostFirst(g: Group, s: State, c: ConnId)
    requires g.Valid() && Shape(g, s) && Inv(g, s) && c in g.jobs
    requires s.senders[c][0] == Sending(S.Begin(g.SendConfig(0))) && Enabled(g, s, Send(c, 0, S.Post))
    ensures var s1 := Do(g, s, Send(c, 0, S.Post));
            && Inv(g, s1) && OnlySender(g, s, s1, c, 0)
            && s1.net == s.net + multiset{PacketOf(g, c, 0, 0)}
  {
    FirstPost(g, s.senders[c][0].s);
    assert SenderOk(g, s, c, 0);
    PostActs(g, s, c, 0);
    StepKeeps(g, s, Send(c, 0, S.Post));
  }

  /** `s2` is `s` after the launch of `c` by member 0, which leads to `s1`, and its first send. */
  ghost predicate SentFirst(g: Group, s: State, c: ConnId, s1: State, s2: State)
    requires g.Valid()
  {
    && Shape(g, s) && Enabled(g, s, Launch(c, 0)) && s1 == Do(g, s, Launch(c, 0))
    && Enabled(g, s1, Send(c, 0, S.Post)) && s2 == Do(g, s1, Send(c, 0, S.Post))
  }

  /** Both together: the first message of `c` is on the network, and nothing else has changed. */
  lemma SendFirst(g: Group, s: State, c: ConnId) returns (s1: State, s2: State)
    requires g.Valid() && Shape(g, s) && Inv(g, s) && c in g.jobs && s.senders[c][0].Idle?
    ensures SentFirst(g, s, c, s1, s2) && Shape(g, s2) && Inv(g, s2)
    ensures s2.receivers == s.receivers && s2.net == s.net + multiset{PacketOf(g, c, 0, 0)}
    ensures forall c' :: c' in g.jobs && c' != c ==> s2.senders[c'][0] == s.senders[c'][0]
  {
    LaunchFirst(g, s, c);
    s1 := Do(g, s, Launch(c, 0));
    PostFirst(g, s1, c);
    s2 := Do(g, s1, Send(c, 0, S.Post));
    OthersKept(g, s, s1, s2, c);
  }

  lemma OthersKept(g: Group, s: State, s1: State, s2: State, c: ConnId)
    requires OnlySender(g, s, s1, c, 0) && OnlySender(g, s1, s2, c, 0)
    ensures s2.receivers == s.receivers
    ensures forall c' :: c' in g.jobs && c' != c ==> s2.senders[c'][0] == s.senders[c'][0]
  {
  }

  lemma FreelySends(g: Group, wire: ConnId -> nat, s: State, s1: State, s2: State, qs: seq<seq<R.RecvState>>, c: ConnId,
                    rest: seq<Action>, s': State, qs': seq<seq<R.RecvState>>)
    requires g.Valid() && SentFirst(g, s, c, s1, s2) && RunFreely(g, wire, s2, qs, rest, s', qs')
    ensures RunFreely(g, wire, s, qs, [Launch(c, 0)] + ([Send(c, 0, S.Post)] + rest), s', qs')
  {
    FreelyPrepend(g, wire, s1, qs, Send(c, 0, S.Post), rest, s', qs');
    FreelyPrepend(g, wire, s, qs, Launch(c, 0), [Send(c, 0, S.Post)] + rest, s', qs');
  }

  /** The queues after two first messages under one id: fewer states than there should be. */
  lemma ClashingQueues(c: ConnId, c': ConnId, key: nat, n: nat, now: bool)
    requires c != c' && n >= 1 && (n == 1 ==> !now)
    ensures |Handled(Handled([], key, n, now), key, n, true)| < |Handled(Handled([], c, n, now), c', n, true)|
  {
    var left := if now then n - 1 else n;
    Waits(c, n, now);
    Waits(key, n, now);
    var one, two := [R.RecvState(c, left)], [R.RecvState(c, left), R.RecvState(c', n)];
    assert R.Find(one, c') == 1 && Found(one, c', n) == two && two[1..] == [R.RecvState(c', n)];
    assert R.CountDown(two, c') == [two[0]] + R.CountDown([R.RecvState(c', n)], c');
    assert Found([R.RecvState(key, left)], key, n) == [R.RecvState(key, left)];
    assert n > 1 ==> R.CountDown([R.RecvState(c', n)], c') == [R.RecvState(c', n - 1)];
    assert left == 1 ==> R.CountDown([R.RecvState(key, left)], key) == [];
  }

  lemma Waits(c: ConnId, n: nat, now: bool)
    requires n >= 1 && (n == 1 ==> !now)
    ensures Handled([], c, n, now) == [R.RecvState(c, if now then n - 1 else n)]
  {
    assert Found([], c, n) == [R.RecvState(c, n)];
  }

  /** Delivering the first message of `c` to member 0, with its data or before it. */
  lemma DeliverFirst(g: Group, s: State, c: ConnId, immediate: bool) returns (s': State)
    requires g.Valid() && Shape(g, s) && Inv(g, s) && c in g.jobs && PacketOf(g, c, 0, 0) in s.net
    ensures s' == Do(g, s, Deliver(PacketOf(g, c, 0, 0), immediate)) && Shape(g, s') && Inv(g, s')
    ensures |s.receivers| == |s'.receivers| == g.n >= 1
    ensures s'.receivers[0].queue ==
            Handled(s.receivers[0].queue, c, g.n, |PacketOf(g, c, 0, 0).data| == 0 || immediate)
    ensures s'.net == s.net - multiset{PacketOf(g, c, 0, 0)}
  {
    var p := PacketOf(g, c, 0, 0);
    s' := Do(g, s, Deliver(p, immediate));
    StepKeeps(g, s, Deliver(p, immediate));
    DeliverQueue(g, s, p, immediate);
    CanDeliver(g, s, p);
    DeliverDoes(g, s, p, immediate);
  }

  lemma ClashMixes(g: Group, wire: ConnId -> nat, s: State, qs: seq<seq<R.RecvState>>, c: ConnId, c': ConnId, now: bool)
    requires c != c' && |s.receivers| == g.n && |qs| == g.n >= 1 && (g.n == 1 ==> !now)
    requires s.receivers[0].queue == Handled(Handled([], c, g.n, now), c', g.n, true)
    requires qs[0] == Handled(Handled([], wire(c), g.n, now), wire(c), g.n, true)
    ensures !Follows(g, s, wire, qs)
  {
    ClashingQueues(c, c', wire(c), g.n, now);
  }

  /** What two deliveries of packets under one id to member 0 make of the code's queues. */
  lemma ClashInCode(g: Group, wire: ConnId -> nat, p: Packet, p': Packet) returns (qs: seq<seq<R.RecvState>>)
    requires g.n >= 1 && p.dest == p'.dest == 0 && wire(p.c) == wire(p'.c)
    ensures qs == DoQueues(g, wire, DoQueues(g, wire, Empties(g), Deliver(p, false)), Deliver(p', true)) && |qs| == g.n
    ensures qs[0] == Handled(Handled([], wire(p.c), g.n, |p.data| == 0), wire(p.c), g.n, true)
  {
    var q1 := DoQueues(g, wire, Empties(g), Deliver(p, false));
    assert q1[0] == Handled([], wire(p.c), g.n, |p.data| == 0);
    qs := DoQueues(g, wire, q1, Deliver(p', true));
  }

  lemma FreelyDelivers(g: Group, wire: ConnId -> nat, s: State, s1: State, s2: State, p: Packet, p': Packet)
    returns (acts: seq<Action>)
    requires g.Valid() && Shape(g, s) && p in s.net && s1 == Do(g, s, Deliver(p, false))
    requires p' in s1.net && s2 == Do(g, s1, Deliver(p', true))
    ensures RunFreely(g, wire, s, Empties(g), acts, s2,
                      DoQueues(g, wire, DoQueues(g, wire, Empties(g), Deliver(p, false)), Deliver(p', true)))
  {
    var q1 := DoQueues(g, wire, Empties(g), Deliver(p, false));
    var q2 := DoQueues(g, wire, q1, Deliver(p', true));
    assert RunFreely(g, wire, s2, q2, [], s2, q2);
    FreelyPrepend(g, wire, s1, q1, Deliver(p', true), [], s2, q2);
    FreelyPrepend(g, wire, s, Empties(g), Deliver(p, false), [Deliver(p', true)] + [], s2, q2);
    acts := [Deliver(p, false)] + ([Deliver(p', true)] + []);
  }

  lemma FirstPackets(g: Group, c: ConnId, c': ConnId)
    requires g.Valid() && c in g.jobs && c' in g.jobs && c != c' && !Hollow(g, c)
    ensures PacketOf(g, c, 0, 0) != PacketOf(g, c', 0, 0)
    ensures PacketOf(g, c, 0, 0).c == c && PacketOf(g, c', 0, 0).c == c'
    ensures PacketOf(g, c, 0, 0).dest == PacketOf(g, c', 0, 0).dest == 0
    ensures g.n == 1 ==> |PacketOf(g, c, 0, 0).data| != 0
  {
  }

  lemma StillThere(net: multiset<Packet>, p: Packet, p': Packet)
    requires p != p' && p' in net
    ensures p' in net - multiset{p}
  {
  }

  /** The first message of `c` comes without its data, then that of `c'` with it. */
  lemma ClashDeliveries(g: Group, wire: ConnId -> nat, s: State, c: ConnId, c': ConnId)
    returns (acts: seq<Action>, s': State, qs: seq<seq<R.RecvState>>)
    requires g.Valid() && Shape(g, s) && Inv(g, s) && |s.receivers| == g.n && s.receivers[0].queue == []
    requires c in g.jobs && c' in g.jobs && c != c' && wire(c) == wire(c') && !Hollow(g, c)
    requires PacketOf(g, c, 0, 0) in s.net && PacketOf(g, c', 0, 0) in s.net
    ensures RunFreely(g, wire, s, Empties(g), acts, s', qs) && !Follows(g, s', wire, qs)
  {
    var p, p' := PacketOf(g, c, 0, 0), PacketOf(g, c', 0, 0);
    FirstPackets(g, c, c');
    var s1 := DeliverFirst(g, s, c, false);
    StillThere(s.net, p, p');
    s' := DeliverFirst(g, s1, c', true);
    acts := FreelyDelivers(g, wire, s, s1, s', p, p');
    qs := ClashInCode(g, wire, p, p');
    ClashMixes(g, wire, s', qs, c, c', |p.data| == 0);
  }

  /** Two operations that share an id and are not both hollow are mixed up in some run. */
  lemma ClashRun(g: Group, wire: ConnId -> nat, c: ConnId, c': ConnId)
    returns (acts: seq<Action>, s: State, qs: seq<seq<R.RecvState>>)
    requires g.Valid() && c in g.jobs && c' in g.jobs && c != c' && wire(c) == wire(c') && !Hollow(g, c)
    ensures RunFreely(g, wire, Initial(g), Empties(g), acts, s, qs) && !Follows(g, s, wire, qs)
  {
    InitialInv(g);
    var s1, s2 := SendFirst(g, Initial(g), c);
    var s3, s4 := SendFirst(g, s2, c');
    var last, end, ends := ClashDeliveries(g, wire, s4, c, c');
    FreelySends(g, wire, s2, s3, s4, Empties(g), c', last, end, ends);
    var later := [Launch(c', 0)] + ([Send(c', 0, S.Post)] + last);
    FreelySends(g, wire, Initial(g), s1, s2, Empties(g), c, later, end, ends);
    acts, s, qs := [Launch(c, 0)] + ([Send(c, 0, S.Post)] + later), end, ends;
  }

  /**
    Without any rule for starting operations, the queues kept by id follow those kept by operation in
    all runs if and only if no two operations share an id, or those that do never wait.
   */
  lemma AlwaysFollowsIff(g: Group, wire: ConnId -> nat)
    requires g.Valid()
    ensures AlwaysFollows(g, wire) <==> Apart(g, wire)
  {
    if Apart(g, wire) {
      InitialTracked(g, wire);
      assert AllSolid(g, Initial(g));
      forall acts, s, qs | RunFreely(g, wire, Initial(g), Empties(g), acts, s, qs) ensures Follows(g, s, wire, qs) {
        ApartFollows(g, wire, Initial(g), Empties(g), acts, s, qs);
      }
    } else {
      var c, c' :| c in g.jobs && c' in g.jobs && wire(c) == wire(c') && c != c' && !(Hollow(g, c) && Hollow(g, c'));
      var first, second := if Hollow(g, c) then c' else c, if Hollow(g, c) then c else c';
      var acts, s, qs := ClashRun(g, wire, first, second);
    }
  }
}
