/** What every step of the composed many-to-many keeps, and what follows for whole runs. */
module AllToAllCorrect {
  import opened AllToAll
  import S = PacedSender
  import R = ManyToManyReceiver

  // ---------- the invariant ----------

  /** The shape alone, which is all the invariant's clauses need to make sense. */
  ghost predicate Dims(g: Group, s: State) {
    && s.senders.Keys == g.jobs.Keys && |s.receivers| == g.n
    && (forall c :: c in g.jobs ==> |s.senders[c]| == g.n)
    && (forall d :: 0 <= d < g.n ==> s.receivers[d].conns.Keys == g.jobs.Keys)
    && (forall c, d :: c in g.jobs && 0 <= d < g.n ==> |s.receivers[d].conns[c].status| == g.n)
  }

  lemma ShapeDims(g: Group, s: State)
    requires g.Valid() && Shape(g, s)
    ensures Dims(g, s)
  {
    forall d | 0 <= d < g.n
      ensures s.receivers[d].conns.Keys == g.jobs.Keys
      ensures forall c :: c in g.jobs ==> |s.receivers[d].conns[c].status| == g.n
    {
      assert R.Shape(g.RecvConfig(d), s.receivers[d]);
    }
  }

  /** A member, an operation and another member. */
  ghost predicate Triple(g: Group, c: ConnId, o: nat, d: nat) {
    c in g.jobs && o < g.n && d < g.n
  }

  /** The destinations `o` has sent to in operation `c`. */
  ghost function Log(s: State, c: ConnId, o: nat): seq<nat>
    requires c in s.senders && o < |s.senders[c]|
  {
    if s.senders[c][o].Idle? then [] else s.senders[c][o].s.log
  }

  /** The message of `o` in operation `c` has not arrived at `d`. */
  ghost predicate Absent(g: Group, s: State, c: ConnId, o: nat, d: nat)
    requires Dims(g, s) && Triple(g, c, o, d)
  {
    s.receivers[d].conns[c].status[o].Absent?
  }

  ghost predicate SenderOk(g: Group, s: State, c: ConnId, r: nat)
    requires Dims(g, s) && c in g.jobs && r < g.n
  {
    s.senders[c][r].Sending? ==> S.Inv(g.SendConfig(r), s.senders[c][r].s)
  }

  ghost function PacketOf(g: Group, c: ConnId, o: nat, d: nat): Packet
    requires g.Valid() && Triple(g, c, o, d)
  {
    assert g.JobValid(c);
    Packet(c, o, d, g.jobs[c].blocks[o][d])
  }

  /** Sent and not yet arrived. */
  ghost predicate InFlight(g: Group, s: State, c: ConnId, o: nat, d: nat)
    requires Dims(g, s) && Triple(g, c, o, d)
  {
    d in Log(s, c, o) && Absent(g, s, c, o, d)
  }

  /** What is on the network is a message in flight, unaltered, and there once. */
  ghost predicate PacketOk(g: Group, s: State, p: Packet)
    requires g.Valid() && Dims(g, s)
  {
    && Triple(g, p.c, p.origin, p.dest) && p == PacketOf(g, p.c, p.origin, p.dest)
    && InFlight(g, s, p.c, p.origin, p.dest) && s.net[p] == 1
  }

  /** A message is on the network as long as it is in flight; what has arrived was sent. */
  ghost predicate MessageOk(g: Group, s: State, c: ConnId, o: nat, d: nat)
    requires g.Valid() && Dims(g, s) && Triple(g, c, o, d)
  {
    && (InFlight(g, s, c, o, d) ==> PacketOf(g, c, o, d) in s.net)
    && (!Absent(g, s, c, o, d) ==> d in Log(s, c, o))
  }

  ghost predicate NetOk(g: Group, s: State)
    requires g.Valid()
  {
    && Dims(g, s)
    && (forall p :: p in s.net ==> PacketOk(g, s, p))
    && (forall c: ConnId, o: nat, d: nat :: Triple(g, c, o, d) ==> MessageOk(g, s, c, o, d))
  }

  ghost predicate Inv(g: Group, s: State)
    requires g.Valid()
  {
    && NetOk(g, s)
    && SendersOk(g, s)
    && ReceiversOk(g, s)
  }

  ghost predicate SendersOk(g: Group, s: State)
    requires Dims(g, s)
  {
    forall c, r :: c in g.jobs && 0 <= r < g.n ==> SenderOk(g, s, c, r)
  }

  ghost predicate ReceiversOk(g: Group, s: State)
    requires g.Valid() && Dims(g, s)
  {
    forall d :: 0 <= d < g.n ==> R.Inv(g.RecvConfig(d), s.receivers[d])
  }

  lemma InitialNet(g: Group)
    requires g.Valid()
    ensures NetOk(g, Initial(g)) && SendersOk(g, Initial(g))
  {
    var s := Initial(g);
    ShapeDims(g, s);
    forall c: ConnId, o: nat, d: nat | Triple(g, c, o, d)
      ensures MessageOk(g, s, c, o, d)
    {
      assert s.senders[c][o].Idle?;
      assert s.receivers[d] == R.Initial(g.RecvConfig(d));
      assert s.receivers[d].conns[c].status[o] == R.Absent;
    }
  }

  lemma InitialInv(g: Group)
    requires g.Valid()
    ensures Inv(g, Initial(g))
  {
    InitialNet(g);
    forall d | 0 <= d < g.n
      ensures R.Inv(g.RecvConfig(d), Initial(g).receivers[d])
    {
      R.InitialInv(g.RecvConfig(d));
    }
  }

  // ---------- the senders ----------

  /** Only `r`'s sender in operation `c` has changed. */
  ghost predicate OnlySender(g: Group, s: State, s': State, c: ConnId, r: nat) {
    && Dims(g, s) && Dims(g, s') && c in g.jobs && r < g.n
    && s'.receivers == s.receivers
    && forall c', r' :: c' in g.jobs && 0 <= r' < g.n && (c', r') != (c, r) ==> s'.senders[c'][r'] == s.senders[c'][r']
  }

  lemma OnlySenderOk(g: Group, s: State, s': State, c: ConnId, r: nat)
    requires OnlySender(g, s, s', c, r) && SendersOk(g, s) && SenderOk(g, s', c, r)
    ensures SendersOk(g, s')
  {
    forall c', r' | c' in g.jobs && 0 <= r' < g.n
      ensures SenderOk(g, s', c', r')
    {
      assert SenderOk(g, s, c', r');
    }
  }

  /** The same has been sent, the same is on the network, and the same has arrived. */
  ghost predicate SameTraffic(g: Group, s: State, s': State) {
    && Dims(g, s) && Dims(g, s') && s'.net == s.net
    && (forall c: ConnId, o: nat :: c in g.jobs && o < g.n ==> Log(s', c, o) == Log(s, c, o))
    && (forall c: ConnId, o: nat, d: nat :: Triple(g, c, o, d) ==> Absent(g, s', c, o, d) == Absent(g, s, c, o, d))
  }

  lemma SameMessage(g: Group, s: State, s': State, c: ConnId, o: nat, d: nat)
    requires g.Valid() && SameTraffic(g, s, s') && Triple(g, c, o, d)
    ensures MessageOk(g, s', c, o, d) == MessageOk(g, s, c, o, d)
    ensures PacketOk(g, s', PacketOf(g, c, o, d)) == PacketOk(g, s, PacketOf(g, c, o, d))
  {
  }

  lemma SameTrafficNet(g: Group, s: State, s': State)
    requires g.Valid() && NetOk(g, s) && SameTraffic(g, s, s')
    ensures NetOk(g, s')
  {
    forall p | p in s'.net
      ensures PacketOk(g, s', p)
    {
      assert PacketOk(g, s, p);
      SameMessage(g, s, s', p.c, p.origin, p.dest);
    }
    forall c: ConnId, o: nat, d: nat | Triple(g, c, o, d)
      ensures MessageOk(g, s', c, o, d)
    {
      assert MessageOk(g, s, c, o, d);
      SameMessage(g, s, s', c, o, d);
    }
  }

  /** A sender that has sent to no new destination leaves the network as it is. */
  lemma SameLogNet(g: Group, s: State, s': State, c: ConnId, r: nat)
    requires g.Valid() && NetOk(g, s) && OnlySender(g, s, s', c, r) && s'.net == s.net
    requires Log(s', c, r) == Log(s, c, r)
    ensures NetOk(g, s')
  {
    OnlySenderTraffic(g, s, s', c, r);
    SameTrafficNet(g, s, s');
  }

  lemma OnlySenderTraffic(g: Group, s: State, s': State, c: ConnId, r: nat)
    requires OnlySender(g, s, s', c, r) && s'.net == s.net && Log(s', c, r) == Log(s, c, r)
    ensures SameTraffic(g, s, s')
  {
  }

  lemma SenderMovedKeeps(g: Group, s: State, s': State, c: ConnId, r: nat)
    requires g.Valid() && Inv(g, s) && OnlySender(g, s, s', c, r) && s'.net == s.net
    requires Log(s', c, r) == Log(s, c, r) && SenderOk(g, s', c, r)
    ensures Inv(g, s')
  {
    SameLogNet(g, s, s', c, r);
    OnlySenderOk(g, s, s', c, r);
  }

  lemma LaunchKeeps(g: Group, s: State, c: ConnId, r: nat)
    requires g.Valid() && Shape(g, s) && Inv(g, s) && Enabled(g, s, Launch(c, r))
    ensures Inv(g, Do(g, s, Launch(c, r)))
  {
    S.BeginInv(g.SendConfig(r));
    SenderMovedKeeps(g, s, Do(g, s, Launch(c, r)), c, r);
  }

  /** Completions and loop exits send nothing. */
  lemma NonPostStep(cfg: S.Config, x: S.Sender, step: S.Step)
    requires S.Inv(cfg, x) && S.Enabled(cfg, x, step) && !step.Post?
    ensures S.Inv(cfg, S.Do(cfg, x, step)) && S.Do(cfg, x, step).log == x.log
  {
    if step.Complete? {
      S.CompleteKeeps(cfg, x);
    } else {
      S.LoopEndKeeps(cfg, x);
    }
  }

  lemma SendActs(g: Group, s: State, c: ConnId, r: nat, step: S.Step)
    requires g.Valid() && Shape(g, s) && Dims(g, s) && Enabled(g, s, Send(c, r, step))
    ensures var s' := DoSend(g, s, c, r, step);
            && OnlySender(g, s, s', c, r)
            && s'.senders[c][r] == Sending(S.Do(g.SendConfig(r), s.senders[c][r].s, step))
            && (!step.Post? ==> s'.net == s.net)
  {
    ShapeDims(g, DoSend(g, s, c, r, step));
  }

  lemma NonPostKeeps(g: Group, s: State, c: ConnId, r: nat, step: S.Step)
    requires g.Valid() && Shape(g, s) && Inv(g, s) && Enabled(g, s, Send(c, r, step)) && !step.Post?
    ensures Inv(g, DoSend(g, s, c, r, step))
  {
    assert SenderOk(g, s, c, r);
    NonPostStep(g.SendConfig(r), s.senders[c][r].s, step);
    SendActs(g, s, c, r, step);
    SenderMovedKeeps(g, s, DoSend(g, s, c, r, step), c, r);
  }

  /** `r` has just sent to `d`, for the first time. */
  ghost predicate Posted(g: Group, s: State, s': State, c: ConnId, r: nat, d: nat) {
    && g.Valid() && OnlySender(g, s, s', c, r) && Triple(g, c, r, d)
    && d !in Log(s, c, r) && Log(s', c, r) == Log(s, c, r) + [d]
    && s'.net == s.net + multiset{PacketOf(g, c, r, d)}
  }

  lemma PostedPacket(g: Group, s: State, s': State, c: ConnId, r: nat, d: nat, p: Packet)
    requires g.Valid() && NetOk(g, s) && Posted(g, s, s', c, r, d) && p in s'.net
    ensures PacketOk(g, s', p)
  {
    assert MessageOk(g, s, c, r, d);
    if p in s.net {
      assert PacketOk(g, s, p);
    }
  }

  lemma PostedMessage(g: Group, s: State, s': State, c: ConnId, r: nat, d: nat, c': ConnId, o': nat, d': nat)
    requires g.Valid() && NetOk(g, s) && Posted(g, s, s', c, r, d) && Triple(g, c', o', d')
    ensures MessageOk(g, s', c', o', d')
  {
    assert MessageOk(g, s, c', o', d');
  }

  lemma PostedNet(g: Group, s: State, s': State, c: ConnId, r: nat, d: nat)
    requires g.Valid() && NetOk(g, s) && Posted(g, s, s', c, r, d)
    ensures NetOk(g, s')
  {
    forall p | p in s'.net
      ensures PacketOk(g, s', p)
    {
      PostedPacket(g, s, s', c, r, d, p);
    }
    forall c': ConnId, o': nat, d': nat | Triple(g, c', o', d')
      ensures MessageOk(g, s', c', o', d')
    {
      PostedMessage(g, s, s', c, r, d, c', o', d');
    }
  }

  /** The destination a `simple` call is made for has not been sent to before. */
  lemma PostIsNew(g: Group, r: nat, x: S.Sender)
    requires r < g.n && S.Inv(g.SendConfig(r), x) && S.Enabled(g.SendConfig(r), x, S.Post)
    ensures S.Target(x) < g.n && g.Permutation(r)[S.Target(x)] !in x.log
    ensures S.DoPost(g.SendConfig(r), x).log == x.log + [g.Permutation(r)[S.Target(x)]]
    ensures S.Inv(g.SendConfig(r), S.DoPost(g.SendConfig(r), x))
  {
    S.PostKeeps(g.SendConfig(r), x);
    PermutationHits(g, r, 0);
  }

  lemma PostActs(g: Group, s: State, c: ConnId, r: nat)
    requires g.Valid() && Shape(g, s) && Dims(g, s) && Enabled(g, s, Send(c, r, S.Post)) && SenderOk(g, s, c, r)
    ensures S.Target(s.senders[c][r].s) < g.n
    ensures Posted(g, s, DoSend(g, s, c, r, S.Post), c, r, g.Permutation(r)[S.Target(s.senders[c][r].s)])
    ensures SenderOk(g, DoSend(g, s, c, r, S.Post), c, r)
  {
    PostIsNew(g, r, s.senders[c][r].s);
    ShapeDims(g, DoSend(g, s, c, r, S.Post));
  }

  lemma PostKeeps(g: Group, s: State, c: ConnId, r: nat)
    requires g.Valid() && Shape(g, s) && Inv(g, s) && Enabled(g, s, Send(c, r, S.Post))
    ensures Inv(g, DoSend(g, s, c, r, S.Post))
  {
    var s', x := DoSend(g, s, c, r, S.Post), s.senders[c][r].s;
    assert SenderOk(g, s, c, r);
    PostActs(g, s, c, r);
    PostedNet(g, s, s', c, r, g.Permutation(r)[S.Target(x)]);
    OnlySenderOk(g, s, s', c, r);
    SameReceivers(g, s, s');
  }

  lemma SameReceivers(g: Group, s: State, s': State)
    requires g.Valid() && Dims(g, s) && Dims(g, s') && s'.receivers == s.receivers && ReceiversOk(g, s)
    ensures ReceiversOk(g, s')
  {
  }

  // ---------- the receivers ----------

  /** What an arrival does to the messages' status. */
  lemma ArriveStatus(cfg: R.Config, s: R.Receiver, c: ConnId, o: nat, data: Block, immediate: bool)
    requires R.Shape(cfg, s) && R.CanArrive(cfg, s, c, o)
    ensures var s' := R.Arrive(cfg, s, c, o, data, immediate);
            && s'.conns.Keys == s.conns.Keys
            && (forall c' :: c' in s.conns && c' != c ==> s'.conns[c'] == s.conns[c'])
            && s'.conns[c].status == s.conns[c].status[o := s'.conns[c].status[o]]
            && !s'.conns[c].status[o].Absent?
  {
  }

  lemma LandStatus(cfg: R.Config, s: R.Receiver, c: ConnId, o: nat)
    requires R.Shape(cfg, s) && R.CanLand(cfg, s, c, o)
    ensures var s' := R.Land(cfg, s, c, o);
            && s'.conns.Keys == s.conns.Keys
            && (forall c' :: c' in s.conns && c' != c ==> s'.conns[c'] == s.conns[c'])
            && s'.conns[c].status == s.conns[c].status[o := R.Done]
  {
  }

  /** Only `d`'s receiver has changed, and of what has arrived there only the message of `o` in `c`. */
  ghost predicate OnlyArrival(g: Group, s: State, s': State, c: ConnId, o: nat, d: nat) {
    && Dims(g, s) && Dims(g, s') && Triple(g, c, o, d)
    && s'.senders == s.senders
    && (forall d' :: 0 <= d' < g.n && d' != d ==> s'.receivers[d'] == s.receivers[d'])
    && (forall c': ConnId, o': nat :: c' in g.jobs && o' < g.n && (c', o') != (c, o) ==>
          Absent(g, s', c', o', d) == Absent(g, s, c', o', d))
  }

  /** A packet has been delivered. */
  ghost predicate Delivered(g: Group, s: State, s': State, p: Packet) {
    && OnlyArrival(g, s, s', p.c, p.origin, p.dest)
    && !Absent(g, s', p.c, p.origin, p.dest) && s'.net == s.net - multiset{p}
  }

  lemma DeliveredMessage(g: Group, s: State, s': State, p: Packet, c: ConnId, o: nat, d: nat)
    requires g.Valid() && Dims(g, s) && p in s.net && PacketOk(g, s, p) && Delivered(g, s, s', p)
    requires Triple(g, c, o, d) && MessageOk(g, s, c, o, d)
    ensures MessageOk(g, s', c, o, d)
  {
    if (c, o, d) != (p.c, p.origin, p.dest) {
      assert Absent(g, s', c, o, d) == Absent(g, s, c, o, d);
      assert PacketOf(g, c, o, d) != p;
    }
  }

  lemma DeliveredPacket(g: Group, s: State, s': State, p: Packet, q: Packet)
    requires g.Valid() && NetOk(g, s) && p in s.net && Delivered(g, s, s', p) && q in s'.net
    ensures PacketOk(g, s', q)
  {
    assert PacketOk(g, s, p) && q in s.net && PacketOk(g, s, q);
    assert q != p;
  }

  lemma DeliveredNet(g: Group, s: State, s': State, p: Packet)
    requires g.Valid() && NetOk(g, s) && p in s.net && Delivered(g, s, s', p)
    ensures NetOk(g, s')
  {
    forall q | q in s'.net
      ensures PacketOk(g, s', q)
    {
      DeliveredPacket(g, s, s', p, q);
    }
    forall c: ConnId, o: nat, d: nat | Triple(g, c, o, d)
      ensures MessageOk(g, s', c, o, d)
    {
      assert PacketOk(g, s, p) && MessageOk(g, s, c, o, d);
      DeliveredMessage(g, s, s', p, c, o, d);
    }
  }

  /** A packet on the network can be delivered: the receiver has room for it and expects that much. */
  lemma CanDeliver(g: Group, s: State, p: Packet)
    requires g.Valid() && Shape(g, s) && Inv(g, s) && p in s.net
    ensures Triple(g, p.c, p.origin, p.dest) && R.Inv(g.RecvConfig(p.dest), s.receivers[p.dest])
    ensures R.CanArrive(g.RecvConfig(p.dest), s.receivers[p.dest], p.c, p.origin)
    ensures p.data == g.RecvConfig(p.dest)[p.c].sent[p.origin]
  {
    assert PacketOk(g, s, p);
  }

  /** `d`'s receiver, and it alone, is now `x`. */
  lemma ReceiverDims(g: Group, s: State, d: nat, x: R.Receiver, net: multiset<Packet>)
    requires Dims(g, s) && d < g.n && x.conns.Keys == g.jobs.Keys
    requires forall c :: c in g.jobs ==> |x.conns[c].status| == g.n
    ensures Dims(g, s.(net := net, receivers := s.receivers[d := x]))
  {
  }

  /** In receiver `x'` only the message of `o` in operation `c` has a new status. */
  ghost predicate OneStatus(g: Group, x: R.Receiver, x': R.Receiver, c: ConnId, o: nat) {
    && x.conns.Keys == x'.conns.Keys == g.jobs.Keys && c in g.jobs && o < g.n
    && (forall c' :: c' in g.jobs ==> |x.conns[c'].status| == |x'.conns[c'].status| == g.n)
    && (forall c' :: c' in g.jobs && c' != c ==> x'.conns[c'] == x.conns[c'])
    && x'.conns[c].status == x.conns[c].status[o := x'.conns[c].status[o]]
  }

  lemma OneStatusOnlyArrival(g: Group, s: State, c: ConnId, o: nat, d: nat, x: R.Receiver, net: multiset<Packet>)
    requires Dims(g, s) && Triple(g, c, o, d) && OneStatus(g, s.receivers[d], x, c, o)
    ensures OnlyArrival(g, s, s.(net := net, receivers := s.receivers[d := x]), c, o, d)
  {
    ReceiverDims(g, s, d, x, net);
  }

  lemma OnlyReceiverOk(g: Group, s: State, d: nat, x: R.Receiver, net: multiset<Packet>)
    requires g.Valid() && Dims(g, s) && ReceiversOk(g, s) && SendersOk(g, s) && d < g.n && R.Inv(g.RecvConfig(d), x)
    ensures var s' := s.(net := net, receivers := s.receivers[d := x]);
            Dims(g, s') && ReceiversOk(g, s') && SendersOk(g, s')
  {
    ReceiverDims(g, s, d, x, net);
    SameSenders(g, s, s.(net := net, receivers := s.receivers[d := x]));
  }

  lemma ArriveOneStatus(g: Group, x: R.Receiver, c: ConnId, o: nat, d: nat, data: Block, immediate: bool)
    requires g.Valid() && Triple(g, c, o, d) && R.Shape(g.RecvConfig(d), x) && R.CanArrive(g.RecvConfig(d), x, c, o)
    ensures var x' := R.Arrive(g.RecvConfig(d), x, c, o, data, immediate);
            OneStatus(g, x, x', c, o) && !x'.conns[c].status[o].Absent?
  {
    ArriveStatus(g.RecvConfig(d), x, c, o, data, immediate);
  }

  /** Delivering a packet keeps the invariant if the receiver it makes of the addressee keeps its own. */
  lemma DeliveredKeeps(g: Group, s: State, p: Packet, x: R.Receiver)
    requires g.Valid() && Inv(g, s) && p in s.net && Triple(g, p.c, p.origin, p.dest)
    requires R.Inv(g.RecvConfig(p.dest), x)
    requires OneStatus(g, s.receivers[p.dest], x, p.c, p.origin) && !x.conns[p.c].status[p.origin].Absent?
    ensures Inv(g, s.(net := s.net - multiset{p}, receivers := s.receivers[p.dest := x]))
  {
    var net := s.net - multiset{p};
    OnlyReceiverOk(g, s, p.dest, x, net);
    OneStatusOnlyArrival(g, s, p.c, p.origin, p.dest, x, net);
    DeliveredNet(g, s, s.(net := net, receivers := s.receivers[p.dest := x]), p);
  }

  lemma DeliverDoes(g: Group, s: State, p: Packet, immediate: bool)
    requires g.Valid() && Shape(g, s) && p in s.net && p.dest < g.n
    requires R.CanArrive(g.RecvConfig(p.dest), s.receivers[p.dest], p.c, p.origin)
    ensures var x := R.Arrive(g.RecvConfig(p.dest), s.receivers[p.dest], p.c, p.origin, p.data, immediate);
            DoDeliver(g, s, p, immediate) == s.(net := s.net - multiset{p}, receivers := s.receivers[p.dest := x])
  {
  }

  lemma DeliverKeeps(g: Group, s: State, p: Packet, immediate: bool)
    requires g.Valid() && Shape(g, s) && Inv(g, s) && p in s.net
    ensures Inv(g, DoDeliver(g, s, p, immediate))
  {
    CanDeliver(g, s, p);
    var cfg, x := g.RecvConfig(p.dest), s.receivers[p.dest];
    R.ArriveKeeps(cfg, x, p.c, p.origin, immediate);
    ArriveOneStatus(g, x, p.c, p.origin, p.dest, p.data, immediate);
    DeliverDoes(g, s, p, immediate);
    DeliveredKeeps(g, s, p, R.Arrive(cfg, x, p.c, p.origin, p.data, immediate));
  }

  /** Completing an announced message makes no difference to what has arrived. */
  lemma LandsAbsent(g: Group, s: State, s': State, c: ConnId, o: nat, d: nat, c': ConnId, o': nat, d': nat)
    requires OnlyArrival(g, s, s', c, o, d) && !Absent(g, s, c, o, d) && !Absent(g, s', c, o, d)
    requires Triple(g, c', o', d')
    ensures Absent(g, s', c', o', d') == Absent(g, s, c', o', d')
  {
    if d' == d && (c', o') != (c, o) {
      assert Absent(g, s', c', o', d) == Absent(g, s, c', o', d);
    }
  }

  lemma LandsNet(g: Group, s: State, s': State, c: ConnId, o: nat, d: nat)
    requires g.Valid() && NetOk(g, s) && OnlyArrival(g, s, s', c, o, d) && s'.net == s.net
    requires !Absent(g, s, c, o, d) && !Absent(g, s', c, o, d)
    ensures NetOk(g, s')
  {
    assert SameTraffic(g, s, s') by {
      forall c': ConnId, o': nat, d': nat | Triple(g, c', o', d')
        ensures Absent(g, s', c', o', d') == Absent(g, s, c', o', d')
      {
        LandsAbsent(g, s, s', c, o, d, c', o', d');
      }
    }
    SameTrafficNet(g, s, s');
  }

  lemma LandOneStatus(g: Group, x: R.Receiver, c: ConnId, o: nat, d: nat)
    requires g.Valid() && d < g.n && R.Shape(g.RecvConfig(d), x) && R.CanLand(g.RecvConfig(d), x, c, o)
    ensures Triple(g, c, o, d) && x.conns.Keys == g.jobs.Keys
    ensures |x.conns[c].status| == g.n && !x.conns[c].status[o].Absent?
    ensures var x' := R.Land(g.RecvConfig(d), x, c, o);
            OneStatus(g, x, x', c, o) && !x'.conns[c].status[o].Absent?
  {
    LandStatus(g.RecvConfig(d), x, c, o);
  }

  lemma LandedKeeps(g: Group, s: State, c: ConnId, o: nat, d: nat, x: R.Receiver)
    requires g.Valid() && Inv(g, s) && Triple(g, c, o, d) && R.Inv(g.RecvConfig(d), x)
    requires OneStatus(g, s.receivers[d], x, c, o) && !Absent(g, s, c, o, d) && !x.conns[c].status[o].Absent?
    ensures Inv(g, s.(net := s.net, receivers := s.receivers[d := x]))
  {
    OnlyReceiverOk(g, s, d, x, s.net);
    OneStatusOnlyArrival(g, s, c, o, d, x, s.net);
    LandsNet(g, s, s.(net := s.net, receivers := s.receivers[d := x]), c, o, d);
  }

  lemma LandsKeeps(g: Group, s: State, c: ConnId, o: nat, d: nat)
    requires g.Valid() && Shape(g, s) && Inv(g, s) && Enabled(g, s, Lands(c, o, d))
    ensures Inv(g, Do(g, s, Lands(c, o, d)))
  {
    var cfg, x := g.RecvConfig(d), s.receivers[d];
    assert R.Inv(cfg, x);
    R.LandKeeps(cfg, x, c, o);
    LandOneStatus(g, x, c, o, d);
    LandedKeeps(g, s, c, o, d, R.Land(cfg, x, c, o));
  }

  lemma SameSenders(g: Group, s: State, s': State)
    requires Dims(g, s) && Dims(g, s') && s'.senders == s.senders && SendersOk(g, s)
    ensures SendersOk(g, s')
  {
    forall c, r | c in g.jobs && 0 <= r < g.n
      ensures SenderOk(g, s', c, r)
    {
      assert SenderOk(g, s, c, r);
    }
  }

  // ---------- runs ----------

  lemma StepKeeps(g: Group, s: State, a: Action)
    requires g.Valid() && Shape(g, s) && Inv(g, s) && Enabled(g, s, a)
    ensures Inv(g, Do(g, s, a))
  {
    match a
    case Launch(c, r) => LaunchKeeps(g, s, c, r);
    case Send(c, r, step) =>
      if step.Post? {
        PostKeeps(g, s, c, r);
      } else {
        NonPostKeeps(g, s, c, r, step);
      }
    case Deliver(p, immediate) => DeliverKeeps(g, s, p, immediate);
    case Lands(c, o, d) => LandsKeeps(g, s, c, o, d);
  }

  lemma {:induction false} RunKeeps(g: Group, s: State, acts: seq<Action>, s': State)
    requires g.Valid() && Shape(g, s) && Inv(g, s) && Run(g, s, acts, s')
    ensures Shape(g, s') && Inv(g, s')
    decreases |acts|
  {
    if acts != [] {
      StepKeeps(g, s, acts[0]);
      RunKeeps(g, Do(g, s, acts[0]), acts[1..], s');
    }
  }
}
