/**
  Many-to-many as a whole: `n` members run any number of overlapping operations, each with the paced
  sender of PacedSender and the counting receiver of ManyToManyReceiver, over a network that loses
  nothing but may reorder everything, hold it back, and deliver to members that have not called yet.
 */
module AllToAll {
  import opened Cyclic
  import S = PacedSender
  import R = ManyToManyReceiver

  type Block = R.Block
  type ConnId = R.ConnId

  /** One operation: `blocks[o][d]` goes from `o` to `d`; `before[d][o]` is what `d`'s slot for `o` held. */
  datatype Job = Job(blocks: seq<seq<Block>>, before: seq<seq<Block>>)

  datatype Group = Group(n: nat, window: nat, jobs: map<ConnId, Job>)
  {
    ghost predicate JobValid(c: ConnId)
      requires c in jobs
    {
      && |jobs[c].blocks| == |jobs[c].before| == n
      && (forall o :: 0 <= o < n ==> |jobs[c].blocks[o]| == |jobs[c].before[o]| == n)
      && (forall o, d :: 0 <= o < n && 0 <= d < n ==> |jobs[c].blocks[o][d]| == |jobs[c].before[d][o]|)
    }

    ghost predicate Valid() {
      1 <= n && 1 <= window && forall c :: c in jobs ==> JobValid(c)
    }

    /** The order in which member `r` visits the others. */
    ghost function Permutation(r: nat): (p: seq<nat>)
      requires r < n
      ensures |p| == n && forall i :: 0 <= i < n ==> p[i] == Plus(n, r, i)
    {
      seq(n, i requires 0 <= i < n => PermutedIndex(n, r, i))
    }

    ghost function SendConfig(r: nat): S.Config
      requires r < n
    {
      S.Config(Permutation(r), window)
    }

    ghost function Operation(c: ConnId, d: nat): (op: R.Op)
      requires Valid() && c in jobs && d < n
      ensures op.Valid() && |op.sent| == n
    {
      R.Op(seq(n, o requires 0 <= o < n => jobs[c].blocks[o][d]), jobs[c].before[d])
    }

    ghost function RecvConfig(d: nat): (cfg: R.Config)
      requires Valid() && d < n
      ensures R.Valid(cfg) && cfg.Keys == jobs.Keys
    {
      map c | c in jobs :: Operation(c, d)
    }
  }

  /** `(size_t)-1` */
  const NO_INDEX: nat := 0xFFFF_FFFF_FFFF_FFFF

  /** `index2PermutedIndex` of a topology of `size` for its member `me`: going back gives the index again. */
  function PermutedIndex(size: nat, me: nat, index: nat): (i: nat)
    requires me < size
    ensures if index < size then i < size && Minus(size, i, me) == index else i == NO_INDEX
  {
    if index < size then
      var moved := index + me;
      if moved < size then moved else moved - size
    else NO_INDEX
  }

  /** The permuted indices are all the indices, each once. */
  lemma PermutationHits(g: Group, r: nat, d: nat)
    requires r < g.n && d < g.n
    ensures d in g.Permutation(r)
    ensures forall i, j :: 0 <= i < g.n && 0 <= j < g.n && g.Permutation(r)[i] == g.Permutation(r)[j] ==> i == j
  {
    assert g.Permutation(r)[Minus(g.n, d, r)] == d;
  }

  datatype Packet = Packet(c: ConnId, origin: nat, dest: nat, data: Block)

  datatype Sending = Idle | Sending(s: S.Sender)

  datatype State = State(senders: map<ConnId, seq<Sending>>, receivers: seq<R.Receiver>, net: multiset<Packet>)

  datatype Action =
    | Launch(c: ConnId, r: nat)
    | Send(c: ConnId, r: nat, step: S.Step)
    | Deliver(p: Packet, immediate: bool)
    | Lands(c: ConnId, origin: nat, dest: nat)

  ghost predicate Shape(g: Group, s: State)
    requires g.Valid()
  {
    && s.senders.Keys == g.jobs.Keys
    && (forall c :: c in g.jobs ==> |s.senders[c]| == g.n)
    && |s.receivers| == g.n
    && (forall d :: 0 <= d < g.n ==> R.Shape(g.RecvConfig(d), s.receivers[d]))
  }

  ghost predicate Enabled(g: Group, s: State, a: Action)
    requires g.Valid() && Shape(g, s)
  {
    match a
    case Launch(c, r) => c in g.jobs && r < g.n && s.senders[c][r].Idle?
    case Send(c, r, step) =>
      c in g.jobs && r < g.n && s.senders[c][r].Sending? && S.Enabled(g.SendConfig(r), s.senders[c][r].s, step)
    case Deliver(p, _) => p in s.net
    case Lands(c, origin, dest) => dest < g.n && R.CanLand(g.RecvConfig(dest), s.receivers[dest], c, origin)
  }

  ghost function SetSender(s: State, c: ConnId, r: nat, x: Sending): State
    requires c in s.senders && r < |s.senders[c]|
  {
    s.(senders := s.senders[c := s.senders[c][r := x]])
  }

  /** One step of `r`'s sender; a `simple` call puts the block for that destination on the network. */
  ghost function DoSend(g: Group, s: State, c: ConnId, r: nat, step: S.Step): (s': State)
    requires g.Valid() && Shape(g, s) && Enabled(g, s, Send(c, r, step))
    ensures Shape(g, s')
  {
    var x := s.senders[c][r].s;
    var x' := S.Do(g.SendConfig(r), x, step);
    var s1 := SetSender(s, c, r, Sending(x'));
    if step.Post? && S.Target(x) < g.n then
      var d := g.Permutation(r)[S.Target(x)];
      s1.(net := s1.net + multiset{Packet(c, r, d, g.jobs[c].blocks[r][d])})
    else s1
  }

  ghost function DoDeliver(g: Group, s: State, p: Packet, immediate: bool): (s': State)
    requires g.Valid() && Shape(g, s) && p in s.net
    ensures Shape(g, s')
  {
    var s1 := s.(net := s.net - multiset{p});
    if p.dest < g.n && R.CanArrive(g.RecvConfig(p.dest), s.receivers[p.dest], p.c, p.origin) then
      var x := R.Arrive(g.RecvConfig(p.dest), s.receivers[p.dest], p.c, p.origin, p.data, immediate);
      s1.(receivers := s.receivers[p.dest := x])
    else s1
  }

  ghost function Do(g: Group, s: State, a: Action): (s': State)
    requires g.Valid() && Shape(g, s) && Enabled(g, s, a)
    ensures Shape(g, s')
  {
    match a
    case Launch(c, r) =>
      SetSender(s, c, r, Sending(S.Begin(g.SendConfig(r))))
    case Send(c, r, step) => DoSend(g, s, c, r, step)
    case Deliver(p, immediate) => DoDeliver(g, s, p, immediate)
    case Lands(c, origin, dest) =>
      s.(receivers := s.receivers[dest := R.Land(g.RecvConfig(dest), s.receivers[dest], c, origin)])
  }

  ghost function Initial(g: Group): (s: State)
    requires g.Valid()
    ensures Shape(g, s)
  {
    State(map c | c in g.jobs :: seq(g.n, _ => Idle),
          seq(g.n, d requires 0 <= d < g.n => R.Initial(g.RecvConfig(d))),
          multiset{})
  }

  ghost predicate Run(g: Group, s: State, acts: seq<Action>, s': State)
    requires g.Valid() && Shape(g, s)
    decreases |acts|
  {
    if acts == [] then s' == s
    else Enabled(g, s, acts[0]) && Run(g, Do(g, s, acts[0]), acts[1..], s')
  }
}
