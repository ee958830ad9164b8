/**
  The allgather as a protocol: `n` executors that follow the same schedule, and a network that may
  read a sender's buffer block by block and again and again until it reports the send done, hold
  headers and data back for as long as it likes, and deliver messages of later phases early, even
  before the receiver has started. A run is any sequence of enabled actions from an initial state.
 */
module AllgatherProtocol {
  import opened Cyclic
  import opened AllgatherSteps
  import opened AllgatherSchedule

  datatype Option<T> = None | Some(value: T)

  /** The group, its schedule, and the block every member contributes. */
  datatype Group = Group(n: nat, dist: seq<nat>, len: seq<nat>, blocks: seq<Block>, blockLen: nat, hasCallback: bool)
  {
    ghost predicate Valid() {
      && Contract(n, dist, len)
      && |blocks| == n
      && forall r :: 0 <= r < n ==> |blocks[r]| == blockLen
    }

    /** The blocks a member holds before phase `p`. */
    function Span(p: nat): nat
      requires p <= |dist|
    {
      if p < |dist| then dist[p] else n
    }

    /** The member whose phase-`p` message goes to `r`. */
    function From(r: nat, p: nat): (s: nat)
      requires Valid() && r < n && p < |dist|
      ensures s < n && To(s, p) == r
    {
      Plus(n, r, dist[p])
    }

    /** The member that gets the phase-`p` message of `r`. */
    function To(r: nat, p: nat): (d: nat)
      requires Valid() && r < n && p < |dist|
      ensures d < n && Plus(n, d, dist[p]) == r
    {
      Minus(n, r, dist[p])
    }

    function Member(r: nat): (c: Config)
      requires Valid() && r < n
      ensures c.Valid()
    {
      Config(n, r, seq(|dist|, p requires 0 <= p < |dist| => [Source(From(r, p), len[p])]), blocks[r], hasCallback)
    }

    /** The gather `start` completes without sending anything. */
    predicate Empty() {
      blockLen == 0 && hasCallback
    }
  }

  /**
    The message of one member in one phase. `payload` is what the network has read so far, `slot`
    where the receiver said the data goes, `written` which blocks have landed there.
   */
  datatype Msg =
    | Unposted
    | Posted(dst: nat, payload: seq<Option<Block>>, sendDone: bool,
             announced: bool, slot: Slot, written: seq<bool>, recvDone: bool)

  datatype State = State(started: seq<bool>, execs: seq<Exec>, msgs: seq<seq<Msg>>)

  datatype Action =
    | Start(r: nat)
    | Capture(r: nat, p: nat, i: nat)
    | SendDone(r: nat, p: nat)
    | Announce(r: nat, p: nat)
    | Write(r: nat, p: nat, i: nat)
    | RecvDone(r: nat, p: nat)

  function Fresh(post: Post): Msg {
    Posted(post.dst, seq(post.len, _ => None), false, false, Slot(0, 0, 0), seq(post.len, _ => false), false)
  }

  ghost predicate MsgShape(g: Group, m: Msg) {
    m.Posted? ==> m.dst < g.n && |m.payload| == |m.written|
  }

  ghost predicate Shape(g: Group, s: State)
    requires g.Valid()
  {
    && |s.started| == |s.execs| == |s.msgs| == g.n
    && (forall r :: 0 <= r < g.n ==> WellFormed(g.Member(r), s.execs[r]) && |s.msgs[r]| == |g.dist|)
    && (forall r, p :: 0 <= r < g.n && 0 <= p < |g.dist| ==> MsgShape(g, s.msgs[r][p]))
  }

  function SetMsg(s: State, r: nat, p: nat, m: Msg): State
    requires r < |s.msgs| && p < |s.msgs[r]|
  {
    s.(msgs := s.msgs[r := s.msgs[r][p := m]])
  }

  /** Member `r` moved to `res.0` and posted `res.1`. */
  function Put(g: Group, s: State, r: nat, res: (Exec, seq<Post>)): (s': State)
    requires g.Valid() && Shape(g, s) && r < g.n
    requires WellFormed(g.Member(r), res.0)
    requires |res.1| <= 1 && (res.1 != [] ==> res.1[0].phase < |g.dist| && res.1[0].dst < g.n)
    ensures Shape(g, s')
  {
    var s1 := s.(execs := s.execs[r := res.0]);
    if res.1 == [] then s1 else SetMsg(s1, r, res.1[0].phase, Fresh(res.1[0]))
  }

  ghost predicate Enabled(g: Group, s: State, a: Action)
    requires g.Valid() && Shape(g, s)
  {
    && a.r < g.n
    && match a
       case Start(r) => !s.started[r]
       case Capture(r, p, i) =>
         p < |g.dist| && var m := s.msgs[r][p]; m.Posted? && i < |m.payload| && !m.sendDone
       case SendDone(r, p) =>
         p < |g.dist| && var m := s.msgs[r][p];
         m.Posted? && !m.sendDone && forall i :: 0 <= i < |m.payload| ==> m.payload[i].Some?
       case Announce(r, p) =>
         p < |g.dist| && var m := s.msgs[r][p]; m.Posted? && !m.announced
       case Write(r, p, i) =>
         p < |g.dist| && var m := s.msgs[r][p];
         m.Posted? && m.announced && !m.recvDone && i < |m.payload| && m.payload[i].Some?
       case RecvDone(r, p) =>
         p < |g.dist| && var m := s.msgs[r][p];
         m.Posted? && m.announced && !m.recvDone && forall i :: 0 <= i < |m.written| ==> m.written[i]
  }

  function Poke(t: seq<Block>, k: nat, b: Block): (t': seq<Block>)
    ensures |t'| == |t|
  {
    if k < |t| then t[k := b] else t
  }

  function DoStart(g: Group, s: State, r: nat): (s': State)
    requires g.Valid() && Shape(g, s) && Enabled(g, s, Start(r))
    ensures Shape(g, s')
  {
    Put(g, s.(started := s.started[r := true]), r, AllgatherSteps.Start(g.Member(r), s.execs[r]))
  }

  /** The network reads block `i` of the buffer being sent, as it is now. */
  function DoCapture(g: Group, s: State, r: nat, p: nat, i: nat): (s': State)
    requires g.Valid() && Shape(g, s) && Enabled(g, s, Capture(r, p, i))
    ensures Shape(g, s')
  {
    var m := s.msgs[r][p];
    if i < |s.execs[r].tmp| then SetMsg(s, r, p, m.(payload := m.payload[i := Some(s.execs[r].tmp[i])])) else s
  }

  function DoSendDone(g: Group, s: State, r: nat, p: nat): (s': State)
    requires g.Valid() && Shape(g, s) && Enabled(g, s, SendDone(r, p))
    ensures Shape(g, s')
  {
    var s1 := SetMsg(s, r, p, s.msgs[r][p].(sendDone := true));
    if s.execs[r].curPhase < |g.dist| then Put(g, s1, r, NotifySendDone(g.Member(r), s.execs[r])) else s1
  }

  /** The header arrives; the receiver says where the data goes. */
  function DoAnnounce(g: Group, s: State, r: nat, p: nat): (s': State)
    requires g.Valid() && Shape(g, s) && Enabled(g, s, Announce(r, p))
    ensures Shape(g, s')
  {
    var m := s.msgs[r][p];
    var (e, sindex) := NotifyRecv(g.Member(m.dst), s.execs[m.dst], r, p);
    SetMsg(s.(execs := s.execs[m.dst := e]), r, p, m.(announced := true, slot := e.recvs[p].slots[sindex]))
  }

  /** Block `i` of the data lands. */
  function DoWrite(g: Group, s: State, r: nat, p: nat, i: nat): (s': State)
    requires g.Valid() && Shape(g, s) && Enabled(g, s, Write(r, p, i))
    ensures Shape(g, s')
  {
    var m := s.msgs[r][p];
    var e := s.execs[m.dst];
    SetMsg(s.(execs := s.execs[m.dst := e.(tmp := Poke(e.tmp, m.slot.offset + i, m.payload[i].value))]),
           r, p, m.(written := m.written[i := true]))
  }

  function DoRecvDone(g: Group, s: State, r: nat, p: nat): (s': State)
    requires g.Valid() && Shape(g, s) && Enabled(g, s, RecvDone(r, p))
    ensures Shape(g, s')
  {
    var m := s.msgs[r][p];
    Put(g, SetMsg(s, r, p, m.(recvDone := true)), m.dst, NotifyRecvDone(g.Member(m.dst), s.execs[m.dst], p))
  }

  function Do(g: Group, s: State, a: Action): (s': State)
    requires g.Valid() && Shape(g, s) && Enabled(g, s, a)
    ensures Shape(g, s')
  {
    match a
    case Start(r) => DoStart(g, s, r)
    case Capture(r, p, i) => DoCapture(g, s, r, p, i)
    case SendDone(r, p) => DoSendDone(g, s, r, p)
    case Announce(r, p) => DoAnnounce(g, s, r, p)
    case Write(r, p, i) => DoWrite(g, s, r, p, i)
    case RecvDone(r, p) => DoRecvDone(g, s, r, p)
  }

  /** Nothing is posted or configured; buffers and the send counter hold anything. */
  ghost predicate Init(g: Group, s: State)
    requires g.Valid()
  {
    && Shape(g, s)
    && (forall r :: 0 <= r < g.n ==>
          && !s.started[r] && s.execs[r].curPhase == 0 && s.execs[r].callbacks == 0
          && (forall j :: 0 <= j < g.n ==> |s.execs[r].out[j]| == g.blockLen))
    && (forall r, p :: 0 <= r < g.n && 0 <= p < |g.dist| ==>
          s.msgs[r][p] == Unposted && s.execs[r].recvs[p] == PhaseRecv(false, 0, 0, []))
  }

  /** `s` leads to `s'` by the actions `acts`, each enabled when it is taken. */
  ghost predicate Run(g: Group, s: State, acts: seq<Action>, s': State)
    requires g.Valid() && Shape(g, s)
    decreases |acts|
  {
    if acts == [] then s' == s
    else Enabled(g, s, acts[0]) && Run(g, Do(g, s, acts[0]), acts[1..], s')
  }
}
