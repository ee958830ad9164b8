/**
  The receiving side of many-to-many: one state per connection id, found or created when a message
  arrives and counted down as messages complete. Messages of many operations may be mixed; data
  comes with the header or later; empty messages complete at once.
 */
module ManyToManyReceiver {

  type ConnId = nat
  type Block = seq<bv8>

  /** One operation at one member: the block each participant sends it, and its receive buffer before. */
  datatype Op = Op(sent: seq<Block>, before: seq<Block>)
  {
    /** At least one participant, and slots as long as the blocks that go there. */
    ghost predicate Valid() {
      1 <= |sent| == |before| && forall o :: 0 <= o < |sent| ==> |sent[o]| == |before[o]|
    }
  }

  /** The operations this member takes part in; overlapping ones have different connection ids. */
  type Config = map<ConnId, Op>

  ghost predicate Valid(cfg: Config) {
    forall c :: c in cfg ==> cfg[c].Valid()
  }

  /** How far one origin's message has come. */
  datatype Status = Absent | Announced(data: Block) | Done

  /** The user's receive buffer of one operation, and the messages for it. */
  datatype Conn = Conn(buffer: seq<Block>, status: seq<Status>)

  datatype RecvState = RecvState(connId: ConnId, doneCountDown: int)

  datatype Receiver = Receiver(
    conns: map<ConnId, Conn>,
    queue: seq<RecvState>,     // _m2mRecvQ
    dispatched: seq<ConnId>,   // the calls of the user's dispatch
    finished: seq<ConnId>      // the calls of the user's done callback
  )

  // ---------- what the code does ----------

  /** The first state of connection `c`, or the queue's length. */
  function Find(queue: seq<RecvState>, c: ConnId): (k: nat)
    ensures k <= |queue|
    ensures forall j :: 0 <= j < k ==> queue[j].connId != c
    ensures k < |queue| ==> queue[k].connId == c
  {
    if queue == [] then 0 else if queue[0].connId == c then 0 else 1 + Find(queue[1..], c)
  }

  /** The first half of `handle_m2m`: find the state, or ask the user and queue a new one. */
  function Lookup(s: Receiver, c: ConnId, participants: nat): Receiver {
    if Find(s.queue, c) < |s.queue| then s
    else s.(dispatched := s.dispatched + [c], queue := s.queue + [RecvState(c, participants)])
  }

  /** The queue with the first state of connection `c` counted down, and gone at zero. */
  function CountDown(queue: seq<RecvState>, c: ConnId): seq<RecvState> {
    if queue == [] then []
    else if queue[0].connId != c then [queue[0]] + CountDown(queue[1..], c)
    else if queue[0].doneCountDown == 1 then queue[1..]
    else [RecvState(c, queue[0].doneCountDown - 1)] + queue[1..]
  }

  /** `recvM2mDone` and, on the last message, `ni_client_done` */
  function RecvM2mDone(s: Receiver, c: ConnId): Receiver {
    var k := Find(s.queue, c);
    var last := k < |s.queue| && s.queue[k].doneCountDown == 1;
    s.(queue := CountDown(s.queue, c), finished := if last then s.finished + [c] else s.finished)
  }

  /** The data of `origin` goes to the slot of `origin`. */
  function Store(b: Conn, origin: nat, data: Block): Conn
    requires origin < |b.buffer| == |b.status|
  {
    b.(buffer := if 0 < |data| then b.buffer[origin := data] else b.buffer, status := b.status[origin := Done])
  }

  ghost predicate Shape(cfg: Config, s: Receiver) {
    && s.conns.Keys == cfg.Keys
    && forall c :: c in cfg ==> |s.conns[c].buffer| == |s.conns[c].status| == |cfg[c].sent|
  }

  /** A message may arrive once per participant. */
  ghost predicate CanArrive(cfg: Config, s: Receiver, c: ConnId, origin: nat)
    requires Shape(cfg, s)
  {
    c in cfg && origin < |cfg[c].sent| && s.conns[c].status[origin].Absent?
  }

  /** `handle_m2m`; `immediate` says that the data came with the header. */
  function Arrive(cfg: Config, s: Receiver, c: ConnId, origin: nat, data: Block, immediate: bool): (s': Receiver)
    requires Shape(cfg, s) && CanArrive(cfg, s, c, origin)
    ensures Shape(cfg, s')
  {
    var s1 := Lookup(s, c, |cfg[c].sent|);
    var b := s.conns[c];
    if |data| == 0 || immediate then
      RecvM2mDone(s1.(conns := s.conns[c := Store(b, origin, data)]), c)
    else
      s1.(conns := s.conns[c := b.(status := b.status[origin := Announced(data)])])
  }

  ghost predicate CanLand(cfg: Config, s: Receiver, c: ConnId, origin: nat)
    requires Shape(cfg, s)
  {
    c in cfg && origin < |cfg[c].sent| && s.conns[c].status[origin].Announced?
  }

  /** The announced data is in place, and `recvM2mDone` is called. */
  function Land(cfg: Config, s: Receiver, c: ConnId, origin: nat): (s': Receiver)
    requires Shape(cfg, s) && CanLand(cfg, s, c, origin)
    ensures Shape(cfg, s')
  {
    RecvM2mDone(s.(conns := s.conns[c := Store(s.conns[c], origin, s.conns[c].status[origin].data)]), c)
  }

  /** No operation has begun. */
  function Initial(cfg: Config): (s: Receiver)
    requires Valid(cfg)
    ensures Shape(cfg, s)
  {
    Receiver(map c | c in cfg :: Conn(cfg[c].before, seq(|cfg[c].sent|, _ => Absent)), [], [], [])
  }

  // ---------- one connection's share of the state ----------

  /** The counters of connection `c`'s queued states. */
  ghost function Counters(queue: seq<RecvState>, c: ConnId): seq<int> {
    if queue == [] then []
    else (if queue[0].connId == c then [queue[0].doneCountDown] else []) + Counters(queue[1..], c)
  }

  ghost function Occurrences(log: seq<ConnId>, c: ConnId): nat {
    multiset(log)[c]
  }

  datatype View = View(conn: Conn, counters: seq<int>, dispatches: nat, callbacks: nat)

  ghost function ViewOf(s: Receiver, c: ConnId): View
    requires c in s.conns
  {
    View(s.conns[c], Counters(s.queue, c), Occurrences(s.dispatched, c), Occurrences(s.finished, c))
  }

  function ArrivedCount(st: seq<Status>): nat {
    if st == [] then 0 else (if st[0].Absent? then 0 else 1) + ArrivedCount(st[1..])
  }

  function DoneCount(st: seq<Status>): nat {
    if st == [] then 0 else (if st[0].Done? then 1 else 0) + DoneCount(st[1..])
  }

  /** Each origin's data is in its own slot once it is complete; nothing else has changed. */
  ghost predicate DataOk(op: Op, b: Conn)
    requires op.Valid()
  {
    && |b.buffer| == |b.status| == |op.sent|
    && (forall o :: 0 <= o < |op.sent| ==> b.buffer[o] == if b.status[o].Done? then op.sent[o] else op.before[o])
    && (forall o :: 0 <= o < |op.sent| && b.status[o].Announced? ==> b.status[o].data == op.sent[o])
  }

  /**
    From the first arrival to the last completion the connection has one queued state, which counts
    the messages still to complete. The user's dispatch ran on the first arrival, the callback on
    the last completion.
   */
  ghost predicate ViewOk(op: Op, v: View) {
    var n, arrived, done := |op.sent|, ArrivedCount(v.conn.status), DoneCount(v.conn.status);
    && op.Valid() && DataOk(op, v.conn)
    && v.counters == (if 0 < arrived && done < n then [n - done] else [])
    && v.dispatches == (if 0 < arrived then 1 else 0)
    && v.callbacks == (if done == n then 1 else 0)
  }

  ghost predicate Inv(cfg: Config, s: Receiver) {
    && Valid(cfg) && Shape(cfg, s)
    && forall c :: c in cfg ==> ViewOk(cfg[c], ViewOf(s, c))
  }

  // ---------- counting ----------

  lemma {:induction false} CountsUpdate(st: seq<Status>, o: nat, x: Status)
    requires o < |st|
    ensures ArrivedCount(st[o := x]) ==
            ArrivedCount(st) + (if x.Absent? then 0 else 1) - (if st[o].Absent? then 0 else 1)
    ensures DoneCount(st[o := x]) == DoneCount(st) + (if x.Done? then 1 else 0) - (if st[o].Done? then 1 else 0)
  {
    if o > 0 {
      assert st[o := x][1..] == st[1..][o - 1 := x];
      CountsUpdate(st[1..], o - 1, x);
    }
  }

  lemma {:induction false} CountsBound(st: seq<Status>)
    ensures DoneCount(st) <= ArrivedCount(st) <= |st|
    ensures DoneCount(st) == |st| <==> forall o :: 0 <= o < |st| ==> st[o].Done?
    ensures ArrivedCount(st) == 0 <==> forall o :: 0 <= o < |st| ==> st[o].Absent?
  {
    if st != [] {
      CountsBound(st[1..]);
      assert forall o :: 0 < o < |st| ==> st[o] == st[1..][o - 1];
    }
  }

  // ---------- the queue ----------

  lemma {:induction false} CountersAppend(q: seq<RecvState>, e: RecvState, c: ConnId)
    ensures Counters(q + [e], c) == Counters(q, c) + if e.connId == c then [e.doneCountDown] else []
  {
    if q == [] {
      assert q + [e] == [e];
    } else {
      var h := if q[0].connId == c then [q[0].doneCountDown] else [];
      var t := if e.connId == c then [e.doneCountDown] else [];
      CountersAppend(q[1..], e, c);
      assert (q + [e])[0] == q[0] && (q + [e])[1..] == q[1..] + [e];
      assert h + (Counters(q[1..], c) + t) == (h + Counters(q[1..], c)) + t;
    }
  }

  /** What `Find` finds is the first counter. */
  lemma {:induction false} CountersFind(q: seq<RecvState>, c: ConnId)
    ensures var k := Find(q, c);
            if k == |q| then Counters(q, c) == []
            else Counters(q, c) != [] && Counters(q, c)[0] == q[k].doneCountDown
  {
    if q != [] && q[0].connId != c {
      CountersFind(q[1..], c);
    }
  }

  lemma {:induction false} CountersCountDown(q: seq<RecvState>, c: ConnId, d: ConnId)
    ensures var k := Counters(q, d);
            Counters(CountDown(q, c), d) ==
            if d != c || k == [] then k else if k[0] == 1 then k[1..] else [k[0] - 1] + k[1..]
  {
    if q != [] {
      var q' := CountDown(q, c);
      if q[0].connId != c {
        assert q' == [q[0]] + CountDown(q[1..], c);
        CountersCountDown(q[1..], c, d);
      } else if q[0].doneCountDown != 1 {
        assert q'[1..] == q[1..];
      }
    }
  }

  /** `Lookup` makes sure connection `c` has a state, and leaves all others alone. */
  lemma LookupView(s: Receiver, c: ConnId, n: nat, d: ConnId)
    requires d in s.conns
    ensures var v := ViewOf(s, d);
            ViewOf(Lookup(s, c, n), d) ==
            if d == c && v.counters == [] then v.(counters := [n], dispatches := v.dispatches + 1) else v
  {
    CountersFind(s.queue, c);
    CountersAppend(s.queue, RecvState(c, n), d);
  }

  lemma CountDownOnly(q: seq<RecvState>, c: ConnId)
    requires |Counters(q, c)| == 1
    ensures Find(q, c) < |q| && q[Find(q, c)].doneCountDown == Counters(q, c)[0]
    ensures Counters(CountDown(q, c), c) == if Counters(q, c)[0] == 1 then [] else [Counters(q, c)[0] - 1]
  {
    CountersFind(q, c);
    CountersCountDown(q, c, c);
    assert Counters(q, c)[1..] == [];
  }

  lemma OccurrencesAppend(log: seq<ConnId>, c: ConnId, d: ConnId)
    ensures Occurrences(log + [c], d) == Occurrences(log, d) + if c == d then 1 else 0
  {
  }

  lemma DoneCounters(q: seq<RecvState>, c: ConnId, d: ConnId)
    requires |Counters(q, c)| == 1
    ensures Counters(CountDown(q, c), d) ==
            if d != c then Counters(q, d) else if Counters(q, c)[0] == 1 then [] else [Counters(q, c)[0] - 1]
  {
    if d == c {
      CountDownOnly(q, c);
    } else {
      CountersCountDown(q, c, d);
    }
  }

  lemma DoneFinished(s: Receiver, c: ConnId, d: ConnId)
    requires |Counters(s.queue, c)| == 1
    ensures Occurrences(RecvM2mDone(s, c).finished, d) ==
            Occurrences(s.finished, d) + if d == c && Counters(s.queue, c)[0] == 1 then 1 else 0
  {
    CountersFind(s.queue, c);
    OccurrencesAppend(s.finished, c, d);
  }

  /** `RecvM2mDone` counts connection `c` down, retires it at zero, and leaves all others alone. */
  lemma DoneView(s: Receiver, c: ConnId, d: ConnId)
    requires d in s.conns && |Counters(s.queue, c)| == 1
    ensures ViewOf(RecvM2mDone(s, c), d) == if d == c then Completed(ViewOf(s, c)) else ViewOf(s, d)
  {
    DoneCounters(s.queue, c, d);
    DoneFinished(s, c, d);
  }

  // ---------- preservation ----------

  ghost function Completed(v: View): View {
    if |v.counters| != 1 then v
    else if v.counters[0] == 1 then v.(counters := [], callbacks := v.callbacks + 1)
    else v.(counters := [v.counters[0] - 1])
  }

  /** A header, on one connection's share: dispatch and queue a state first time round. */
  ghost function Heard(n: nat, v: View, origin: nat, data: Block): View
    requires origin < |v.conn.status|
  {
    var v1 := v.(conn := v.conn.(status := v.conn.status[origin := Announced(data)]));
    if v.counters == [] then v1.(counters := [n], dispatches := v.dispatches + 1) else v1
  }

  /** An arrival, on one connection's share: a header and, if the data is here, its completion. */
  ghost function Arrived(n: nat, v: View, origin: nat, data: Block, immediate: bool): View
    requires origin < |v.conn.buffer| == |v.conn.status|
  {
    var v1 := Heard(n, v, origin, data);
    if |data| == 0 || immediate then Completed(v1.(conn := Store(v1.conn, origin, data))) else v1
  }

  lemma ArriveView(cfg: Config, s: Receiver, c: ConnId, origin: nat, data: Block, immediate: bool, d: ConnId)
    requires Shape(cfg, s) && CanArrive(cfg, s, c, origin) && d in cfg && |Counters(s.queue, c)| <= 1
    ensures ViewOf(Arrive(cfg, s, c, origin, data, immediate), d) ==
            if d != c then ViewOf(s, d) else Arrived(|cfg[c].sent|, ViewOf(s, c), origin, data, immediate)
  {
    var n, b := |cfg[c].sent|, s.conns[c];
    LookupView(s, c, n, d);
    LookupView(s, c, n, c);
    if |data| == 0 || immediate {
      assert b.status[origin := Announced(data)][origin := Done] == b.status[origin := Done];
      DoneView(Lookup(s, c, n).(conns := s.conns[c := Store(b, origin, data)]), c, d);
    }
  }

  lemma LandView(cfg: Config, s: Receiver, c: ConnId, origin: nat, d: ConnId)
    requires Shape(cfg, s) && CanLand(cfg, s, c, origin) && d in cfg && |Counters(s.queue, c)| == 1
    ensures var v := ViewOf(s, c);
            ViewOf(Land(cfg, s, c, origin), d) ==
            if d != c then ViewOf(s, d)
            else Completed(v.(conn := Store(v.conn, origin, v.conn.status[origin].data)))
  {
    var b := s.conns[c];
    DoneView(s.(conns := s.conns[c := Store(b, origin, b.status[origin].data)]), c, d);
  }

  lemma StoreOk(op: Op, b: Conn, origin: nat)
    requires op.Valid() && DataOk(op, b) && origin < |op.sent| && !b.status[origin].Done?
    ensures DataOk(op, Store(b, origin, op.sent[origin]))
  {
  }

  lemma LandedOk(op: Op, v: View, origin: nat)
    requires ViewOk(op, v) && origin < |op.sent| && v.conn.status[origin].Announced?
    ensures |v.counters| == 1 && ViewOk(op, Completed(v.(conn := Store(v.conn, origin, v.conn.status[origin].data))))
  {
    StoreOk(op, v.conn, origin);
    CountsBound(v.conn.status);
    CountsUpdate(v.conn.status, origin, Done);
    CountsBound(v.conn.status[origin := Done]);
  }

  lemma HeardOk(op: Op, v: View, origin: nat)
    requires ViewOk(op, v) && origin < |op.sent| && v.conn.status[origin].Absent?
    ensures ViewOk(op, Heard(|op.sent|, v, origin, op.sent[origin]))
  {
    CountsBound(v.conn.status);
    CountsUpdate(v.conn.status, origin, Announced(op.sent[origin]));
  }

  lemma ArrivedOk(op: Op, v: View, origin: nat, immediate: bool)
    requires ViewOk(op, v) && origin < |op.sent| && v.conn.status[origin].Absent?
    ensures ViewOk(op, Arrived(|op.sent|, v, origin, op.sent[origin], immediate))
  {
    HeardOk(op, v, origin);
    LandedOk(op, Heard(|op.sent|, v, origin, op.sent[origin]), origin);
  }

  lemma ArriveKeeps(cfg: Config, s: Receiver, c: ConnId, origin: nat, immediate: bool)
    requires Inv(cfg, s) && CanArrive(cfg, s, c, origin)
    ensures Inv(cfg, Arrive(cfg, s, c, origin, cfg[c].sent[origin], immediate))
  {
    assert ViewOk(cfg[c], ViewOf(s, c));
    ArrivedOk(cfg[c], ViewOf(s, c), origin, immediate);
    forall d | d in cfg
      ensures ViewOk(cfg[d], ViewOf(Arrive(cfg, s, c, origin, cfg[c].sent[origin], immediate), d))
    {
      assert ViewOk(cfg[d], ViewOf(s, d));
      ArriveView(cfg, s, c, origin, cfg[c].sent[origin], immediate, d);
    }
  }

  lemma LandKeeps(cfg: Config, s: Receiver, c: ConnId, origin: nat)
    requires Inv(cfg, s) && CanLand(cfg, s, c, origin)
    ensures Inv(cfg, Land(cfg, s, c, origin))
  {
    assert ViewOk(cfg[c], ViewOf(s, c));
    LandedOk(cfg[c], ViewOf(s, c), origin);
    forall d | d in cfg
      ensures ViewOk(cfg[d], ViewOf(Land(cfg, s, c, origin), d))
    {
      assert ViewOk(cfg[d], ViewOf(s, d));
      LandView(cfg, s, c, origin, d);
    }
  }

  lemma InitialInv(cfg: Config)
    requires Valid(cfg)
    ensures Inv(cfg, Initial(cfg))
  {
    forall c | c in cfg
      ensures ViewOk(cfg[c], ViewOf(Initial(cfg), c))
    {
      CountsBound(Initial(cfg).conns[c].status);
    }
  }

  // ---------- what holds of every run ----------

  datatype Event = Arrives(c: ConnId, origin: nat, immediate: bool) | Lands(c: ConnId, origin: nat)

  ghost predicate Enabled(cfg: Config, s: Receiver, e: Event)
    requires Shape(cfg, s)
  {
    match e
    case Arrives(c, origin, _) => CanArrive(cfg, s, c, origin)
    case Lands(c, origin) => CanLand(cfg, s, c, origin)
  }

  function Do(cfg: Config, s: Receiver, e: Event): (s': Receiver)
    requires Shape(cfg, s) && Enabled(cfg, s, e)
    ensures Shape(cfg, s')
  {
    match e
    case Arrives(c, origin, immediate) => Arrive(cfg, s, c, origin, cfg[c].sent[origin], immediate)
    case Lands(c, origin) => Land(cfg, s, c, origin)
  }

  ghost predicate Run(cfg: Config, s: Receiver, events: seq<Event>, s': Receiver)
    requires Shape(cfg, s)
    decreases |events|
  {
    if events == [] then s' == s
    else Enabled(cfg, s, events[0]) && Run(cfg, Do(cfg, s, events[0]), events[1..], s')
  }

  lemma {:induction false} RunKeeps(cfg: Config, s: Receiver, events: seq<Event>, s': Receiver)
    requires Inv(cfg, s) && Run(cfg, s, events, s')
    ensures Inv(cfg, s')
    decreases |events|
  {
    if events != [] {
      match events[0] {
        case Arrives(c, origin, immediate) => ArriveKeeps(cfg, s, c, origin, immediate);
        case Lands(c, origin) => LandKeeps(cfg, s, c, origin);
      }
      RunKeeps(cfg, Do(cfg, s, events[0]), events[1..], s');
    }
  }

  /**
    What an operation may expect, in terms of its single messages: the dispatch has run once if a
    message came and not otherwise; the callback has run once if all messages are complete and not
    otherwise; the queue holds its one state exactly in between; and every slot holds its origin's
    block if that message is complete, and what it held before if not.
   */
  ghost predicate Served(op: Op, v: View) {
    var st := v.conn.status;
    && |op.sent| == |op.before| == |st| == |v.conn.buffer|
    && v.dispatches == (if exists o :: 0 <= o < |st| && !st[o].Absent? then 1 else 0)
    && v.callbacks == (if forall o :: 0 <= o < |st| ==> st[o].Done? then 1 else 0)
    && (v.counters == [] <==>
          (forall o :: 0 <= o < |st| ==> st[o].Absent?) || (forall o :: 0 <= o < |st| ==> st[o].Done?))
    && |v.counters| <= 1
    && (forall o :: 0 <= o < |st| ==> v.conn.buffer[o] == if st[o].Done? then op.sent[o] else op.before[o])
  }

  lemma ServedOne(op: Op, v: View)
    requires ViewOk(op, v)
    ensures Served(op, v)
  {
    CountsBound(v.conn.status);
  }

  /** Whatever the order in which the messages of all operations come in, every one of them is served. */
  lemma Serves(cfg: Config, events: seq<Event>, s: Receiver, c: ConnId)
    requires Valid(cfg) && Run(cfg, Initial(cfg), events, s) && c in cfg
    ensures c in s.conns && Served(cfg[c], ViewOf(s, c))
  {
    InitialInv(cfg);
    RunKeeps(cfg, Initial(cfg), events, s);
    ServedOne(cfg[c], ViewOf(s, c));
  }

  // ---------- the same, in terms of the events alone ----------

  /** The header of `o`'s message in `c` comes. */
  predicate IsHeader(e: Event, c: ConnId, o: nat) {
    e.Arrives? && e.c == c && e.origin == o
  }

  /** With `e` the data of `o`'s message in `c` is there: it lands, came with the header, or there is none. */
  predicate BringsData(op: Op, e: Event, c: ConnId, o: nat)
    requires o < |op.sent|
  {
    e == Lands(c, o) || e == Arrives(c, o, true) || (e == Arrives(c, o, false) && op.sent[o] == [])
  }

  ghost predicate HeaderCame(events: seq<Event>, c: ConnId, o: nat) {
    exists k :: 0 <= k < |events| && IsHeader(events[k], c, o)
  }

  ghost predicate DataCame(op: Op, events: seq<Event>, c: ConnId, o: nat)
    requires o < |op.sent|
  {
    exists k :: 0 <= k < |events| && BringsData(op, events[k], c, o)
  }

  /** What one event makes of one message. */
  lemma EventStatus(cfg: Config, s: Receiver, e: Event, c: ConnId, o: nat)
    requires Shape(cfg, s) && Enabled(cfg, s, e) && c in cfg && o < |cfg[c].sent|
    ensures Do(cfg, s, e).conns[c].status[o] ==
            if BringsData(cfg[c], e, c, o) then Done
            else if IsHeader(e, c, o) then Announced(cfg[c].sent[o])
            else s.conns[c].status[o]
  {
  }

  lemma {:induction false} EventsStatus(cfg: Config, s: Receiver, events: seq<Event>, s': Receiver, c: ConnId, o: nat)
    requires Shape(cfg, s) && Run(cfg, s, events, s') && c in cfg && o < |cfg[c].sent|
    ensures Shape(cfg, s')
    ensures s'.conns[c].status[o].Done? <==> s.conns[c].status[o].Done? || DataCame(cfg[c], events, c, o)
    ensures !s'.conns[c].status[o].Absent? <==> !s.conns[c].status[o].Absent? || HeaderCame(events, c, o)
    decreases |events|
  {
    if events != [] {
      var e, rest, s1 := events[0], events[1..], Do(cfg, s, events[0]);
      EventStatus(cfg, s, e, c, o);
      EventsStatus(cfg, s1, rest, s', c, o);
      DataLater(cfg[c], events, c, o);
      HeaderLater(events, c, o);
    }
  }

  lemma DataLater(op: Op, events: seq<Event>, c: ConnId, o: nat)
    requires events != [] && o < |op.sent|
    ensures DataCame(op, events, c, o) <==> BringsData(op, events[0], c, o) || DataCame(op, events[1..], c, o)
  {
    if DataCame(op, events[1..], c, o) {
      var k :| 0 <= k < |events[1..]| && BringsData(op, events[1..][k], c, o);
      assert BringsData(op, events[k + 1], c, o);
    }
    if DataCame(op, events, c, o) && !BringsData(op, events[0], c, o) {
      var k :| 0 <= k < |events| && BringsData(op, events[k], c, o);
      assert events[1..][k - 1] == events[k];
    }
  }

  lemma HeaderLater(events: seq<Event>, c: ConnId, o: nat)
    requires events != []
    ensures HeaderCame(events, c, o) <==> IsHeader(events[0], c, o) || HeaderCame(events[1..], c, o)
  {
    if HeaderCame(events[1..], c, o) {
      var k :| 0 <= k < |events[1..]| && IsHeader(events[1..][k], c, o);
      assert IsHeader(events[k + 1], c, o);
    }
    if HeaderCame(events, c, o) && !IsHeader(events[0], c, o) {
      var k :| 0 <= k < |events| && IsHeader(events[k], c, o);
      assert events[1..][k - 1] == events[k];
    }
  }

  /** What an operation may expect after `events`; nothing here depends on what the receiver notes down. */
  ghost predicate ServedBy(op: Op, v: View, events: seq<Event>, c: ConnId) {
    && |v.conn.buffer| == |op.sent| == |op.before|
    && v.dispatches == (if exists o :: 0 <= o < |op.sent| && HeaderCame(events, c, o) then 1 else 0)
    && v.callbacks == (if forall o :: 0 <= o < |op.sent| ==> DataCame(op, events, c, o) then 1 else 0)
    && (forall o :: 0 <= o < |op.sent| ==>
          v.conn.buffer[o] == if DataCame(op, events, c, o) then op.sent[o] else op.before[o])
  }

  /**
    Over any order of headers and data of any number of operations: the dispatch has run once if a
    header of the operation came; the callback once if the data of every origin did, and not before;
    every slot holds its origin's block if its data came, and what it held before if not.
   */
  lemma ServesByEvents(cfg: Config, events: seq<Event>, s: Receiver, c: ConnId)
    requires Valid(cfg) && Run(cfg, Initial(cfg), events, s) && c in cfg
    ensures c in s.conns && ServedBy(cfg[c], ViewOf(s, c), events, c)
  {
    Serves(cfg, events, s, c);
    AgreesFromStart(cfg, events, s, c);
    ByStatus(cfg[c], ViewOf(s, c), events, c);
  }

  /** The receiver's notes agree with the events. */
  ghost predicate Agrees(op: Op, st: seq<Status>, events: seq<Event>, c: ConnId) {
    && |st| == |op.sent|
    && (forall o :: 0 <= o < |st| ==> (st[o].Done? <==> DataCame(op, events, c, o)))
    && (forall o :: 0 <= o < |st| ==> (!st[o].Absent? <==> HeaderCame(events, c, o)))
  }

  lemma AgreesFromStart(cfg: Config, events: seq<Event>, s: Receiver, c: ConnId)
    requires Valid(cfg) && Run(cfg, Initial(cfg), events, s) && c in cfg && c in s.conns
    ensures Agrees(cfg[c], s.conns[c].status, events, c)
  {
    var s0 := Initial(cfg);
    if |cfg[c].sent| > 0 {
      EventsStatus(cfg, s0, events, s, c, 0);
    }
    forall o | 0 <= o < |cfg[c].sent|
      ensures s.conns[c].status[o].Done? <==> DataCame(cfg[c], events, c, o)
      ensures !s.conns[c].status[o].Absent? <==> HeaderCame(events, c, o)
    {
      EventsStatus(cfg, s0, events, s, c, o);
    }
  }

  lemma ByStatus(op: Op, v: View, events: seq<Event>, c: ConnId)
    requires Served(op, v) && Agrees(op, v.conn.status, events, c)
    ensures ServedBy(op, v, events, c)
  {
  }

  // ---------- the same, as code ----------

  /** Counting the last message down takes the state out of the queue ... */
  lemma {:induction false} CountDownRemoves(q: seq<RecvState>, c: ConnId)
    requires Find(q, c) < |q| && q[Find(q, c)].doneCountDown == 1
    ensures CountDown(q, c) == q[..Find(q, c)] + q[Find(q, c) + 1..]
  {
    var k := Find(q, c);
    if k > 0 {
      var t := q[1..];
      CountDownRemoves(t, c);
      assert q[..k] == [q[0]] + t[..k - 1] && q[k + 1..] == t[k..];
      assert [q[0]] + (t[..k - 1] + t[k..]) == ([q[0]] + t[..k - 1]) + t[k..];
    }
  }

  /** ... any other changes it in place. */
  lemma {:induction false} CountDownSets(q: seq<RecvState>, c: ConnId)
    requires Find(q, c) < |q| && q[Find(q, c)].doneCountDown != 1
    ensures CountDown(q, c) == q[Find(q, c) := RecvState(c, q[Find(q, c)].doneCountDown - 1)]
  {
    var k := Find(q, c);
    if k > 0 {
      CountDownSets(q[1..], c);
    }
  }

  lemma FindIs(q: seq<RecvState>, c: ConnId, k: nat)
    requires k <= |q| && (k < |q| ==> q[k].connId == c) && forall j :: 0 <= j < k ==> q[j].connId != c
    ensures Find(q, c) == k
  {
  }

  class ManyToManyRecv {
    var conns: map<ConnId, Conn>
    var queue: seq<RecvState>
    var dispatched: seq<ConnId>
    var finished: seq<ConnId>

    ghost function State(): Receiver
      reads this
    {
      Receiver(conns, queue, dispatched, finished)
    }

    constructor (cfg: Config)
      requires Valid(cfg)
      ensures State() == Initial(cfg)
    {
      conns := map c | c in cfg :: Conn(cfg[c].before, seq(|cfg[c].sent|, _ => Absent));
      queue, dispatched, finished := [], [], [];
    }

    /** The walk along the queue. */
    method FindState(c: ConnId) returns (k: nat)
      ensures k == Find(queue, c)
    {
      k := 0;
      while k < |queue| && queue[k].connId != c
        invariant k <= |queue| && forall j :: 0 <= j < k ==> queue[j].connId != c
      {
        k := k + 1;
      }
      FindIs(queue, c, k);
    }

    method RecvDone(c: ConnId)
      requires Find(queue, c) < |queue|
      modifies this`queue, this`finished
      ensures State() == RecvM2mDone(old(State()), c)
    {
      var k := FindState(c);
      var left := queue[k].doneCountDown - 1;
      if left == 0 {
        CountDownRemoves(queue, c);
        queue := queue[..k] + queue[k + 1..];
        finished := finished + [c];
      } else {
        CountDownSets(queue, c);
        queue := queue[k := RecvState(c, left)];
      }
    }

    /** The data of an announced message is in place; the protocol calls `recvM2mDone`. */
    method DataLanded(cfg: Config, c: ConnId, origin: nat)
      requires Shape(cfg, State()) && CanLand(cfg, State(), c, origin) && Find(queue, c) < |queue|
      modifies this
      ensures State() == Land(cfg, old(State()), c, origin)
    {
      conns := conns[c := Store(conns[c], origin, conns[c].status[origin].data)];
      RecvDone(c);
    }

    method HandleM2m(cfg: Config, c: ConnId, origin: nat, data: Block, immediate: bool)
      requires Shape(cfg, State()) && CanArrive(cfg, State(), c, origin)
      modifies this
      ensures State() == Arrive(cfg, old(State()), c, origin, data, immediate)
      ensures |data| > 0 && !immediate ==>
                && finished == old(finished) && conns[c].buffer == old(conns[c].buffer)
                && conns[c].status == old(conns[c].status)[origin := Announced(data)]
    {
      var k := FindState(c);
      if k == |queue| {
        dispatched := dispatched + [c];
        queue := queue + [RecvState(c, |cfg[c].sent|)];
        FindIs(queue, c, k);
      }
      var b := conns[c];
      if |data| == 0 || immediate {
        if 0 < |data| {
          b := b.(buffer := b.buffer[origin := data]);
        }
        conns := conns[c := b.(status := b.status[origin := Done])];
        RecvDone(c);
      } else {
        conns := conns[c := b.(status := b.status[origin := Announced(data)])];
      }
    }
  }
}
