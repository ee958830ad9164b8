/**
  One executor under a schedule with any number of sources per phase. A header that arrives before
  its phase is entered sets the record's partner count to 1, whatever the number of sources, and
  entering the phase leaves a configured record alone. So such a phase is left after one receive, or
  not at all.

  The machine below is one member's executor in an environment that delivers each source's header
  and then its data once, in any order and as early as it likes, and completes the posted sends.
 */
module AllgatherEarlyArrival {
  import opened Sets
  import opened AllgatherSteps

  datatype State = State(
    e: Exec,
    started: bool,
    sending: nat,               // sends that are posted and not complete
    heard: seq<set<nat>>,       // the sources whose header came, phase by phase
    received: seq<set<nat>>,    // the sources whose data is complete
    early: seq<bool>            // a header came before the phase was entered
  )

  datatype Action = Begin | Header(p: nat, i: nat) | Receive(p: nat, i: nat) | Sent

  /** The gather that `start` completes without sending anything. */
  predicate Empty(c: Config) {
    |c.block| == 0 && c.hasCallback
  }

  function Phases(c: Config): nat {
    |c.sources|
  }

  predicate Entered(c: Config, s: State, p: nat) {
    s.started && !Empty(c) && p <= s.e.curPhase
  }

  predicate Left(c: Config, s: State, p: nat) {
    s.started && !Empty(c) && p < s.e.curPhase
  }

  ghost predicate Shape(c: Config, s: State) {
    && WellFormed(c, s.e)
    && |s.heard| == |s.received| == |s.early| == Phases(c)
    && (s.sending > 0 ==> s.e.curPhase < Phases(c))
  }

  ghost predicate Enabled(c: Config, s: State, a: Action)
    requires Shape(c, s)
  {
    match a
    case Begin => !s.started
    case Header(p, i) => p < Phases(c) && i < |c.sources[p]| && i !in s.heard[p]
    case Receive(p, i) => p < Phases(c) && i in s.heard[p] && i !in s.received[p]
    case Sent => s.sending > 0
  }

  /** The executor moved to `res.0` and posted `res.1`. */
  function Moved(s: State, res: (Exec, seq<Post>), sending: nat): State {
    s.(e := res.0, sending := sending + |res.1|)
  }

  lemma PostsInPhase(c: Config, e: Exec)
    requires WellFormed(c, e)
    ensures |SendNext(c, e).1| > 0 ==> SendNext(c, e).0.curPhase < Phases(c)
    ensures SendNext(c, e).0.curPhase == e.curPhase
  {
  }

  function Do(c: Config, s: State, a: Action): (s': State)
    requires Shape(c, s) && Enabled(c, s, a)
    ensures WellFormed(c, s'.e) && |s'.heard| == |s'.received| == |s'.early| == Phases(c)
  {
    match a
    case Begin => Moved(s.(started := true), Start(c, s.e), 0)
    case Header(p, i) =>
      s.(e := NotifyRecv(c, s.e, c.sources[p][i].rank, p).0,
         heard := s.heard[p := s.heard[p] + {i}],
         early := s.early[p := s.early[p] || !Entered(c, s, p)])
    case Receive(p, i) =>
      Moved(s.(received := s.received[p := s.received[p] + {i}]), NotifyRecvDone(c, s.e, p), s.sending)
    case Sent => Moved(s, NotifySendDone(c, s.e), s.sending - 1)
  }

  ghost predicate Init(c: Config, s: State) {
    && Shape(c, s) && !s.started && s.sending == 0 && s.e.curPhase == 0
    && forall p :: 0 <= p < Phases(c) ==>
         s.heard[p] == {} && s.received[p] == {} && !s.early[p] && s.e.recvs[p] == PhaseRecv(false, 0, 0, [])
  }

  ghost predicate Run(c: Config, s: State, acts: seq<Action>, s': State)
    decreases |acts|
  {
    if acts == [] then s' == s
    else Shape(c, s) && Enabled(c, s, acts[0]) && Run(c, Do(c, s, acts[0]), acts[1..], s')
  }

  // ---------- the invariant ----------

  /** After how many receives the phase is left. */
  function Quota(c: Config, s: State, p: nat): nat
    requires p < |c.sources| && p < |s.early|
  {
    if s.early[p] then 1 else |c.sources[p]|
  }

  /** A phase's record, when the phases below `entered` are entered and the sends of those below `counted` counted. */
  ghost predicate PhaseOk(c: Config, s: State, p: nat, entered: nat, counted: nat)
    requires Shape(c, s) && p < Phases(c)
  {
    var rv, quota := s.e.recvs[p], Quota(c, s, p);
    && s.received[p] <= s.heard[p] <= Below(|c.sources[p]|)
    && (s.heard[p] != {} ==> p < entered || s.early[p])
    && (rv.configured <==> p < entered || s.early[p])
    && rv.doneCount == |s.received[p]| - (if p < counted then quota else 0)
    && (rv.configured ==> rv.partnerCount <= quota && (p >= counted ==> rv.partnerCount == quota))
    && (p < s.e.curPhase ==> |s.received[p]| >= quota)
  }

  ghost predicate PhasesOk(c: Config, s: State, entered: nat, counted: nat)
    requires Shape(c, s)
  {
    forall p :: 0 <= p < Phases(c) ==> PhaseOk(c, s, p, entered, counted)
  }

  /** How many phases are entered, and of how many the sends are counted. */
  function EnteredCount(c: Config, s: State): nat {
    if !s.started || Empty(c) then 0 else if s.e.curPhase < Phases(c) then s.e.curPhase + 1 else s.e.curPhase
  }

  function CountedCount(c: Config, s: State): nat {
    if !s.started || Empty(c) then 0
    else if s.e.curPhase < Phases(c) && s.sending == 0 then s.e.curPhase + 1
    else s.e.curPhase
  }

  ghost predicate ClockOk(c: Config, s: State)
    requires Shape(c, s)
  {
    if !s.started || Empty(c) then s.sending == 0 && s.e.curPhase == 0
    else if s.e.curPhase < Phases(c) then
      && s.e.sendsLeft == s.sending
      && (s.sending == 0 ==> |s.received[s.e.curPhase]| != Quota(c, s, s.e.curPhase))
      && (s.sending == 0 ==> s.e.recvs[s.e.curPhase].partnerCount == Quota(c, s, s.e.curPhase))
    else s.sending == 0 && s.e.curPhase == Phases(c)
  }

  ghost predicate Inv(c: Config, s: State) {
    Shape(c, s) && ClockOk(c, s) && PhasesOk(c, s, EnteredCount(c, s), CountedCount(c, s))
  }

  /** The executor is about to call `sendNext` for its current phase. */
  ghost predicate AtGate(c: Config, s: State) {
    && Shape(c, s) && s.started && !Empty(c) && s.sending == 0
    && s.e.curPhase <= Phases(c) && PhasesOk(c, s, s.e.curPhase, s.e.curPhase)
  }

  lemma InitInv(c: Config, s: State)
    requires Init(c, s)
    ensures Inv(c, s)
  {
  }

  lemma EnterKeeps(c: Config, s: State)
    requires AtGate(c, s)
    ensures Inv(c, Moved(s, SendNext(c, s.e), 0))
  {
    var s', q := Moved(s, SendNext(c, s.e), 0), s.e.curPhase;
    var entered := if q < Phases(c) then q + 1 else q;
    forall p | 0 <= p < Phases(c) ensures PhaseOk(c, s', p, entered, q) {
      assert PhaseOk(c, s, p, q, q);
    }
  }

  lemma BeginKeeps(c: Config, s: State)
    requires Inv(c, s) && Enabled(c, s, Begin)
    ensures Inv(c, Do(c, s, Begin))
  {
    var s' := Do(c, s, Begin);
    if Empty(c) {
      forall p | 0 <= p < Phases(c) ensures PhaseOk(c, s', p, 0, 0) {
        assert PhaseOk(c, s, p, 0, 0);
      }
    } else {
      var gate := s.(started := true, e := s.e.(tmp := s.e.tmp[0 := c.block], curPhase := 0, sendsLeft := 0));
      forall p | 0 <= p < Phases(c) ensures PhaseOk(c, gate, p, 0, 0) {
        assert PhaseOk(c, s, p, 0, 0);
      }
      EnterKeeps(c, gate);
    }
  }

  lemma InvPhase(c: Config, s: State, p: nat)
    requires Inv(c, s) && p < Phases(c)
    ensures PhaseOk(c, s, p, EnteredCount(c, s), CountedCount(c, s))
    ensures Entered(c, s, p) <==> p < EnteredCount(c, s)
  {
  }

  lemma HeaderPhase(c: Config, s: State, p: nat, i: nat, q: nat)
    requires Inv(c, s) && Enabled(c, s, Header(p, i)) && q < Phases(c)
    ensures Shape(c, Do(c, s, Header(p, i)))
    ensures PhaseOk(c, Do(c, s, Header(p, i)), q, EnteredCount(c, s), CountedCount(c, s))
  {
    InvPhase(c, s, q);
    if q == p && Entered(c, s, p) {
      assert s.e.recvs[p].configured;
    }
  }

  lemma HeaderKeeps(c: Config, s: State, p: nat, i: nat)
    requires Inv(c, s) && Enabled(c, s, Header(p, i))
    ensures Inv(c, Do(c, s, Header(p, i)))
  {
    var s' := Do(c, s, Header(p, i));
    var entered, counted := EnteredCount(c, s), CountedCount(c, s);
    forall q | 0 <= q < Phases(c) ensures Shape(c, s') && PhaseOk(c, s', q, entered, counted) {
      HeaderPhase(c, s, p, i, q);
    }
    assert s'.received == s.received && s'.e.curPhase == s.e.curPhase && s'.e.sendsLeft == s.e.sendsLeft;
    if Entered(c, s, p) {
      InvPhase(c, s, p);
      assert s'.e == s.e && s'.early == s.early;
    }
  }

  /** The state in which a receive is noted but the phase has not been left. */
  ghost function NoteReceive(c: Config, s: State, p: nat, i: nat): State
    requires Shape(c, s) && p < Phases(c)
  {
    var rv := s.e.recvs[p].(doneCount := s.e.recvs[p].doneCount + 1);
    s.(received := s.received[p := s.received[p] + {i}], e := s.e.(recvs := s.e.recvs[p := rv]))
  }

  lemma NoteReceivePhases(c: Config, s: State, p: nat, i: nat, entered: nat, counted: nat)
    requires Shape(c, s) && Enabled(c, s, Receive(p, i)) && PhasesOk(c, s, entered, counted)
    ensures Shape(c, NoteReceive(c, s, p, i)) && PhasesOk(c, NoteReceive(c, s, p, i), entered, counted)
  {
    var s' := NoteReceive(c, s, p, i);
    forall q | 0 <= q < Phases(c) ensures PhaseOk(c, s', q, entered, counted) {
      assert PhaseOk(c, s, q, entered, counted);
    }
  }

  /** The quota of the phase is met and its sends are counted: the executor moves on. */
  lemma LeaveKeeps(c: Config, s: State)
    requires Shape(c, s) && s.started && !Empty(c) && s.sending == 0 && s.e.curPhase < Phases(c)
    requires PhasesOk(c, s, s.e.curPhase + 1, s.e.curPhase + 1)
    requires |s.received[s.e.curPhase]| == Quota(c, s, s.e.curPhase)
    ensures Inv(c, Moved(s, NextPhase(c, s.e), 0))
  {
    var next := s.e.curPhase + 1;
    var gate := s.(e := s.e.(curPhase := next, sendsLeft := 0));
    forall p | 0 <= p < Phases(c) ensures PhaseOk(c, gate, p, next, next) {
      assert PhaseOk(c, s, p, next, next);
    }
    EnterKeeps(c, gate);
  }

  /** A receive ends the phase exactly if its sends are counted and it is the last of the quota. */
  lemma ReceiveCounts(c: Config, s: State, p: nat, i: nat)
    requires Inv(c, s) && Enabled(c, s, Receive(p, i))
    ensures s.e.recvs[p].doneCount + 1 == 0 <==>
            && s.started && !Empty(c) && p == s.e.curPhase && s.sending == 0
            && |s.received[p] + {i}| == Quota(c, s, p)
  {
    InvPhase(c, s, p);
    assert |s.received[p] + {i}| == |s.received[p]| + 1;
  }

  lemma ReceiveKeeps(c: Config, s: State, p: nat, i: nat)
    requires Inv(c, s) && Enabled(c, s, Receive(p, i))
    ensures Inv(c, Do(c, s, Receive(p, i)))
  {
    var noted := NoteReceive(c, s, p, i);
    NoteReceivePhases(c, s, p, i, EnteredCount(c, s), CountedCount(c, s));
    ReceiveCounts(c, s, p, i);
    if s.e.recvs[p].doneCount + 1 == 0 {
      LeaveKeeps(c, noted);
    }
  }

  /** The state in which a send is noted as complete. */
  ghost function NoteSent(c: Config, s: State, partners: nat): State
    requires Shape(c, s) && s.sending > 0
  {
    var e, q := s.e, s.e.curPhase;
    var rv := e.recvs[q].(doneCount := e.recvs[q].doneCount - e.recvs[q].partnerCount, partnerCount := partners);
    s.(sending := s.sending - 1,
       e := if s.sending > 1 then e.(sendsLeft := e.sendsLeft - 1)
            else e.(sendsLeft := 0, recvs := e.recvs[q := rv]))
  }

  lemma NoteSentPhase(c: Config, s: State, partners: nat, p: nat)
    requires Inv(c, s) && Enabled(c, s, Sent) && p < Phases(c)
    requires partners <= Quota(c, s, s.e.curPhase)
    ensures Shape(c, NoteSent(c, s, partners))
    ensures PhaseOk(c, NoteSent(c, s, partners), p, EnteredCount(c, s), CountedCount(c, NoteSent(c, s, partners)))
  {
    InvPhase(c, s, p);
    InvPhase(c, s, s.e.curPhase);
  }

  lemma NoteSentPhases(c: Config, s: State, partners: nat)
    requires Inv(c, s) && Enabled(c, s, Sent) && partners <= Quota(c, s, s.e.curPhase)
    ensures Shape(c, NoteSent(c, s, partners))
    ensures PhasesOk(c, NoteSent(c, s, partners), EnteredCount(c, s), CountedCount(c, NoteSent(c, s, partners)))
  {
    var s' := NoteSent(c, s, partners);
    var entered, counted := EnteredCount(c, s), CountedCount(c, s');
    forall p | 0 <= p < Phases(c) ensures Shape(c, s') && PhaseOk(c, s', p, entered, counted) {
      NoteSentPhase(c, s, partners, p);
    }
    NoteSentPhase(c, s, partners, s.e.curPhase);
  }

  /** What the last send of a phase does. */
  lemma SentActs(c: Config, s: State)
    requires Inv(c, s) && Enabled(c, s, Sent)
    ensures var q := s.e.curPhase;
            var rv, quota := s.e.recvs[q], Quota(c, s, q);
            && rv.partnerCount == quota <= |c.sources[q]| && WellFormed(c, NoteSent(c, s, 0).e)
            && Do(c, s, Sent) ==
               if s.sending > 1 || |s.received[q]| != quota then NoteSent(c, s, rv.partnerCount)
               else Moved(NoteSent(c, s, 0), NextPhase(c, NoteSent(c, s, 0).e), 0)
  {
    var q := s.e.curPhase;
    InvPhase(c, s, q);
    var rv := s.e.recvs[q];
    NoteSentPhase(c, s, 0, q);
    var rv' := rv.(doneCount := rv.doneCount - rv.partnerCount);
    assert rv'.(partnerCount := rv.partnerCount) == rv';
  }

  lemma SentKeeps(c: Config, s: State)
    requires Inv(c, s) && Enabled(c, s, Sent)
    ensures Inv(c, Do(c, s, Sent))
  {
    var q := s.e.curPhase;
    SentActs(c, s);
    NoteSentPhases(c, s, s.e.recvs[q].partnerCount);
    NoteSentPhases(c, s, 0);
    if s.sending == 1 && |s.received[q]| == Quota(c, s, q) {
      LeaveKeeps(c, NoteSent(c, s, 0));
    }
  }

  lemma StepKeeps(c: Config, s: State, a: Action)
    requires Inv(c, s) && Enabled(c, s, a)
    ensures Inv(c, Do(c, s, a))
  {
    match a
    case Begin => BeginKeeps(c, s);
    case Header(p, i) => HeaderKeeps(c, s, p, i);
    case Receive(p, i) => ReceiveKeeps(c, s, p, i);
    case Sent => SentKeeps(c, s);
  }

  lemma {:induction false} RunKeeps(c: Config, s: State, acts: seq<Action>, s': State)
    requires Inv(c, s) && Run(c, s, acts, s')
    ensures Inv(c, s')
    decreases |acts|
  {
    if acts != [] {
      StepKeeps(c, s, acts[0]);
      RunKeeps(c, Do(c, s, acts[0]), acts[1..], s');
    }
  }

  // ---------- how a phase is left ----------

  ghost predicate Reachable(c: Config, s: State) {
    exists s0, acts :: Init(c, s0) && Run(c, s0, acts, s)
  }

  lemma ReachableInv(c: Config, s: State)
    requires Reachable(c, s)
    ensures Inv(c, s)
  {
    var s0, acts :| Init(c, s0) && Run(c, s0, acts, s);
    InitInv(c, s0);
    RunKeeps(c, s0, acts, s);
  }

  /** The phase `p` has all it needs. */
  ghost predicate Complete(c: Config, s: State, p: nat)
    requires p < Phases(c) && p < |s.received|
  {
    s.received[p] == Below(|c.sources[p]|)
  }

  lemma SentEffect(c: Config, s: State)
    requires Inv(c, s) && Enabled(c, s, Sent)
    ensures var s', q := Do(c, s, Sent), s.e.curPhase;
            && s'.received == s.received && s'.early == s.early && s'.heard == s.heard && s'.started == s.started
            && s'.e.curPhase == (if s.sending == 1 && |s.received[q]| == Quota(c, s, q) then q + 1 else q)
            && (s'.e.curPhase == q ==> s'.sending == s.sending - 1)
  {
    SentActs(c, s);
    if s.sending == 1 && |s.received[s.e.curPhase]| == Quota(c, s, s.e.curPhase) {
      var e := NoteSent(c, s, 0).e;
      PostsInPhase(c, e.(curPhase := e.curPhase + 1, sendsLeft := 0));
    }
  }

  lemma ReceiveEffect(c: Config, s: State, p: nat, i: nat)
    requires Inv(c, s) && Enabled(c, s, Receive(p, i))
    ensures var s' := Do(c, s, Receive(p, i));
            && s'.received == s.received[p := s.received[p] + {i}] && s'.early == s.early && s'.started == s.started
            && s'.e.curPhase == s.e.curPhase + (if s.e.recvs[p].doneCount + 1 == 0 then 1 else 0)
            && (s'.e.curPhase == s.e.curPhase ==> s'.sending == s.sending)
  {
    if s.e.recvs[p].doneCount + 1 == 0 {
      var e := NoteReceive(c, s, p, i).e;
      PostsInPhase(c, e.(curPhase := e.curPhase + 1, sendsLeft := 0));
    }
  }

  lemma OtherEffect(c: Config, s: State, a: Action)
    requires Inv(c, s) && Enabled(c, s, a) && (a.Begin? || a.Header?)
    ensures Do(c, s, a).e.curPhase == s.e.curPhase && Do(c, s, a).received == s.received
    ensures a.Header? ==> Do(c, s, a).sending == s.sending && Do(c, s, a).started == s.started
    ensures forall p :: 0 <= p < Phases(c) && Entered(c, s, p) ==> Do(c, s, a).early[p] == s.early[p]
  {
    if a.Begin? && !Empty(c) {
      PostsInPhase(c, s.e.(tmp := s.e.tmp[0 := c.block], curPhase := 0, sendsLeft := 0));
    }
  }

  /** A step moves the phase counter by one at most, and then as many receives are in as the quota says. */
  lemma LeavesAtQuota(c: Config, s: State, a: Action)
    requires Inv(c, s) && Enabled(c, s, a)
    ensures var s', p := Do(c, s, a), s.e.curPhase;
            && p <= s'.e.curPhase <= p + 1
            && (s'.e.curPhase == p + 1 ==>
                  && Entered(c, s, p) && p < Phases(c) && s'.early == s.early
                  && (if a == Sent then s.sending == 1 else s.sending == 0)
                  && |s'.received[p]| == Quota(c, s, p))
  {
    match a
    case Sent => SentEffect(c, s);
    case Receive(p, i) =>
      ReceiveEffect(c, s, p, i);
      ReceiveCounts(c, s, p, i);
    case _ => OtherEffect(c, s, a);
  }

  /**
    In every run, of every schedule: when a phase is left its sends are complete, and all of its
    receives are if and only if it has one source or no header for it came before it was entered.
   */
  lemma LeftCompleteIff(c: Config, s: State, a: Action)
    requires Reachable(c, s) && Shape(c, s) && Enabled(c, s, a) && Do(c, s, a).e.curPhase != s.e.curPhase
    ensures var s', p := Do(c, s, a), s.e.curPhase;
            && p < Phases(c) && s'.e.curPhase == p + 1
            && (if a == Sent then s.sending == 1 else s.sending == 0)
            && (Complete(c, s', p) <==> |c.sources[p]| == 1 || !s'.early[p])
  {
    ReachableInv(c, s);
    LeavesAtQuota(c, s, a);
    StepKeeps(c, s, a);
    var s', p := Do(c, s, a), s.e.curPhase;
    InvPhase(c, s', p);
    FullIffCount(s'.received[p], |c.sources[p]|);
  }

  /** More receives are in than the quota of the current phase. */
  ghost predicate Jammed(c: Config, s: State)
    requires Shape(c, s)
  {
    && s.started && !Empty(c) && s.e.curPhase < Phases(c)
    && |s.received[s.e.curPhase]| > Quota(c, s, s.e.curPhase)
  }

  lemma JammedStep(c: Config, s: State, a: Action)
    requires Inv(c, s) && Jammed(c, s) && Enabled(c, s, a)
    ensures Inv(c, Do(c, s, a)) && Jammed(c, Do(c, s, a)) && Do(c, s, a).e.curPhase == s.e.curPhase
  {
    StepKeeps(c, s, a);
    match a
    case Receive(p, i) =>
      ReceiveCounts(c, s, p, i);
      ReceiveEffect(c, s, p, i);
      assert |s.received[p] + {i}| == |s.received[p]| + 1;
    case Header(_, _) => OtherEffect(c, s, a);
    case Sent => SentEffect(c, s);
  }

  /**
    The other way to fail: with more receives in than the quota the executor stays in the phase for
    ever. It takes an early header and several sources.
   */
  lemma {:induction false} JammedForEver(c: Config, s: State, acts: seq<Action>, s': State)
    requires Inv(c, s) && Jammed(c, s) && Run(c, s, acts, s')
    ensures s.early[s.e.curPhase] && |c.sources[s.e.curPhase]| >= 2
    ensures s'.e.curPhase == s.e.curPhase
    decreases |acts|
  {
    InvPhase(c, s, s.e.curPhase);
    FullIffCount(s.received[s.e.curPhase], |c.sources[s.e.curPhase]|);
    if acts != [] {
      JammedStep(c, s, acts[0]);
      JammedForEver(c, Do(c, s, acts[0]), acts[1..], s');
    }
  }

  lemma RunPrepend(c: Config, s: State, a: Action, rest: seq<Action>, s': State)
    requires Shape(c, s) && Enabled(c, s, a) && Run(c, Do(c, s, a), rest, s')
    ensures Run(c, s, [a] + rest, s')
  {
    assert ([a] + rest)[1..] == rest;
  }

  /** The executor is in phase `p`. */
  ghost predicate InPhaseOf(c: Config, s: State, p: nat) {
    Inv(c, s) && s.started && !Empty(c) && s.e.curPhase == p < Phases(c)
  }

  lemma HeaderInPhase(c: Config, s: State, p: nat, i: nat)
    requires InPhaseOf(c, s, p) && Enabled(c, s, Header(p, i))
    ensures var s' := Do(c, s, Header(p, i));
            && InPhaseOf(c, s', p) && s'.sending == s.sending && s'.received == s.received && s'.early == s.early
            && |s'.heard[p]| == |s.heard[p]| + 1
  {
    assert Entered(c, s, p);
    StepKeeps(c, s, Header(p, i));
    OtherEffect(c, s, Header(p, i));
  }

  lemma ReceiveInPhase(c: Config, s: State, p: nat, i: nat)
    requires InPhaseOf(c, s, p) && s.sending == 0 && Enabled(c, s, Receive(p, i))
    ensures var s' := Do(c, s, Receive(p, i));
            && Inv(c, s') && s'.early == s.early && s'.started && s'.received[p] == s.received[p] + {i}
            && s'.e.curPhase == (if |s.received[p] + {i}| == Quota(c, s, p) then p + 1 else p)
            && (s'.e.curPhase == p ==> s'.sending == 0)
  {
    StepKeeps(c, s, Receive(p, i));
    ReceiveCounts(c, s, p, i);
    ReceiveEffect(c, s, p, i);
  }

  /** With its sends complete and receives missing, a phase can still be left. */
  lemma {:induction false} ReceivesLeave(c: Config, s: State, p: nat) returns (acts: seq<Action>, s': State)
    requires InPhaseOf(c, s, p) && s.sending == 0 && |s.received[p]| < Quota(c, s, p)
    ensures Run(c, s, acts, s') && s'.e.curPhase == p + 1
    decreases Quota(c, s, p) - |s.received[p]|, |c.sources[p]| - |s.heard[p]|
  {
    InvPhase(c, s, p);
    FullIffCount(s.received[p], |c.sources[p]|);
    var i :| i in Below(|c.sources[p]|) && i !in s.received[p];
    var a := if i in s.heard[p] then Receive(p, i) else Header(p, i);
    var s1 := Do(c, s, a);
    var rest: seq<Action>, last := [], s1;
    if a.Header? {
      HeaderInPhase(c, s, p, i);
      InvPhase(c, s1, p);
      FullIffCount(s1.heard[p], |c.sources[p]|);
      rest, last := ReceivesLeave(c, s1, p);
    } else {
      ReceiveInPhase(c, s, p, i);
      assert |s.received[p] + {i}| == |s.received[p]| + 1;
      if s1.e.curPhase == p {
        rest, last := ReceivesLeave(c, s1, p);
      }
    }
    RunPrepend(c, s, a, rest, last);
    acts, s' := [a] + rest, last;
  }

  /** As long as no more receives are in than the quota, some continuation leaves the phase. */
  lemma {:induction false} CanLeave(c: Config, s: State, p: nat) returns (acts: seq<Action>, s': State)
    requires InPhaseOf(c, s, p) && |s.received[p]| <= Quota(c, s, p)
    ensures Run(c, s, acts, s') && s'.e.curPhase == p + 1
    decreases s.sending
  {
    if s.sending == 0 {
      acts, s' := ReceivesLeave(c, s, p);
    } else {
      var s1 := Do(c, s, Sent);
      SentEffect(c, s);
      StepKeeps(c, s, Sent);
      if s1.e.curPhase == p + 1 {
        assert Run(c, s1, [], s1);
        RunPrepend(c, s, Sent, [], s1);
        acts, s' := [Sent] + [], s1;
      } else {
        var rest, last := CanLeave(c, s1, p);
        RunPrepend(c, s, Sent, rest, last);
        acts, s' := [Sent] + rest, last;
      }
    }
  }

  /** The run `acts` from `s` ends in another phase than `p`. */
  ghost predicate LeadsOn(c: Config, s: State, p: nat, acts: seq<Action>, s': State) {
    Run(c, s, acts, s') && s'.e.curPhase != p
  }

  ghost predicate Leavable(c: Config, s: State, p: nat) {
    exists acts, s' :: LeadsOn(c, s, p, acts, s')
  }

  /** In every reachable state: some continuation leaves the current phase if and only if it is not jammed. */
  lemma LeavableIff(c: Config, s: State, p: nat)
    requires Reachable(c, s) && Shape(c, s) && s.started && !Empty(c) && s.e.curPhase == p < Phases(c)
    ensures Leavable(c, s, p) <==> |s.received[p]| <= Quota(c, s, p)
  {
    ReachableInv(c, s);
    if |s.received[p]| <= Quota(c, s, p) {
      var acts, s' := CanLeave(c, s, p);
      assert LeadsOn(c, s, p, acts, s');
    } else if Leavable(c, s, p) {
      var acts, s' :| LeadsOn(c, s, p, acts, s');
      JammedForEver(c, s, acts, s');
    }
  }

  // ---------- which schedules are safe ----------

  /** Whenever a phase has been left, all of its receives are in. */
  ghost predicate Safe(c: Config) {
    forall s, p :: Reachable(c, s) && 0 <= p < Phases(c) && p < |s.received| && Left(c, s, p) ==> Complete(c, s, p)
  }

  predicate OneSourceEach(c: Config) {
    forall p :: 0 <= p < |c.sources| ==> |c.sources[p]| == 1
  }

  lemma OneSourceSafe(c: Config, s: State, p: nat)
    requires Reachable(c, s) && OneSourceEach(c) && p < Phases(c) && p < |s.received| && Left(c, s, p)
    ensures Complete(c, s, p)
  {
    ReachableInv(c, s);
    InvPhase(c, s, p);
    FullIffCount(s.received[p], |c.sources[p]|);
  }

  /** Nothing has happened; the buffers hold anything. */
  function Beginning(c: Config): (s: State)
    requires c.Valid()
    ensures Init(c, s)
  {
    var n := Phases(c);
    var blocks := seq(c.n, _ => []);
    State(Exec(0, 0, seq(n, _ => PhaseRecv(false, 0, 0, [])), blocks, blocks, 0), false, 0,
          seq(n, _ => {}), seq(n, _ => {}), seq(n, _ => false))
  }

  /** Phase `p` has one early message, from its first source. */
  ghost predicate OneEarly(s: State, p: nat) {
    p < |s.early| == |s.received| && s.early[p] && s.received[p] == {0}
  }

  ghost predicate AllEarly(s: State, k: nat) {
    forall p :: 0 <= p < k ==> OneEarly(s, p)
  }

  lemma StillEarly(s: State, s': State, k: nat)
    requires AllEarly(s, k) && s'.early == s.early && s'.received == s.received
    ensures AllEarly(s', k)
  {
    forall p | 0 <= p < k ensures OneEarly(s', p) {
      assert OneEarly(s, p);
    }
  }

  lemma {:induction false} RunThen(c: Config, s: State, acts: seq<Action>, s1: State, b: Action)
    requires Run(c, s, acts, s1) && Shape(c, s1) && Enabled(c, s1, b)
    ensures Run(c, s, acts + [b], Do(c, s1, b))
    decreases |acts|
  {
    if acts == [] {
      assert acts + [b] == [b];
      assert [b][1..] == [];
    } else {
      var longer := acts + [b];
      assert longer[0] == acts[0] && longer[1..] == acts[1..] + [b];
      RunThen(c, Do(c, s, acts[0]), acts[1..], s1, b);
    }
  }

  lemma ReachableStep(c: Config, s: State, a: Action)
    requires Reachable(c, s) && Shape(c, s) && Enabled(c, s, a)
    ensures Reachable(c, Do(c, s, a)) && Inv(c, Do(c, s, a))
  {
    var s0, acts :| Init(c, s0) && Run(c, s0, acts, s);
    RunThen(c, s0, acts, s, a);
    ReachableInv(c, Do(c, s, a));
  }

  /** Before the start, one message for phase `q` comes in. */
  lemma OneMoreEarly(c: Config, s: State, q: nat) returns (s': State)
    requires Reachable(c, s) && Shape(c, s) && !s.started && q < Phases(c) && s.heard[q] == {} && s.received[q] == {}
    ensures Reachable(c, s') && Inv(c, s') && !s'.started && OneEarly(s', q) && s'.heard[q] == {0}
    ensures forall p :: 0 <= p < Phases(c) && p != q ==>
              s'.heard[p] == s.heard[p] && s'.received[p] == s.received[p] && s'.early[p] == s.early[p]
  {
    var s1 := Do(c, s, Header(q, 0));
    ReachableStep(c, s, Header(q, 0));
    s' := Do(c, s1, Receive(q, 0));
    ReachableStep(c, s1, Receive(q, 0));
    ReceiveEffect(c, s1, q, 0);
    ReceiveHeard(c, s1, q, 0);
  }

  lemma ReceiveHeard(c: Config, s: State, p: nat, i: nat)
    requires Shape(c, s) && Enabled(c, s, Receive(p, i))
    ensures Do(c, s, Receive(p, i)).heard == s.heard
  {
  }

  lemma {:induction false} EarlyUpTo(c: Config, q: nat) returns (s: State)
    requires c.Valid() && q <= Phases(c)
    ensures Reachable(c, s) && Inv(c, s) && !s.started && AllEarly(s, q)
    ensures forall p :: q <= p < Phases(c) ==> s.heard[p] == {} && s.received[p] == {}
  {
    if q == 0 {
      s := Beginning(c);
      InitInv(c, s);
      assert Run(c, s, [], s);
    } else {
      var s1 := EarlyUpTo(c, q - 1);
      s := OneMoreEarly(c, s1, q - 1);
      forall p | 0 <= p < q ensures OneEarly(s, p) {
        assert p < q - 1 ==> OneEarly(s1, p);
      }
    }
  }

  /** With one early message in each phase below `t`, completing sends is enough to reach phase `t`. */
  lemma {:induction false} SendsReach(c: Config, s: State, t: nat) returns (s': State)
    requires Reachable(c, s) && Inv(c, s) && s.started && !Empty(c) && s.e.curPhase <= t <= Phases(c) && AllEarly(s, t)
    ensures Reachable(c, s') && Inv(c, s') && s'.started && s'.e.curPhase == t
    ensures s'.received == s.received && s'.early == s.early
    decreases t - s.e.curPhase, s.sending
  {
    if s.e.curPhase == t {
      s' := s;
    } else {
      assert OneEarly(s, s.e.curPhase);
      SentEffect(c, s);
      ReachableStep(c, s, Sent);
      StillEarly(s, Do(c, s, Sent), t);
      s' := SendsReach(c, Do(c, s, Sent), t);
    }
  }

  /** The start leaves early messages alone. */
  lemma StartEarly(c: Config, s: State, k: nat) returns (s': State)
    requires Reachable(c, s) && Inv(c, s) && !s.started && !Empty(c) && AllEarly(s, k)
    ensures Reachable(c, s') && Inv(c, s') && s'.started && s'.e.curPhase == 0 && AllEarly(s', k)
    ensures s'.early == s.early && s'.received == s.received
  {
    s' := Do(c, s, Begin);
    ReachableStep(c, s, Begin);
    OtherEffect(c, s, Begin);
    BeginEarly(c, s);
    StillEarly(s, s', k);
  }

  /** A phase with several sources is left after one of them in some run. */
  lemma LeavesShort(c: Config, p: nat) returns (s: State)
    requires c.Valid() && !Empty(c) && p < Phases(c) && |c.sources[p]| >= 2
    ensures Reachable(c, s) && p < |s.received| && Left(c, s, p) && s.received[p] == {0} && !Complete(c, s, p)
  {
    var s0 := EarlyUpTo(c, p + 1);
    var s1 := StartEarly(c, s0, p + 1);
    s := SendsReach(c, s1, p + 1);
    assert OneEarly(s1, p);
    OneIsNotAll(c, s, p);
  }

  lemma OneIsNotAll(c: Config, s: State, p: nat)
    requires p < Phases(c) && p < |s.received| && s.received[p] == {0} && |c.sources[p]| >= 2
    ensures !Complete(c, s, p)
  {
    assert 1 in Below(|c.sources[p]|) && 1 !in s.received[p];
  }

  /** Before the start, a second message for phase `p` comes in. */
  lemma SecondEarly(c: Config, s: State, p: nat) returns (s': State)
    requires Reachable(c, s) && Inv(c, s) && !s.started && p < Phases(c) && |c.sources[p]| >= 2
    requires OneEarly(s, p) && s.heard[p] == {0} && AllEarly(s, p)
    ensures Reachable(c, s') && Inv(c, s') && !s'.started && AllEarly(s', p)
    ensures s'.early[p] && s'.received[p] == {0, 1}
  {
    var s1 := Do(c, s, Header(p, 1));
    ReachableStep(c, s, Header(p, 1));
    s' := Do(c, s1, Receive(p, 1));
    ReachableStep(c, s1, Receive(p, 1));
    ReceiveEffect(c, s1, p, 1);
    forall q | 0 <= q < p ensures OneEarly(s', q) {
      assert OneEarly(s, q);
    }
  }

  /** Two early messages jam a phase with several sources, in some run of every configuration. */
  lemma CanJam(c: Config, p: nat) returns (s: State)
    requires c.Valid() && !Empty(c) && p < Phases(c) && |c.sources[p]| >= 2
    ensures Reachable(c, s) && Inv(c, s) && Jammed(c, s) && s.e.curPhase == p
  {
    var s0 := EarlyUpTo(c, p);
    var s1 := OneMoreEarly(c, s0, p);
    forall q | 0 <= q < p ensures OneEarly(s1, q) {
      assert OneEarly(s0, q);
    }
    var s2 := SecondEarly(c, s1, p);
    var s3 := StartEarly(c, s2, p);
    s := SendsReach(c, s3, p);
    assert |{0, 1}| == 2;
  }

  /** No run of a schedule jams if and only if every phase has one source (or nothing is sent at all). */
  lemma NeverJamsIff(c: Config)
    requires c.Valid()
    ensures (forall s :: Reachable(c, s) && Shape(c, s) ==> !Jammed(c, s)) <==> Empty(c) || OneSourceEach(c)
  {
    if OneSourceEach(c) {
      forall s | Reachable(c, s) && Shape(c, s) ensures !Jammed(c, s) {
        ReachableInv(c, s);
        if Jammed(c, s) {
          assert Run(c, s, [], s);
          JammedForEver(c, s, [], s);
        }
      }
    } else if !Empty(c) {
      var p :| 0 <= p < |c.sources| && |c.sources[p]| != 1;
      var s := CanJam(c, p);
    }
  }

  lemma BeginEarly(c: Config, s: State)
    requires Shape(c, s) && Enabled(c, s, Begin)
    ensures Do(c, s, Begin).early == s.early && Do(c, s, Begin).received == s.received && Do(c, s, Begin).started
  {
  }

  /** A schedule is safe in all runs if and only if every phase has one source (or nothing is sent at all). */
  lemma SafeIff(c: Config)
    requires c.Valid()
    ensures Safe(c) <==> Empty(c) || OneSourceEach(c)
  {
    if OneSourceEach(c) {
      forall s, p | Reachable(c, s) && 0 <= p < Phases(c) && p < |s.received| && Left(c, s, p)
        ensures Complete(c, s, p)
      {
        OneSourceSafe(c, s, p);
      }
    } else if !Empty(c) {
      var p :| 0 <= p < |c.sources| && |c.sources[p]| != 1;
      var s := LeavesShort(c, p);
    }
  }

  // ---------- where early data goes ----------

  ghost predicate DistinctRanks(c: Config, p: nat)
    requires p < |c.sources|
  {
    forall i, j :: 0 <= i < j < |c.sources[p]| ==> c.sources[p][i].rank != c.sources[p][j].rank
  }

  lemma {:induction false} LastOfIs(slots: seq<Slot>, i: nat)
    requires i < |slots| && forall j :: 0 <= j < |slots| && j != i ==> slots[j].rank != slots[i].rank
    ensures LastOf(slots, slots[i].rank) == i
  {
    var init := slots[..|slots| - 1];
    if i < |init| {
      LastOfIs(init, i);
    }
  }

  lemma {:induction false} FirstOfIs(slots: seq<Slot>, from: nat, k: nat, i: nat)
    requires from <= i < |slots| && from <= k <= |slots|
    requires forall j :: 0 <= j < |slots| && j != i ==> slots[j].rank != slots[i].rank
    ensures FirstOf(slots, from, k, slots[i].rank) == if i < k then i else 0
    decreases k - from
  {
    if from < k && from != i {
      FirstOfIs(slots, from + 1, k, i);
    }
  }

  /** A header is answered with its own source's slot exactly when the record is new or the count reaches that far. */
  lemma AnsweredIff(c: Config, e: Exec, p: nat, i: nat)
    requires WellFormed(c, e) && p < |c.sources| && i < |c.sources[p]| && DistinctRanks(c, p)
    ensures NotifyRecv(c, e, c.sources[p][i].rank, p).1 == i <==>
            i == 0 || !e.recvs[p].configured || i < e.recvs[p].partnerCount
  {
    var slots := c.SlotsOf(p);
    assert slots[i].rank == c.sources[p][i].rank;
    if e.recvs[p].configured {
      FirstOfIs(slots, 0, e.recvs[p].partnerCount, i);
    } else {
      LastOfIs(slots, i);
    }
  }

  /**
    At any time: the data of a source other than the first goes astray if and only if another header
    came before the phase was entered. That holds also for late headers of a phase that was left short.
   */
  lemma AstrayIff(c: Config, s: State, p: nat, i: nat)
    requires Reachable(c, s) && Shape(c, s) && Enabled(c, s, Header(p, i)) && DistinctRanks(c, p)
    ensures NotifyRecv(c, s.e, c.sources[p][i].rank, p).1 != i <==> i != 0 && s.early[p]
  {
    ReachableInv(c, s);
    InvPhase(c, s, p);
    FullIffCount(s.received[p], |c.sources[p]|);
    AnsweredIff(c, s.e, p, i);
  }

  // ---------- a gather that comes out short ----------

  /** Three members exchange in one phase with two sources each. */
  function Trio(): Config {
    Config(3, 0, [[Source(1, 1), Source(2, 1)]], [10], true)
  }

  function TrioRecord(doneCount: int, partners: nat): seq<PhaseRecv> {
    [PhaseRecv(true, doneCount, partners, [Slot(1, 1, 1), Slot(2, 2, 1)])]
  }

  /** Member 0 before it starts, with the (early) block of member 1 in place; position 2 holds junk. */
  function Waiting(recvs: seq<PhaseRecv>): Exec {
    Exec(0, 0, recvs, [[0], [11], [99]], [[0], [0], [0]], 0)
  }

  /** Member 0 in its phase, with `k` sends to complete. */
  function InPhase(k: nat): Exec {
    Exec(0, k, TrioRecord(1, 1), [[10], [11], [99]], [[0], [0], [0]], 0)
  }

  lemma TrioHears()
    ensures var e := Waiting([PhaseRecv(false, 0, 0, [])]);
            WellFormed(Trio(), e) && NotifyRecv(Trio(), e, 1, 0).0 == Waiting(TrioRecord(0, 1))
  {
    assert Trio().SlotsOf(0) == [Slot(1, 1, 1), Slot(2, 2, 1)];
  }

  lemma TrioWellFormed(e: Exec, doneCount: int, partners: nat)
    requires e.recvs == TrioRecord(doneCount, partners) && partners <= 2 && |e.tmp| == |e.out| == 3
    ensures WellFormed(Trio(), e)
  {
    assert Trio().SlotsOf(0) == [Slot(1, 1, 1), Slot(2, 2, 1)];
  }

  lemma TrioReceives()
    ensures WellFormed(Trio(), Waiting(TrioRecord(0, 1)))
    ensures NotifyRecvDone(Trio(), Waiting(TrioRecord(0, 1)), 0) == (Waiting(TrioRecord(1, 1)), [])
  {
    TrioWellFormed(Waiting(TrioRecord(0, 1)), 0, 1);
    var e := Waiting(TrioRecord(0, 1));
    assert e.recvs[0 := TrioRecord(1, 1)[0]] == TrioRecord(1, 1);
  }

  lemma TrioStarts()
    ensures WellFormed(Trio(), Waiting(TrioRecord(1, 1)))
    ensures AllgatherSteps.Start(Trio(), Waiting(TrioRecord(1, 1))).0 == InPhase(2)
  {
    TrioWellFormed(Waiting(TrioRecord(1, 1)), 1, 1);
  }

  lemma TrioSends()
    ensures WellFormed(Trio(), InPhase(2)) && WellFormed(Trio(), InPhase(1))
    ensures NotifySendDone(Trio(), InPhase(2)) == (InPhase(1), [])
  {
    TrioWellFormed(InPhase(2), 1, 1);
    TrioWellFormed(InPhase(1), 1, 1);
  }

  lemma TrioFinishes()
    ensures WellFormed(Trio(), InPhase(1))
    ensures var done := NotifySendDone(Trio(), InPhase(1)).0;
            done.curPhase == 1 && done.callbacks == 1 && done.out == [[10], [11], [99]]
  {
    TrioSends();
    var tmp: seq<Block> := [[10], [11], [99]];
    assert Unrotated(0, tmp) == tmp;
  }

  /**
    The header and the data of member 1 come before the start, then both sends complete: member 0
    calls back although member 2's block never came, and delivers the junk in its place.
   */
  lemma ShortGather()
    ensures var c, e0 := Trio(), Waiting([PhaseRecv(false, 0, 0, [])]);
            && WellFormed(c, e0)
            && var e1 := NotifyRecv(c, e0, 1, 0).0;
            && var e2 := NotifyRecvDone(c, e1, 0).0;
            && var e3 := AllgatherSteps.Start(c, e2).0;
            && e3.curPhase == 0 && e3.sendsLeft == 2
            && var e4 := NotifySendDone(c, e3).0;
            && e4.curPhase == 0
            && var done := NotifySendDone(c, e4).0;
            && done.curPhase == 1 && done.callbacks == 1 && done.out == [[10], [11], [99]]
  {
    TrioHears();
    TrioReceives();
    TrioStarts();
    TrioSends();
    TrioFinishes();
  }
}
