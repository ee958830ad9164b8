/**
  The completion count of a multi-colour composite over any number of rounds. A round is a reset
  followed by a restart: the barrier runs, its callback starts the executors one by one, and the
  barrier and every colour count as done once. A colour may report at any time of its round: after
  its start, from inside it, while other colours are being started, or even before the local
  barrier callback, when a remote root was faster.
 */
module CompositeCompletion {
  import opened Sets

  datatype Phase =
    | Idle                    // no round so far
    | Barrier                 // the barrier is running
    | Starting(next: nat)     // the barrier callback, about to start colour `next`
    | Started                 // the barrier callback has returned

  datatype State = State(
    colors: nat,
    nComplete: nat,
    doneCount: nat,
    phase: Phase,
    finished: set<nat>,       // the colours that reported in this round
    rounds: nat,              // rounds begun
    calls: nat,               // how often the user's callback was called
    failed: bool              // a count assertion failed
  )

  datatype Action =
    | Restart(colors: nat)    // the user resets and restarts, with as many colours as the reset chose
    | BarrierDone             // the barrier's callback is entered
    | StartNext               // it starts one executor
    | EndStart                // it leaves its loop and counts the barrier
    | Finish(k: nat)          // the executor of colour k reports

  function Fresh(): State {
    State(0, 0, 0, Idle, {}, 0, 0, false)
  }

  /** The user restarts after the callback of the round before; colours report once per round. */
  ghost predicate Enabled(s: State, a: Action) {
    match a
    case Restart(_) => s.calls == s.rounds
    case BarrierDone => s.phase.Barrier?
    case StartNext => s.phase.Starting? && s.phase.next < s.colors
    case EndStart => s.phase.Starting? && s.phase.next >= s.colors
    case Finish(k) => !s.phase.Idle? && k < s.colors && k !in s.finished
  }

  /** The common last lines of both callbacks: the assertion, the increment and the test. */
  function Tally(s: State): State {
    if s.doneCount >= s.nComplete then s.(failed := true)
    else
      var s1 := s.(doneCount := s.doneCount + 1);
      if s1.doneCount == s1.nComplete then s1.(calls := s1.calls + 1) else s1
  }

  function Do(s: State, a: Action): State
    requires Enabled(s, a)
  {
    match a
    case Restart(n) =>
      s.(colors := n, nComplete := n + 1, doneCount := 0, phase := Barrier, finished := {}, rounds := s.rounds + 1)
    case BarrierDone => s.(phase := Starting(0))
    case StartNext => s.(phase := Starting(s.phase.next + 1))
    case EndStart => Tally(s.(phase := Started))
    case Finish(k) => Tally(s.(finished := s.finished + {k}))
  }

  ghost predicate Run(s: State, acts: seq<Action>, s': State)
    decreases |acts|
  {
    if acts == [] then s' == s
    else Enabled(s, acts[0]) && Run(Do(s, acts[0]), acts[1..], s')
  }

  // --------------------------------------------------------------------------------- invariant

  ghost predicate Over(s: State) {
    s.phase.Started? && s.finished == Below(s.colors)
  }

  ghost predicate Inv(s: State) {
    && !s.failed
    && s.finished <= Below(s.colors)
    && (s.phase.Idle? ==> s.rounds == 0 && s.calls == 0)
    && (!s.phase.Idle? ==>
          && s.rounds >= 1
          && s.nComplete == s.colors + 1
          && s.doneCount == |s.finished| + (if s.phase.Started? then 1 else 0)
          && s.calls == s.rounds - (if Over(s) then 0 else 1))
    && (s.phase.Starting? ==> s.phase.next <= s.colors)
  }

  lemma FinishKeeps(s: State, k: nat)
    requires Inv(s) && Enabled(s, Finish(k))
    ensures Inv(Do(s, Finish(k)))
  {
    var f := s.finished + {k};
    assert |f| == |s.finished| + 1;
    FullIffCount(s.finished, s.colors);
    FullIffCount(f, s.colors);
  }

  lemma StepKeeps(s: State, a: Action)
    requires Inv(s) && Enabled(s, a)
    ensures Inv(Do(s, a))
  {
    match a
    case Finish(k) => FinishKeeps(s, k);
    case EndStart => FullIffCount(s.finished, s.colors);
    case _ =>
  }

  lemma {:induction false} RunKeeps(s: State, acts: seq<Action>, s': State)
    requires Inv(s) && Run(s, acts, s')
    ensures Inv(s')
    decreases |acts|
  {
    if acts != [] {
      StepKeeps(s, acts[0]);
      RunKeeps(Do(s, acts[0]), acts[1..], s');
    }
  }

  // --------------------------------------------------------------------------------- results

  /**
    In every run over any number of rounds the count assertions hold, and the callback has been
    called once for every round that is over: the barrier is done and every colour has reported.
   */
  lemma OneCallPerRound(acts: seq<Action>, s: State)
    requires Run(Fresh(), acts, s)
    ensures !s.failed
    ensures s.calls == s.rounds <==> s.phase.Idle? || Over(s)
    ensures s.calls != s.rounds ==> s.calls == s.rounds - 1
  {
    RunKeeps(Fresh(), acts, s);
  }

  /** The callback comes with the last report, and never while executors are still being started. */
  lemma CallsLast(acts: seq<Action>, s: State, a: Action)
    requires Run(Fresh(), acts, s) && Enabled(s, a)
    ensures Do(s, a).calls == s.calls || Do(s, a).calls == s.calls + 1
    ensures Do(s, a).calls == s.calls + 1 <==> !a.Restart? && !Over(s) && Over(Do(s, a))
    ensures s.phase.Starting? && !a.EndStart? ==> Do(s, a).calls == s.calls
  {
    RunKeeps(Fresh(), acts, s);
    StepKeeps(s, a);
    if !a.Restart? {
      CallsFollowOver(s, Do(s, a));
    }
  }

  /** Within a round the callback count tells whether the round is over. */
  lemma CallsFollowOver(s: State, s': State)
    requires Inv(s) && Inv(s') && !s.phase.Idle? && !s'.phase.Idle? && s'.rounds == s.rounds && s'.calls >= s.calls
    ensures s'.calls == s.calls || s'.calls == s.calls + 1
    ensures s'.calls == s.calls + 1 <==> !Over(s) && Over(s')
  {
  }

  /** With all executors started, the round is over when the count is complete; until then a colour is missing. */
  lemma OverIffCounted(s: State)
    requires Inv(s) && s.phase.Started?
    ensures s.doneCount == s.nComplete <==> s.calls == s.rounds
    ensures s.doneCount != s.nComplete ==> s.doneCount < s.nComplete
    ensures s.doneCount != s.nComplete ==> exists k: nat :: k < s.colors && k !in s.finished
  {
    FullIffCount(s.finished, s.colors);
    if s.doneCount != s.nComplete {
      var k :| k in Below(s.colors) && k !in s.finished;
    }
  }

  /** How many steps the current round can still take. */
  function Left(s: State): int {
    s.colors - |s.finished| + match s.phase
      case Idle => 0
      case Barrier => s.colors + 2
      case Starting(i) => s.colors - i + 1
      case Started => 0
  }

  /** A round that is not over can go on. */
  lemma RoundGoesOn(acts: seq<Action>, s: State)
    requires Run(Fresh(), acts, s) && s.calls < s.rounds
    ensures exists a :: Enabled(s, a) && !a.Restart?
  {
    RunKeeps(Fresh(), acts, s);
    if s.phase.Barrier? {
      assert Enabled(s, BarrierDone);
    } else if s.phase.Starting? {
      var a := if s.phase.next < s.colors then StartNext else EndStart;
      assert Enabled(s, a);
    } else {
      var k :| k in Below(s.colors) && k !in s.finished;
      assert Enabled(s, Finish(k));
    }
  }

  /** Every step brings it nearer to its end, so that no round is longer than `Left` says. */
  lemma RoundShrinks(acts: seq<Action>, s: State, a: Action)
    requires Run(Fresh(), acts, s) && Enabled(s, a) && !a.Restart?
    ensures 0 <= Left(Do(s, a)) < Left(s) <= Left(s.(phase := Barrier, finished := {})) == 2 * s.colors + 2
  {
    RunKeeps(Fresh(), acts, s);
    StepKeeps(s, a);
    FullIffCount(s.finished, s.colors);
    FullIffCount(Do(s, a).finished, s.colors);
  }

  lemma {:induction false} RunConcat(s: State, a: seq<Action>, s1: State, b: seq<Action>, s2: State)
    requires Run(s, a, s1) && Run(s1, b, s2)
    ensures Run(s, a + b, s2)
    decreases |a|
  {
    if a == [] {
      assert a + b == b;
    } else {
      assert (a + b)[1..] == a[1..] + b;
      RunConcat(Do(s, a[0]), a[1..], s1, b, s2);
    }
  }

  lemma RunThen(s: State, a: seq<Action>, s1: State, b: Action)
    requires Run(s, a, s1) && Enabled(s1, b)
    ensures Run(s, a + [b], Do(s1, b))
  {
    assert Run(Do(s1, b), [b][1..], Do(s1, b));
    RunConcat(s, a, s1, [b], Do(s1, b));
  }
}
