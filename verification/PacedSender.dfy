/**
  The sending side of a many-to-many operation. Destinations are posted window by window; local
  completions may come later or from inside the `simple` call that posts, and the flags
  `postInProgress` and `nextPostPending` turn what would be recursion into a loop.

  The machine below takes one `simple` call, one completion or one loop exit per step, in any order
  the network allows. `frames` is the call stack of posting functions, so that re-entry would show.
 */
module PacedSender {
  import opened Bits

  /** The operation: the permuted order of destinations, and the pacing window. */
  datatype Config = Config(perm: seq<nat>, window: nat)
  {
    /** At least one participant and a window that lets something through. */
    ghost predicate Valid() {
      |perm| >= 1 && window >= 1
    }
  }

  /** An activation of a posting function: `next` destinations of its window of `count` are posted. */
  datatype Frame =
    | First(next: nat, count: nat)    // postManytomany_impl, in its loop
    | Resumed                         // postManytomany_impl, waiting for the call in its last lines
    | Next(next: nat, count: nat)     // postNextManytomany_impl, in its inner loop

  datatype Sender = Sender(
    doneCountDown: int,
    pacingCountDown: int,
    postInProgress: bool,
    nextPostPending: bool,
    nextDestIndex: nat,
    frames: seq<Frame>,
    log: seq<nat>,            // the destinations handed to `simple`, in order
    completed: nat,           // how often `sendM2mDone` was called
    callbacks: nat            // how often the done callback was called
  )

  datatype Step = Post | Complete | LoopEnd

  function Min(a: int, b: int): int {
    if a > b then b else a
  }

  /** `postManytomany_impl` up to its loop. */
  function Begin(c: Config): Sender {
    Sender(|c.perm|, c.window, true, false, 0, [First(0, Min(|c.perm|, c.window))], [], 0, 0)
  }

  /** The head of the do-loop of `postNextManytomany_impl`: a new window. */
  function NewWindow(s: Sender): Frame {
    var n := Min(s.doneCountDown, s.pacingCountDown);
    Next(0, if n < 0 then 0 else n)
  }

  /** A call of `postNextManytomany_impl`. */
  function EnterNext(s: Sender): Sender {
    s.(postInProgress := true, nextPostPending := false, frames := s.frames + [NewWindow(s)])
  }

  function Top(s: Sender): Frame
    requires s.frames != []
  {
    s.frames[|s.frames| - 1]
  }

  function WithTop(s: Sender, f: Frame): Sender
    requires s.frames != []
  {
    s.(frames := s.frames[|s.frames| - 1 := f])
  }

  /** The index passed to `index2PermutedIndex` by the active loop. */
  function Target(s: Sender): nat
    requires s.frames != [] && !Top(s).Resumed?
  {
    match Top(s)
    case First(i, _) => i
    case Next(i, _) => i + s.nextDestIndex
  }

  ghost predicate Enabled(c: Config, s: Sender, a: Step) {
    match a
    case Post => s.frames != [] && !Top(s).Resumed? && Top(s).next < Top(s).count && Target(s) < |c.perm|
    case Complete => s.completed < |s.log|
    case LoopEnd => s.frames != [] && !Top(s).Resumed? && Top(s).next >= Top(s).count
  }

  /** `simple`, and the increment of the loop counter. */
  function DoPost(c: Config, s: Sender): Sender
    requires Enabled(c, s, Post)
  {
    WithTop(s.(log := s.log + [c.perm[Target(s)]]), Top(s).(next := Top(s).next + 1))
  }

  /** `sendM2mDone` */
  function DoComplete(c: Config, s: Sender): Sender {
    var s1 := s.(doneCountDown := s.doneCountDown - 1, completed := s.completed + 1);
    if s1.doneCountDown == 0 then s1.(callbacks := s1.callbacks + 1)
    else
      var s2 := s1.(pacingCountDown := s1.pacingCountDown - 1);
      if s2.pacingCountDown != 0 then s2
      else
        var s3 := s2.(pacingCountDown := c.window, nextDestIndex := s2.nextDestIndex + c.window);
        if !s3.postInProgress then EnterNext(s3) else s3.(nextPostPending := true)
  }

  /** The active loop runs out: go round again, call the next post, or return. */
  function DoLoopEnd(c: Config, s: Sender): Sender
    requires Enabled(c, s, LoopEnd)
  {
    match Top(s)
    case First(_, _) =>
      var s1 := s.(postInProgress := false);
      if s1.nextPostPending then EnterNext(WithTop(s1, Resumed)) else s1.(frames := s1.frames[..|s1.frames| - 1])
    case Next(_, _) =>
      if s.nextPostPending then WithTop(s.(nextPostPending := false), NewWindow(s))
      else
        var below := s.frames[..|s.frames| - 1];
        s.(postInProgress := false,
           frames := if below != [] && below[|below| - 1].Resumed? then below[..|below| - 1] else below)
  }

  function Do(c: Config, s: Sender, a: Step): Sender
    requires Enabled(c, s, a)
  {
    match a
    case Post => DoPost(c, s)
    case Complete => DoComplete(c, s)
    case LoopEnd => DoLoopEnd(c, s)
  }

  ghost predicate Run(c: Config, s: Sender, steps: seq<Step>, s': Sender)
    decreases |steps|
  {
    if steps == [] then s' == s else Enabled(c, s, steps[0]) && Run(c, Do(c, s, steps[0]), steps[1..], s')
  }

  // ---------- the invariant ----------

  /** No activation, or one loop, possibly called from the last lines of the first post. */
  ghost predicate StackOk(s: Sender) {
    || s.frames == []
    || (|s.frames| == 1 && !s.frames[0].Resumed?)
    || (|s.frames| == 2 && s.frames[0].Resumed? && s.frames[1].Next?)
  }

  ghost predicate Inv(c: Config, s: Sender) {
    var n, posted := |c.perm|, |s.log|;
    && c.Valid()
    && StackOk(s)
    && (s.postInProgress <==> s.frames != [])
    && s.completed <= posted <= n
    && s.doneCountDown == n - s.completed
    && s.log == c.perm[..posted]
    && s.callbacks == (if s.completed == n then 1 else 0)
    && (if s.nextPostPending then PendingOk(c, s) else WindowOk(c, s))
    && (s.frames != [] && s.frames[0].First? ==> s.nextDestIndex == (if s.nextPostPending then posted else 0))
  }

  /** A window is over: it is posted, every send so far has completed, and destinations remain. */
  ghost predicate PendingOk(c: Config, s: Sender) {
    && s.frames != [] && !Top(s).Resumed? && Top(s).next == Top(s).count
    && 1 <= s.completed == |s.log| == s.nextDestIndex < |c.perm|
    && s.pacingCountDown == c.window
  }

  /** A window is under way: it starts at `nextDestIndex`, everything before it has completed. */
  ghost predicate WindowOk(c: Config, s: Sender) {
    var n, posted, base := |c.perm|, |s.log|, s.nextDestIndex;
    && base <= s.completed
    && base < n
    && (s.completed < n ==> s.pacingCountDown == c.window - (s.completed - base) && s.pacingCountDown >= 1)
    && (if s.frames == [] then posted == Min(base + c.window, n)
        else
          && !Top(s).Resumed?
          && Top(s).count == Min(c.window, n - base)
          && Top(s).next <= Top(s).count
          && posted == base + Top(s).next)
  }

  lemma BeginInv(c: Config)
    requires c.Valid()
    ensures Inv(c, Begin(c))
  {
  }

  lemma PostKeeps(c: Config, s: Sender)
    requires Inv(c, s) && Enabled(c, s, Post)
    ensures Inv(c, DoPost(c, s)) && DoPost(c, s).log == s.log + [c.perm[|s.log|]]
  {
    assert Target(s) == |s.log|;
  }

  lemma CompleteKeeps(c: Config, s: Sender)
    requires Inv(c, s) && Enabled(c, s, Complete)
    ensures Inv(c, DoComplete(c, s)) && DoComplete(c, s).log == s.log
  {
  }

  lemma LoopEndKeeps(c: Config, s: Sender)
    requires Inv(c, s) && Enabled(c, s, LoopEnd)
    ensures Inv(c, DoLoopEnd(c, s)) && DoLoopEnd(c, s).log == s.log
  {
  }

  lemma StepKeeps(c: Config, s: Sender, a: Step)
    requires Inv(c, s) && Enabled(c, s, a)
    ensures Inv(c, Do(c, s, a)) && s.log <= Do(c, s, a).log
  {
    match a
    case Post => PostKeeps(c, s);
    case Complete => CompleteKeeps(c, s);
    case LoopEnd => LoopEndKeeps(c, s);
  }

  lemma {:induction false} RunKeeps(c: Config, s: Sender, steps: seq<Step>, s': Sender)
    requires Inv(c, s) && Run(c, s, steps, s')
    ensures Inv(c, s')
    decreases |steps|
  {
    if steps != [] {
      StepKeeps(c, s, steps[0]);
      RunKeeps(c, Do(c, s, steps[0]), steps[1..], s');
    }
  }

  // ---------- what holds of every run ----------

  ghost predicate Reachable(c: Config, s: Sender) {
    c.Valid() && exists steps :: Run(c, Begin(c), steps, s)
  }

  lemma ReachableInv(c: Config, s: Sender)
    requires Reachable(c, s)
    ensures Inv(c, s)
  {
    var steps :| Run(c, Begin(c), steps, s);
    BeginInv(c);
    RunKeeps(c, Begin(c), steps, s);
  }

  /**
    Without participants, or with no window, nothing is ever sent and the callback never fires: the
    one step possible is that the first post returns.
   */
  lemma NothingToSend(c: Config, steps: seq<Step>, s: Sender)
    requires !c.Valid() && Run(c, Begin(c), steps, s)
    ensures s.log == [] && s.completed == 0 && s.callbacks == 0
    ensures steps == [] || (steps == [LoopEnd] && s.frames == [] && forall a :: !Enabled(c, s, a))
  {
    if steps != [] {
      assert steps[0] == LoopEnd;
      var s1 := Do(c, Begin(c), LoopEnd);
      assert forall a :: !Enabled(c, s1, a);
      assert steps[1..] == [];
      assert steps == [LoopEnd];
    }
  }

  /** Coverage: the destinations are posted in permuted order, never more than a window unfinished. */
  lemma Covers(c: Config, s: Sender)
    requires Reachable(c, s)
    ensures s.log <= c.perm
    ensures s.completed <= |s.log| <= s.completed + c.window
    ensures s.completed == |c.perm| ==> s.log == c.perm
    ensures s.frames != [] && !Top(s).Resumed? && Top(s).next < Top(s).count ==> Target(s) == |s.log| < |c.perm|
  {
    ReachableInv(c, s);
  }

  /** Windows start at multiples of their size. */
  lemma IndexStep(c: Config, s: Sender, a: Step)
    requires c.Valid() && Enabled(c, s, a) && s.nextDestIndex % c.window == 0
    ensures Do(c, s, a).nextDestIndex % c.window == 0
  {
    NextMultiple(s.nextDestIndex, c.window);
  }

  lemma NextMultiple(x: nat, w: nat)
    requires w >= 1 && x % w == 0
    ensures (x + w) % w == 0
  {
    ModIs(x + w, w, x / w + 1, 0);
  }

  lemma {:induction false} IndexRun(c: Config, s: Sender, steps: seq<Step>, s': Sender)
    requires c.Valid() && Run(c, s, steps, s') && s.nextDestIndex % c.window == 0
    ensures s'.nextDestIndex % c.window == 0
    decreases |steps|
  {
    if steps != [] {
      IndexStep(c, s, steps[0]);
      IndexRun(c, Do(c, s, steps[0]), steps[1..], s');
    }
  }

  /**
    Windows are full: while no post is active, all destinations of the windows begun are posted, and the
    window under way is the one that the completions have reached.
   */
  lemma FullWindows(c: Config, s: Sender)
    requires Reachable(c, s) && s.frames == [] && s.completed < |c.perm|
    ensures |s.log| == Min(|c.perm|, (s.completed / c.window + 1) * c.window)
  {
    ReachableInv(c, s);
    var steps :| Run(c, Begin(c), steps, s);
    ModSmall(0, c.window);
    IndexRun(c, Begin(c), steps, s);
    var base, w := s.nextDestIndex, c.window;
    assert base == (base / w) * w;
    ModIs(s.completed, w, base / w, s.completed - base);
    assert (base / w + 1) * w == base + w;
  }

  /** The callback has fired exactly when, and as soon as, the last destination has completed. */
  lemma CallsBackOnce(c: Config, s: Sender)
    requires Reachable(c, s)
    ensures s.callbacks == if s.completed == |c.perm| then 1 else 0
    ensures s.completed == |c.perm| <==> s.doneCountDown == 0
  {
    ReachableInv(c, s);
  }

  /** The posting loop is never entered while one is active, so the stack stays two deep at most. */
  lemma NeverNests(c: Config, s: Sender)
    requires Reachable(c, s)
    ensures |s.frames| <= 2
    ensures forall i, j :: 0 <= i < j < |s.frames| ==> s.frames[i].Resumed? && !s.frames[j].Resumed?
  {
    ReachableInv(c, s);
  }

  /** Every destination has completed and every post has returned. */
  ghost predicate Finished(c: Config, s: Sender) {
    s.completed == |c.perm| && s.frames == []
  }

  /** Some step is possible as long as the operation is not finished, and none after. */
  lemma NeverStuck(c: Config, s: Sender)
    requires Reachable(c, s)
    ensures (exists a :: Enabled(c, s, a)) <==> !Finished(c, s)
  {
    ReachableInv(c, s);
    StepPossible(c, s);
  }

  lemma StepPossible(c: Config, s: Sender)
    requires Inv(c, s)
    ensures (exists a :: Enabled(c, s, a)) <==> !Finished(c, s)
  {
    if s.frames != [] {
      assert Enabled(c, s, if Top(s).next < Top(s).count then Post else LoopEnd);
    } else if s.completed < |s.log| {
      assert Enabled(c, s, Complete);
    }
  }

  /** What is left to do; every step makes it smaller. */
  ghost function Left(c: Config, s: Sender): int {
    3 * (|c.perm| - |s.log|) + 3 * (|c.perm| - s.completed) + (if s.nextPostPending then 2 else 0) + |s.frames|
  }

  lemma StepDecreases(c: Config, s: Sender, a: Step)
    requires Inv(c, s) && Enabled(c, s, a)
    ensures 0 <= Left(c, Do(c, s, a)) < Left(c, s)
  {
    StepKeeps(c, s, a);
  }

  lemma {:induction false} RunShrinks(c: Config, s: Sender, steps: seq<Step>, s': Sender)
    requires Inv(c, s) && Run(c, s, steps, s')
    ensures |steps| <= Left(c, s) - Left(c, s')
    decreases |steps|
  {
    if steps != [] {
      StepKeeps(c, s, steps[0]);
      StepDecreases(c, s, steps[0]);
      RunShrinks(c, Do(c, s, steps[0]), steps[1..], s');
    }
  }

  /** No run takes more than six steps per destination and one more: posting always comes to an end. */
  lemma Terminates(c: Config, steps: seq<Step>, s: Sender)
    requires c.Valid() && Run(c, Begin(c), steps, s)
    ensures |steps| <= 6 * |c.perm| + 1
  {
    BeginInv(c);
    RunShrinks(c, Begin(c), steps, s);
    RunKeeps(c, Begin(c), steps, s);
  }

  lemma {:induction false} RunConcat(c: Config, s: Sender, a: seq<Step>, s1: Sender, b: seq<Step>, s2: Sender)
    requires Run(c, s, a, s1) && Run(c, s1, b, s2)
    ensures Run(c, s, a + b, s2)
    decreases |a|
  {
    if a == [] {
      assert a + b == b;
    } else {
      assert (a + b)[1..] == a[1..] + b;
      RunConcat(c, Do(c, s, a[0]), a[1..], s1, b, s2);
    }
  }

  lemma RunThen(c: Config, s: Sender, a: seq<Step>, s1: Sender, b: Step)
    requires Run(c, s, a, s1) && Enabled(c, s1, b)
    ensures Run(c, s, a + [b], Do(c, s1, b))
  {
    assert Run(c, Do(c, s1, b), [][..], Do(c, s1, b));
    RunConcat(c, s, a, s1, [b], Do(c, s1, b));
  }
}
