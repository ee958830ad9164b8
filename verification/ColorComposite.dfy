/**
  The composite object itself: the fields that `initialize` and `reset` fill in loops, and the two
  callbacks that count. The methods are proved against the cut of ColorTiling and against the
  machine of CompositeCompletion.
 */
module ColorComposite {
  import opened ColorTiling
  import opened CompositeCompletion

  /** What an executor was told: its root and its part of the two buffers. */
  datatype Exec = Exec(root: nat, src: int, dst: int, bytes: nat, stride: nat)

  /** The executors for a cut of buffers that start at `src` and `dst`. */
  function Placed(plan: seq<Segment>, root: nat, src: int, dst: int): (r: seq<Exec>)
    ensures |r| == |plan|
    ensures forall c :: 0 <= c < |plan| ==>
              && r[c].root == root && r[c].src - src == r[c].dst - dst == plan[c].offset
              && r[c].bytes == plan[c].bytes && r[c].stride == plan[c].stride
  {
    seq(|plan|, c requires 0 <= c < |plan| =>
          Exec(root, src + plan[c].offset, dst + plan[c].offset, plan[c].bytes, plan[c].stride))
  }

  /** After `was`, the colours 0, 1, ..., n - 1 were started, in this order. */
  ghost predicate StartedInOrder(was: seq<nat>, now: seq<nat>, n: nat) {
    && |now| == |was| + n && was <= now
    && forall j :: |was| <= j < |now| ==> now[j] == j - |was|
  }

  lemma OneMoreStarted(was: seq<nat>, now: seq<nat>, n: nat)
    requires StartedInOrder(was, now, n)
    ensures StartedInOrder(was, now + [n], n + 1)
  {
  }

  /** What the user asks of one round. */
  datatype Request = Request(root: nat, count: nat, size: nat, extent: nat, src: int, dst: int)

  /** A restart takes nothing over that a reset may have changed. */
  lemma RestartOverwrites(s: State, s': State, n: nat)
    requires s.calls == s.rounds && s' == s.(colors := s'.colors, nComplete := s'.nComplete, doneCount := s'.doneCount)
    ensures Do(s, Action.Restart(n)) == Do(s', Action.Restart(n))
  {
  }

  class MultiColor {
    const NUMCOLORS: nat                // a template parameter
    const pick: (nat, nat) -> nat         // the colours to use for a byte count, given an upper bound
    const numColorsMax: nat
    var numColors: nat
    var nComplete: nat
    var doneCount: nat
    var root: nat
    var bytes: nat
    const bytecounts: array<nat>
    const strides: array<nat>
    var executors: seq<Exec>
    var calls: nat                        // how often the user's callback was called
    var barrier: bool                     // a barrier has been added
    var barrierCalls: bool                // its done callback is `cb_barrier_done`
    var barrierStarts: nat                // how often it was started
    var started: seq<nat>                 // the colours whose executors were started, in order
    ghost var total: nat                  // the data bytes and the memory of the last `Initialize`
    ghost var span: nat
    var finished: set<nat>                // the colours whose executors have reported in this round
    ghost var phase: Phase
    ghost var rounds: nat

    ghost predicate Arrays()
      reads this
    {
      NUMCOLORS >= 1 && bytecounts != strides && bytecounts.Length == NUMCOLORS && strides.Length == NUMCOLORS
    }

    /** The arrays hold the cut of the last `Initialize`. */
    ghost predicate Cuts()
      reads this, bytecounts, strides
    {
      && Arrays()
      && numColors == Colors(total)
      && nComplete == numColors + 1
      && bytes == U32(total)
      && |executors| == numColors
      && (forall c :: 0 <= c < numColors ==> executors[c].root == root)
      && (forall c :: 0 <= c < numColors ==> bytecounts[c] == Share(total, Cut(total, numColors), numColors, c))
      && (forall c :: 0 <= c < numColors ==> strides[c] == Share(span, Cut(span, numColors), numColors, c))
    }

    /** How many colours a fresh `initialize` for so many bytes chooses. */
    function Colors(total: nat): (n: nat)
      ensures n <= NUMCOLORS && n <= pick(total % 0x1_0000_0000, numColorsMax)
      ensures n == NUMCOLORS || n == pick(total % 0x1_0000_0000, numColorsMax)
    {
      var n := pick(U32(total), numColorsMax);
      if n > NUMCOLORS then NUMCOLORS else n
    }

    constructor (maxColors: nat, pick: (nat, nat) -> nat, ncolors: nat)
      requires maxColors >= 1
      ensures Arrays() && fresh(bytecounts) && fresh(strides)
      ensures NUMCOLORS == maxColors && this.pick == pick && numColors == numColorsMax == ncolors
      ensures executors == [] && View() == Fresh().(colors := ncolors, nComplete := ncolors + 1)
    {
      NUMCOLORS := maxColors;
      this.pick := pick;
      numColors, numColorsMax := ncolors, ncolors;
      nComplete := ncolors + 1;
      doneCount := 0;
      bytecounts, strides := new nat[maxColors], new nat[maxColors];
      executors := [];
      calls := 0;
      barrier, barrierCalls, barrierStarts, started := false, false, 0, [];
      phase, finished, rounds := Idle, {}, 0;
    }

    /** `initialize`, of a new composite or from `reset`. */
    method Initialize(root: nat, count: nat, size: nat, extent: nat, src: int, dst: int)
      requires Arrays() && executors == [] && numColors == numColorsMax
      modifies this`numColors, this`nComplete, this`root, this`bytes, this`executors, this`total, this`span
      modifies bytecounts, strides
      ensures Cuts() && this.root == root && total == Product(count, size) && span == Product(count, extent)
      ensures executors == Placed(Plan(total, span, numColors), root, src, dst)
    {
      var data, memory := Product(count, size), Product(count, extent);
      total, span := data, memory;
      numColors := pick(U32(data), numColors);
      if numColors > NUMCOLORS {
        numColors := NUMCOLORS;
      }
      nComplete := numColors + 1;
      this.root := root;
      bytes := U32(data);
      var aligned_stride := CountBytes(data, memory);
      AddExecutors(aligned_stride, root, src, dst);
    }

    /** The part of `initialize` that fills the two arrays. */
    method CountBytes(data: nat, memory: nat) returns (aligned_stride: nat)
      requires Arrays() && numColors <= NUMCOLORS
      modifies bytecounts, strides
      ensures aligned_stride == Cut(memory, numColors)
      ensures forall c :: 0 <= c < numColors ==> bytecounts[c] == Share(data, Cut(data, numColors), numColors, c)
      ensures forall c :: 0 <= c < numColors ==> strides[c] == Share(memory, Cut(memory, numColors), numColors, c)
    {
      bytecounts[0] := U32(data);
      strides[0] := U32(memory);
      aligned_stride := 0;
      if numColors > 1 {
        var aligned_bytes := Cut(data, numColors);
        aligned_stride := Cut(memory, numColors);
        FillCounts(aligned_bytes, aligned_stride);
        var last := numColors - 1;
        bytecounts[last] := Remainder(data, aligned_bytes, numColors);
        strides[last] := Remainder(memory, aligned_stride, numColors);
        assert forall c :: 0 <= c < last ==> bytecounts[c] == aligned_bytes && strides[c] == aligned_stride;
      }
    }

    /** An executor with its buffers, when colours start `spacing` apart. */
    function Buffers(root: nat, src: int, dst: int, spacing: nat, c: nat): Exec
      requires Arrays() && c < NUMCOLORS
      reads this, bytecounts, strides
    {
      Exec(root, src + U32(spacing * c), dst + U32(spacing * c), bytecounts[c], strides[c])
    }

    /** The loop of `initialize` that constructs the executors. */
    method AddExecutors(aligned_stride: nat, root: nat, src: int, dst: int)
      requires Arrays() && numColors <= NUMCOLORS && executors == []
      modifies this`executors
      ensures |executors| == numColors
      ensures forall d :: 0 <= d < numColors ==> executors[d] == Buffers(root, src, dst, aligned_stride, d)
    {
      var c := 0;
      while c < numColors
        invariant c <= numColors && |executors| == c
        invariant forall d :: 0 <= d < c ==> executors[d] == Buffers(root, src, dst, aligned_stride, d)
      {
        executors := executors + [Buffers(root, src, dst, aligned_stride, c)];
        c := c + 1;
      }
    }

    /** The first loop of `initialize`, with the two stores before it. */
    method FillCounts(aligned_bytes: nat, aligned_stride: nat)
      requires Arrays() && 1 < numColors <= NUMCOLORS
      modifies bytecounts, strides
      ensures forall c :: 0 <= c < numColors ==> bytecounts[c] == aligned_bytes && strides[c] == aligned_stride
    {
      bytecounts[0] := aligned_bytes;
      strides[0] := aligned_stride;
      var c := 1;
      while c < numColors
        invariant 1 <= c <= numColors
        invariant forall d :: 0 <= d < c ==> bytecounts[d] == aligned_bytes && strides[d] == aligned_stride
      {
        bytecounts[c] := aligned_bytes;
        strides[c] := aligned_stride;
        c := c + 1;
      }
    }

    /**
      `reset`: another byte count or root means a new cut; otherwise the old cut is laid over the
      new buffers (`ResetLikeFresh` says when that is what a fresh `initialize` would give).
     */
    method Reset(root: nat, count: nat, size: nat, extent: nat, src: int, dst: int)
      requires Cuts()
      modifies this`doneCount, this`numColors, this`nComplete, this`root, this`bytes, this`executors
      modifies this`total, this`span, bytecounts, strides
      ensures Cuts() && doneCount == 0 && this.root == root
      ensures
        var again := old(total) % 0x1_0000_0000 != Product(count, size) || old(this.root) != root;
        && (again ==> total == Product(count, size) && span == Product(count, extent))
        && (!again ==> total == old(total) && span == old(span))
      ensures executors == Placed(Plan(total, span, numColors), root, src, dst)
    {
      doneCount := 0;
      if bytes != Product(count, size) || this.root != root {
        executors := [];
        numColors := numColorsMax;
        Initialize(root, count, size, extent, src, dst);
      } else {
        KeepCut(src, dst);
      }
    }

    /** The second half of `reset`. */
    method KeepCut(src: int, dst: int)
      requires Cuts()
      modifies this`executors
      ensures Cuts() && executors == Placed(Plan(total, span, numColors), root, src, dst)
    {
      if numColors > 0 {
        SetBuffers(src, dst);
        forall c | 0 <= c < numColors ensures U32(strides[0] * c) == U32(Cut(span, numColors) * c) {
          if numColors == 1 {
            assert c == 0;
          }
        }
      }
    }

    /** The loop of `reset` that keeps the cut. */
    method SetBuffers(src: int, dst: int)
      requires Arrays() && |executors| == numColors <= NUMCOLORS && numColors > 0
      modifies this`executors
      ensures |executors| == numColors
      ensures forall d :: 0 <= d < numColors ==>
                executors[d] == Buffers(old(executors)[d].root, src, dst, strides[0], d)
    {
      var c := 0;
      while c < numColors
        invariant c <= numColors && |executors| == numColors
        invariant forall d :: c <= d < numColors ==> executors[d] == old(executors)[d]
        invariant forall d :: 0 <= d < c ==>
                    executors[d] == Buffers(old(executors)[d].root, src, dst, strides[0], d)
      {
        executors := executors[c := Buffers(executors[c].root, src, dst, strides[0], c)];
        c := c + 1;
      }
    }

    // ------------------------------------------------------------------------------- counting

    ghost function View(): State
      reads this
    {
      State(numColors, nComplete, doneCount, phase, finished, rounds, calls, false)
    }

    /** `cb_composite_done`, called for colour `k`. */
    method CbCompositeDone(k: nat)
      requires CompositeCompletion.Inv(View()) && Enabled(View(), Finish(k))
      modifies this`doneCount, this`calls, this`finished
      ensures View() == Do(old(View()), Finish(k)) && CompositeCompletion.Inv(View())
    {
      StepKeeps(View(), Finish(k));
      finished := finished + {k};
      assert doneCount < nComplete;
      doneCount := doneCount + 1;
      if doneCount == nComplete {
        calls := calls + 1;
      }
    }

    /** `addBarrier` */
    method AddBarrier()
      modifies this`barrier
      ensures barrier
    {
      barrier := true;
    }

    /** `restart`: the barrier is told to call `cb_barrier_done`, and started; without one nothing happens. */
    method Restart()
      requires calls == rounds && doneCount == 0 && nComplete == numColors + 1
      modifies this`barrierCalls, this`barrierStarts, this`phase, this`finished, this`rounds
      ensures barrier ==> barrierCalls && barrierStarts == old(barrierStarts) + 1 && BegunFrom(old(View()))
      ensures !barrier ==> View() == old(View()) && barrierStarts == old(barrierStarts)
    {
      if barrier {
        BeginRound();
        StartBarrier(old(View()));
      }
    }

    /** A round has begun: the machine took its restart step from `was`. */
    ghost predicate BegunFrom(was: State)
      reads this
    {
      && Enabled(was, Action.Restart(numColors)) && View() == Do(was, Action.Restart(numColors))
      && CompositeCompletion.Inv(View())
    }

    method StartBarrier(ghost was: State)
      requires BegunFrom(was)
      modifies this`barrierCalls, this`barrierStarts
      ensures barrierCalls && barrierStarts == old(barrierStarts) + 1 && BegunFrom(was)
    {
      barrierCalls := true;
      barrierStarts := barrierStarts + 1;
      assert View() == old(View());
    }

    /** The started barrier begins a round. */
    method BeginRound()
      requires calls == rounds && doneCount == 0 && nComplete == numColors + 1
      modifies this`phase, this`finished, this`rounds
      ensures BegunFrom(old(View()))
    {
      phase, finished, rounds := Barrier, {}, rounds + 1;
    }

    /** `reset` and `restart`, after the callback of the round before: one step of the machine. */
    method NextRound(q: Request)
      requires Cuts() && CompositeCompletion.Inv(View()) && calls == rounds && barrier
      modifies this, bytecounts, strides
      ensures Cuts() && barrier && barrierCalls && barrierStarts == old(barrierStarts) + 1
      ensures BegunFrom(old(View())) && rounds == old(rounds) + 1
      ensures executors == Placed(Plan(total, span, numColors), q.root, q.src, q.dst)
    {
      ghost var was := View();
      Reset(q.root, q.count, q.size, q.extent, q.src, q.dst);
      ghost var reset := View();
      Restart();
      RestartOverwrites(was, reset, numColors);
    }

    /** `start` of the executor of colour `i`; any executor may report from inside the call. */
    method Start(i: nat) returns (ghost acts: seq<Action>)
      requires CompositeCompletion.Inv(View()) && Enabled(View(), StartNext) && phase == Starting(i)
      modifies this`doneCount, this`calls, this`finished, this`phase, this`started
      ensures CompositeCompletion.Inv(View()) && phase == Starting(i + 1) && started == old(started) + [i]
      ensures Run(old(View()), acts, View())
    {
      RunThen(View(), [], View(), StartNext);
      StepKeeps(View(), StartNext);
      phase := Starting(phase.next + 1);
      started := started + [i];
      acts := [StartNext];
      var inline: nat := *;
      while inline > 0
        invariant CompositeCompletion.Inv(View()) && phase == Starting(i + 1) && started == old(started) + [i]
        invariant Run(old(View()), acts, View())
      {
        var k: nat := *;
        if k < numColors && k !in finished {
          RunThen(old(View()), acts, View(), Finish(k));
          CbCompositeDone(k);
          acts := acts + [Finish(k)];
        }
        inline := inline - 1;
      }
    }

    /** `cb_barrier_done` is entered. */
    ghost method EnterStarting()
      requires CompositeCompletion.Inv(View()) && phase == Barrier
      modifies this`phase
      ensures View() == Do(old(View()), BarrierDone) && CompositeCompletion.Inv(View()) && phase == Starting(0)
    {
      StepKeeps(View(), BarrierDone);
      phase := Starting(0);
    }

    /** The loop of `cb_barrier_done`. */
    method StartAll() returns (ghost acts: seq<Action>)
      requires CompositeCompletion.Inv(View()) && phase == Starting(0)
      modifies this`doneCount, this`calls, this`finished, this`phase, this`started
      ensures CompositeCompletion.Inv(View()) && phase == Starting(numColors)
      ensures StartedInOrder(old(started), started, numColors)
      ensures Run(old(View()), acts, View())
    {
      acts := [];
      var i := 0;
      while i < numColors
        invariant CompositeCompletion.Inv(View()) && i <= numColors && phase == Starting(i)
        invariant StartedInOrder(old(started), started, i)
        invariant Run(old(View()), acts, View())
      {
        ghost var before, more := View(), [];
        OneMoreStarted(old(started), started, i);
        more := Start(i);
        RunConcat(old(View()), acts, before, more, View());
        acts := acts + more;
        i := i + 1;
      }
    }

    /** The last lines of `cb_barrier_done`. */
    method CountBarrier()
      requires CompositeCompletion.Inv(View()) && Enabled(View(), EndStart)
      modifies this`doneCount, this`calls, this`phase
      ensures View() == Do(old(View()), EndStart) && CompositeCompletion.Inv(View())
    {
      StepKeeps(View(), EndStart);
      phase := Started;
      assert doneCount < nComplete;
      doneCount := doneCount + 1;
      if doneCount == nComplete {
        calls := calls + 1;
      }
    }

    /**
      `cb_barrier_done`: whatever reports from inside, it is a run of the machine that leaves all
      executors started; the user is not called before the last of them is.
     */
    method CbBarrierDone() returns (ghost acts: seq<Action>)
      requires CompositeCompletion.Inv(View()) && phase == Barrier
      modifies this`doneCount, this`calls, this`finished, this`phase, this`started
      ensures CompositeCompletion.Inv(View()) && phase == Started
      ensures StartedInOrder(old(started), started, numColors)
      ensures Run(old(View()), acts, View())
    {
      RunThen(View(), [], View(), BarrierDone);
      EnterStarting();
      ghost var entered := View();
      ghost var more := StartAll();
      RunConcat(old(View()), [BarrierDone], entered, more, View());
      acts := [BarrierDone] + more;
      RunThen(old(View()), acts, View(), EndStart);
      acts := acts + [EndStart];
      CountBarrier();
    }

    // ------------------------------------------------------------------------------- whole rounds

    /** Some colours report while the barrier is still running here. */
    method EarlyReports() returns (ghost acts: seq<Action>)
      requires CompositeCompletion.Inv(View()) && phase == Barrier
      modifies this`doneCount, this`calls, this`finished
      ensures CompositeCompletion.Inv(View()) && Run(old(View()), acts, View())
    {
      acts := [];
      var reports: nat := *;
      while reports > 0
        invariant CompositeCompletion.Inv(View()) && Run(old(View()), acts, View())
      {
        var k: nat := *;
        if k < numColors && k !in finished {
          RunThen(old(View()), acts, View(), Finish(k));
          CbCompositeDone(k);
          acts := acts + [Finish(k)];
        }
        reports := reports - 1;
      }
    }

    /** The colours that have not reported do so, in any order. */
    method LateReports() returns (ghost acts: seq<Action>)
      requires CompositeCompletion.Inv(View()) && phase == Started
      modifies this`doneCount, this`calls, this`finished
      ensures CompositeCompletion.Inv(View()) && Run(old(View()), acts, View()) && calls == rounds
    {
      acts := [];
      OverIffCounted(View());
      while doneCount != nComplete
        invariant CompositeCompletion.Inv(View()) && Run(old(View()), acts, View())
        invariant doneCount <= nComplete
        decreases nComplete - doneCount
      {
        OverIffCounted(View());
        var k: nat :| k < numColors && k !in finished;
        RunThen(old(View()), acts, View(), Finish(k));
        CbCompositeDone(k);
        acts := acts + [Finish(k)];
      }
      OverIffCounted(View());
    }

    /** A whole round once it has begun: it is a run of the machine, and the user is called exactly once. */
    method PlayRound() returns (ghost acts: seq<Action>)
      requires CompositeCompletion.Inv(View()) && phase == Barrier
      modifies this`doneCount, this`calls, this`finished, this`phase, this`started
      ensures CompositeCompletion.Inv(View()) && Run(old(View()), acts, View())
      ensures calls == rounds == old(calls) + 1 && StartedInOrder(old(started), started, numColors)
    {
      acts := EarlyReports();
      ghost var waiting := View();
      ghost var starting := CbBarrierDone();
      RunConcat(old(View()), acts, waiting, starting, View());
      ghost var started := View();
      ghost var late := LateReports();
      RunConcat(old(View()), acts + starting, started, late, View());
      acts := acts + starting + late;
    }

    /** A round from its reset to its callback. */
    method OneRound(q: Request) returns (ghost acts: seq<Action>)
      requires Cuts() && CompositeCompletion.Inv(View()) && calls == rounds && barrier
      modifies this, bytecounts, strides
      ensures Cuts() && CompositeCompletion.Inv(View()) && barrier && Run(old(View()), acts, View())
      ensures calls == rounds == old(calls) + 1 && barrierStarts == old(barrierStarts) + 1
    {
      NextRound(q);
      ghost var begun := View();
      RunThen(old(View()), [], old(View()), Action.Restart(numColors));
      ghost var more := PlayRound();
      acts := [Action.Restart(begun.colors)] + more;
      RunConcat(old(View()), [Action.Restart(begun.colors)], begun, more, View());
    }

    /** Any number of rounds, whatever each of them asks for: the user is called once for each. */
    method Rounds(requests: seq<Request>) returns (ghost acts: seq<Action>)
      requires Cuts() && CompositeCompletion.Inv(View()) && calls == rounds && barrier
      modifies this, bytecounts, strides
      ensures Cuts() && CompositeCompletion.Inv(View()) && barrier && Run(old(View()), acts, View())
      ensures calls == rounds == old(calls) + |requests| && barrierStarts == old(barrierStarts) + |requests|
    {
      acts := [];
      var i := 0;
      while i < |requests|
        invariant 0 <= i <= |requests| && Cuts() && CompositeCompletion.Inv(View()) && barrier
        invariant Run(old(View()), acts, View())
        invariant calls == rounds == old(calls) + i && barrierStarts == old(barrierStarts) + i
      {
        ghost var before, more := View(), [];
        more := OneRound(requests[i]);
        RunConcat(old(View()), acts, before, more, View());
        acts := acts + more;
        i := i + 1;
      }
    }
  }

  /**
    For unchanged bytes and root, `reset` keeps the cut of the old span where a fresh `initialize`
    would make one of the new span: the executors agree exactly when the two spans are equal.
   */
  lemma ResetLikeFresh(total: nat, span: nat, span': nat, colors: nat, root: nat, src: int, dst: int)
    requires span < WORD_32 && span' < WORD_32 && colors >= 1
    ensures Placed(Plan(total, span, colors), root, src, dst) == Placed(Plan(total, span', colors), root, src, dst)
            <==> span == span'
  {
    var p, q := Plan(total, span, colors), Plan(total, span', colors);
    if Placed(p, root, src, dst) == Placed(q, root, src, dst) {
      forall c | 0 <= c < colors ensures p[c] == q[c] {
        assert Placed(p, root, src, dst)[c] == Placed(q, root, src, dst)[c];
      }
      assert p == q;
      PlanDetermined(total, span, span', colors);
    }
  }
}
