/**
  The posting functions and the completion handler as code on one request's fields, with the
  network played by `Simple`, which may complete any number of outstanding sends before it returns.
  Every method is proved to take a run of the machine in PacedSender; `Operation` plays a whole
  operation out, whatever the network chooses.
 */
module PacedSenderCode {
  import opened PacedSender

  class ManyToManySend {
    const c: Config
    var doneCountDown: int
    var pacingCountDown: int
    var postInProgress: bool
    var nextPostPending: bool
    var nextDestIndex: nat
    var log: seq<nat>
    var completed: nat
    var callbacks: nat
    ghost var frames: seq<Frame>

    ghost function State(): Sender
      reads this
    {
      Sender(doneCountDown, pacingCountDown, postInProgress, nextPostPending, nextDestIndex,
             frames, log, completed, callbacks)
    }

    constructor (c: Config)
      ensures this.c == c
    {
      this.c := c;
    }

    /** The number of destinations of the window that starts now. */
    function WindowSize(): int
      reads this
    {
      if doneCountDown > pacingCountDown then pacingCountDown else doneCountDown
    }

    /** `simple`: the send is handed over; completions may be reported from inside the call. */
    method Simple(dest: nat) returns (ghost steps: seq<Step>)
      requires Inv(c, State()) && Enabled(c, State(), Post) && dest == c.perm[Target(State())]
      modifies this
      ensures Inv(c, State()) && doneCountDown <= old(doneCountDown)
      ensures frames == DoPost(c, old(State())).frames && log == old(log) + [dest]
      ensures Run(c, old(State()), steps, State())
      decreases doneCountDown, 1
    {
      PostKeeps(c, State());
      ghost var posted := DoPost(c, State());
      log := log + [dest];
      frames := posted.frames;
      steps := [Post];
      RunThen(c, old(State()), [], old(State()), Post);
      assert State() == posted;
      var inline: nat := *;
      while inline > 0 && completed < |log|
        invariant Inv(c, State()) && frames == posted.frames && log == posted.log
        invariant doneCountDown <= old(doneCountDown)
        invariant Run(c, old(State()), steps, State())
        decreases inline
      {
        ghost var before, more := State(), [];
        more := SendM2mDone();
        RunConcat(c, old(State()), steps, before, more, State());
        steps := steps + more;
        inline := inline - 1;
      }
    }

    /** `sendM2mDone` */
    method SendM2mDone() returns (ghost steps: seq<Step>)
      requires Inv(c, State()) && completed < |log|
      modifies this
      ensures Inv(c, State()) && doneCountDown < old(doneCountDown)
      ensures old(postInProgress) ==> frames == old(frames) && log == old(log)
      ensures !old(postInProgress) ==> !postInProgress
      ensures Run(c, old(State()), steps, State())
      decreases doneCountDown, 0
    {
      ghost var after := DoComplete(c, State());
      CompleteKeeps(c, State());
      RunThen(c, State(), [], State(), Complete);
      steps := [Complete];
      completed := completed + 1;
      doneCountDown := doneCountDown - 1;
      if doneCountDown == 0 {
        callbacks := callbacks + 1;
        assert State() == after;
      } else {
        pacingCountDown := pacingCountDown - 1;
        if pacingCountDown == 0 {
          ghost var more := WindowDone(after);
          RunConcat(c, old(State()), steps, after, more, State());
          steps := steps + more;
        } else {
          assert State() == after;
        }
      }
    }

    /** The last lines of `sendM2mDone`: the window is over; post the next or leave word for the loop. */
    method WindowDone(ghost after: Sender) returns (ghost steps: seq<Step>)
      requires Inv(c, after)
      requires var s := State().(pacingCountDown := c.window, nextDestIndex := nextDestIndex + c.window);
               after == if s.postInProgress then s.(nextPostPending := true) else EnterNext(s)
      requires !postInProgress ==> frames == []
      modifies this
      ensures Inv(c, State()) && doneCountDown <= old(doneCountDown)
      ensures old(postInProgress) ==> frames == old(frames) && log == old(log)
      ensures !old(postInProgress) ==> !postInProgress
      ensures Run(c, after, steps, State())
      decreases doneCountDown, 6
    {
      pacingCountDown := c.window;
      nextDestIndex := nextDestIndex + c.window;
      if !postInProgress {
        steps := PostNext();
      } else {
        nextPostPending := true;
        steps := [];
      }
    }

    /** The inner loop of `postNextManytomany_impl`. */
    method PostWindow(ndestinations: nat) returns (ghost steps: seq<Step>)
      requires Inv(c, State()) && frames != [] && Top(State()) == Next(0, ndestinations) && !nextPostPending
      modifies this
      ensures Inv(c, State()) && doneCountDown <= old(doneCountDown)
      ensures frames != [] && Top(State()) == Next(ndestinations, ndestinations)
      ensures |log| == |old(log)| + ndestinations
      ensures Run(c, old(State()), steps, State())
      decreases doneCountDown, 2
    {
      steps := [];
      var i := 0;
      while i < ndestinations
        invariant 0 <= i <= ndestinations && Inv(c, State()) && doneCountDown <= old(doneCountDown)
        invariant frames != [] && Top(State()) == Next(i, ndestinations)
        invariant |log| == |old(log)| + i
        invariant Run(c, old(State()), steps, State())
      {
        NextPostEnabled(c, State());
        ghost var before, more := State(), [];
        more := Simple(c.perm[i + nextDestIndex]);
        RunConcat(c, old(State()), steps, before, more, State());
        steps := steps + more;
        i := i + 1;
      }
    }

    /** `postNextManytomany_impl` is about to post a window of `count`. */
    ghost predicate AtWindow(count: int)
      reads this
    {
      Inv(c, State()) && !nextPostPending && frames != [] && count >= 1 && Top(State()) == Next(0, count)
    }

    /** `postNextManytomany_impl` is about to return. */
    ghost predicate AtReturn()
      reads this
    {
      Inv(c, State()) && !nextPostPending && frames != [] && Top(State()).Next? && Enabled(c, State(), LoopEnd)
    }

    /** One round of the do-loop: post the window and, if word was left, set up the next one. */
    method Round(ndestinations: int) returns (again: bool, following: int, ghost steps: seq<Step>)
      requires AtWindow(ndestinations)
      modifies this
      ensures doneCountDown <= old(doneCountDown) && |old(log)| < |log| <= |c.perm|
      ensures if again then AtWindow(following) else AtReturn()
      ensures Run(c, old(State()), steps, State())
      decreases doneCountDown, 3
    {
      steps := PostWindow(ndestinations);
      again, following := nextPostPending, 0;
      if again {
        AnotherWindow(c, State());
        RunThen(c, old(State()), steps, State(), LoopEnd);
        steps := steps + [LoopEnd];
        frames := DoLoopEnd(c, State()).frames;
        following := WindowSize();
        nextPostPending := false;
      }
    }

    /** The do-loop of `postNextManytomany_impl`. */
    method Rounds(first: int) returns (ghost steps: seq<Step>)
      requires AtWindow(first)
      modifies this
      ensures AtReturn() && doneCountDown <= old(doneCountDown)
      ensures Run(c, old(State()), steps, State())
      decreases doneCountDown, 4
    {
      var again, ndestinations := true, first;
      steps := [];
      while again
        invariant if again then AtWindow(ndestinations) else AtReturn()
        invariant doneCountDown <= old(doneCountDown) && |log| <= |c.perm|
        invariant Run(c, old(State()), steps, State())
        decreases |c.perm| - |log|, again
      {
        ghost var before, more := State(), [];
        again, ndestinations, more := Round(ndestinations);
        RunConcat(c, old(State()), steps, before, more, State());
        steps := steps + more;
      }
    }

    /** `postNextManytomany_impl` */
    method PostNext() returns (ghost steps: seq<Step>)
      requires Inv(c, EnterNext(State())) && (frames == [] || frames == [Resumed])
      modifies this
      ensures Inv(c, State()) && !postInProgress && doneCountDown <= old(doneCountDown)
      ensures Run(c, EnterNext(old(State())), steps, State())
      decreases doneCountDown, 5
    {
      ghost var entered := EnterNext(State());
      FirstOfNext(c, State());
      postInProgress := true;
      frames := entered.frames;
      var ndestinations := WindowSize();
      nextPostPending := false;
      assert State() == entered;
      steps := Rounds(ndestinations);
      NoOtherWindow(c, State());
      RunThen(c, entered, steps, State(), LoopEnd);
      steps := steps + [LoopEnd];
      frames := [];
      postInProgress := false;
    }

    /** The loop of `postManytomany_impl`. */
    method PostFirstWindow(ndestinations: nat) returns (ghost steps: seq<Step>)
      requires Inv(c, State()) && frames == [First(0, ndestinations)]
      modifies this
      ensures Inv(c, State()) && frames == [First(ndestinations, ndestinations)]
      ensures Run(c, old(State()), steps, State())
    {
      steps := [];
      var i := 0;
      while i < ndestinations
        invariant 0 <= i <= ndestinations && Inv(c, State()) && frames == [First(i, ndestinations)]
        invariant Run(c, old(State()), steps, State())
      {
        ghost var before, more := State(), [];
        more := Simple(c.perm[i]);
        RunConcat(c, old(State()), steps, before, more, State());
        steps := steps + more;
        i := i + 1;
      }
    }

    /** The last lines of `postManytomany_impl`. */
    method AfterFirstWindow(k: nat) returns (ghost steps: seq<Step>)
      requires Inv(c, State()) && frames == [First(k, k)]
      modifies this
      ensures Inv(c, State()) && !postInProgress
      ensures Run(c, old(State()), steps, State())
    {
      ghost var left := DoLoopEnd(c, State());
      LoopEndKeeps(c, State());
      RunThen(c, State(), [], State(), LoopEnd);
      steps := [LoopEnd];
      postInProgress := false;
      if nextPostPending {
        frames := [Resumed];
        assert EnterNext(State()) == left;
        ghost var more := PostNext();
        RunConcat(c, old(State()), steps, left, more, State());
        steps := steps + more;
      } else {
        frames := [];
      }
    }

    /** `postManytomany_impl` */
    method PostManytomany() returns (ghost steps: seq<Step>)
      requires c.Valid()
      modifies this
      ensures Inv(c, State()) && !postInProgress
      ensures Run(c, Begin(c), steps, State())
    {
      nextDestIndex := 0;
      nextPostPending := false;
      pacingCountDown := c.window;
      doneCountDown := |c.perm|;
      log, completed, callbacks := [], 0, 0;
      var ndestinations := WindowSize();
      postInProgress := true;
      frames := [First(0, ndestinations)];
      BeginInv(c);
      assert State() == Begin(c);
      steps := PostFirstWindow(ndestinations);
      ghost var before, more := State(), [];
      more := AfterFirstWindow(ndestinations);
      RunConcat(c, Begin(c), steps, before, more, State());
      steps := steps + more;
    }

    /**
      A whole operation: post, then take the completions that did not come from inside a call, one
      by one. However they are spread, every destination is sent to, in permuted order, and the
      callback fires exactly once.
     */
    method Operation()
      requires c.Valid()
      modifies this
      ensures log == c.perm && completed == |c.perm| && callbacks == 1 && !postInProgress
    {
      ghost var steps := PostManytomany();
      while completed < |c.perm|
        invariant Inv(c, State()) && !postInProgress
        decreases doneCountDown
      {
        steps := SendM2mDone();
      }
    }
  }

  lemma FirstOfNext(c: Config, s: Sender)
    requires Inv(c, EnterNext(s))
    ensures Min(s.doneCountDown, s.pacingCountDown) >= 1
    ensures Top(EnterNext(s)) == Next(0, Min(s.doneCountDown, s.pacingCountDown))
  {
  }

  lemma NextPostEnabled(c: Config, s: Sender)
    requires Inv(c, s) && s.frames != [] && Top(s).Next? && Top(s).next < Top(s).count
    ensures Enabled(c, s, Post) && Target(s) == Top(s).next + s.nextDestIndex < |c.perm|
    ensures DoPost(c, s).frames != [] && Top(DoPost(c, s)) == Next(Top(s).next + 1, Top(s).count)
  {
  }

  /** With no post pending it returns, and so does the first post if that was its caller. */
  lemma NoOtherWindow(c: Config, s: Sender)
    requires Inv(c, s) && Enabled(c, s, LoopEnd) && Top(s).Next? && !s.nextPostPending
    ensures Inv(c, DoLoopEnd(c, s))
    ensures DoLoopEnd(c, s) == s.(postInProgress := false, frames := [])
  {
    LoopEndKeeps(c, s);
  }

  /** With a post pending, the loop of `postNextManytomany_impl` goes round with a window of its own. */
  lemma AnotherWindow(c: Config, s: Sender)
    requires Inv(c, s) && Enabled(c, s, LoopEnd) && Top(s).Next? && s.nextPostPending
    ensures Inv(c, DoLoopEnd(c, s))
    ensures DoLoopEnd(c, s) == WithTop(s.(nextPostPending := false), Next(0, Min(s.doneCountDown, s.pacingCountDown)))
    ensures Min(s.doneCountDown, s.pacingCountDown) >= 1
  {
    LoopEndKeeps(c, s);
  }
}
