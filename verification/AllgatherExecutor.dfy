/** The executor object: every method is proved to do what the function of the same name says. */
module AllgatherExecutor {
  import opened AllgatherSteps
  import Steps = AllgatherSteps

  /** `posted` records the messages handed to `multicast`. */
  class AllgatherExec {
    const c: Config
    var curPhase: nat
    var sendsLeft: int
    const recvs: array<PhaseRecv>
    const tmp: array<Block>
    const out: array<Block>
    var callbacks: nat
    var posted: seq<Post>

    ghost predicate Valid()
      reads this, recvs
    {
      && c.Valid()
      && recvs.Length == |c.sources|
      && tmp.Length == out.Length == c.n
      && tmp != out
      && forall p :: 0 <= p < recvs.Length ==> WellFormedRecv(c, recvs[p], p)
    }

    ghost function State(): (e: Exec)
      requires Valid()
      reads this, recvs, tmp, out
      ensures WellFormed(c, e)
    {
      Exec(curPhase, sendsLeft, recvs[..], tmp[..], out[..], callbacks)
    }

    /** `setSchedule` and `setBuffers`: no record is configured; the buffers hold anything. */
    constructor (c: Config, sendsLeft: int, tmp: array<Block>, out: array<Block>)
      requires c.Valid() && tmp.Length == out.Length == c.n && tmp != out
      ensures Valid() && fresh(recvs) && this.c == c && this.tmp == tmp && this.out == out
      ensures Valid()
      ensures State() == Exec(0, sendsLeft, seq(|c.sources|, _ => PhaseRecv(false, 0, 0, [])), tmp[..], out[..], 0)
      ensures posted == []
    {
      this.c := c;
      curPhase, this.sendsLeft, callbacks, posted := 0, sendsLeft, 0, [];
      recvs := new PhaseRecv[|c.sources|](_ => PhaseRecv(false, 0, 0, []));
      this.tmp, this.out := tmp, out;
    }

    /** The loop both `sendNext` and `notifyRecv` use to aim a phase's receives at the buffer. */
    method SlotsOf(p: nat) returns (slots: seq<Slot>)
      requires Valid() && p < |c.sources|
      ensures slots == c.SlotsOf(p)
    {
      slots := [];
      for i := 0 to |c.sources[p]|
        invariant slots == c.SlotsOf(p)[..i]
      {
        slots := slots + [c.SlotFor(c.sources[p][i])];
      }
    }

    method Fire()
      requires Valid()
      modifies this`callbacks
      ensures Valid() && State() == Fired(c, old(State()))
    {
      if c.hasCallback {
        callbacks := callbacks + 1;
      }
    }

    method PostAll()
      requires Valid() && curPhase < |c.sources|
      modifies this`posted
      ensures posted == old(posted) + c.PostsOf(curPhase)
    {
      var p := curPhase;
      for i := 0 to |c.sources[p]|
        invariant posted == old(posted) + c.PostsOf(p)[..i]
      {
        posted := posted + [Post(c.Opposite(c.sources[p][i].rank), p, c.sources[p][i].len)];
      }
    }

    /** The two transforms that put the staged blocks into their final layout. */
    method Deliver()
      requires Valid()
      modifies out
      ensures out[..] == Unrotated(c.me, tmp[..])
    {
      var split := c.n - c.me;
      for k := 0 to split
        invariant forall j :: 0 <= j < k ==> out[c.me + j] == tmp[j]
      {
        out[c.me + k] := tmp[k];
      }
      for k := 0 to c.me
        invariant forall j :: 0 <= j < split ==> out[c.me + j] == tmp[j]
        invariant forall j :: 0 <= j < k ==> out[j] == tmp[split + j]
      {
        out[k] := tmp[split + k];
      }
      assert out[..] == tmp[split..] + tmp[..split];
    }

    method SendNext()
      requires Valid()
      modifies this`sendsLeft, this`callbacks, this`posted, recvs, out
      ensures Valid() && State() == Steps.SendNext(c, old(State())).0
      ensures posted == old(posted) + Steps.SendNext(c, old(State())).1
    {
      if curPhase < |c.sources| {
        sendsLeft := |c.sources[curPhase]|;
        if !recvs[curPhase].configured {
          var slots := SlotsOf(curPhase);
          recvs[curPhase] :=
            recvs[curPhase].(configured := true, partnerCount := |c.sources[curPhase]|, slots := slots);
        }
        PostAll();
      } else {
        Deliver();
        Fire();
      }
    }

    method Start()
      requires Valid()
      modifies this, recvs, tmp, out
      ensures Valid() && State() == Steps.Start(c, old(State())).0
      ensures posted == old(posted) + Steps.Start(c, old(State())).1
    {
      if |c.block| == 0 && c.hasCallback {
        Fire();
        return;
      }
      tmp[0] := c.block;
      curPhase := 0;
      sendsLeft := 0;
      SendNext();
    }

    /** The statements both completion handlers run when a phase is over. */
    method NextPhase()
      requires Valid()
      modifies this, recvs, out
      ensures Valid() && State() == Steps.NextPhase(c, old(State())).0
      ensures posted == old(posted) + Steps.NextPhase(c, old(State())).1
    {
      curPhase := curPhase + 1;
      sendsLeft := 0;
      SendNext();
    }

    method NotifySendDone()
      requires Valid() && curPhase < |c.sources|
      modifies this, recvs, out
      ensures Valid() && State() == Steps.NotifySendDone(c, old(State())).0
      ensures posted == old(posted) + Steps.NotifySendDone(c, old(State())).1
    {
      sendsLeft := sendsLeft - 1;
      if sendsLeft == 0 {
        var rv := recvs[curPhase];
        recvs[curPhase] := rv.(doneCount := rv.doneCount - rv.partnerCount);
        ghost var counted := old(State()).(sendsLeft := 0, recvs := old(State()).recvs[curPhase := recvs[curPhase]]);
        assert State() == counted;
        if recvs[curPhase].doneCount == 0 {
          recvs[curPhase] := recvs[curPhase].(partnerCount := 0);
          assert State() == counted.(recvs := old(State()).recvs[curPhase := recvs[curPhase]]);
          NextPhase();
        }
      }
    }

    method NotifyRecvDone(phase: nat)
      requires Valid() && phase < |c.sources|
      modifies this, recvs, out
      ensures Valid() && State() == Steps.NotifyRecvDone(c, old(State()), phase).0
      ensures posted == old(posted) + Steps.NotifyRecvDone(c, old(State()), phase).1
    {
      recvs[phase] := recvs[phase].(doneCount := recvs[phase].doneCount + 1);
      if recvs[phase].doneCount == 0 {
        NextPhase();
      }
    }

    method NotifyRecv(src: nat, phase: nat) returns (sindex: nat)
      requires Valid() && phase < |c.sources|
      modifies recvs
      ensures Valid() && (State(), sindex) == Steps.NotifyRecv(c, old(State()), src, phase)
    {
      sindex := 0;
      if !recvs[phase].configured {
        var slots := SlotsOf(phase);
        for i := 0 to |slots|
          invariant sindex == LastOf(slots[..i], src)
        {
          assert slots[..i + 1][..i] == slots[..i];
          if slots[i].rank == src {
            sindex := i;
          }
        }
        assert slots[..|slots|] == slots;
        recvs[phase] := recvs[phase].(configured := true, partnerCount := 1, slots := slots);
      } else {
        var slots, k := recvs[phase].slots, recvs[phase].partnerCount;
        for i := 0 to k
          invariant FirstOf(slots, 0, k, src) == FirstOf(slots, i, k, src)
        {
          if src == slots[i].rank {
            sindex := i;
            break;
          }
        }
      }
    }
  }
}
