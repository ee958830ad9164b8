/**
 * The initialisation barrier of shared resources: one master and any number of slaves meet
 * on two counters whose first contents are arbitrary, and the master zeroes everything.
 *
 * Every load, store and atomic add on shared memory is one step.  A schedule is the sequence
 * of participants that take the steps; a spinning participant's step changes nothing.
 */
module InitBarrier {

  /** Where the master is; `Clear(i)` and `ClearTail(i)` are its two clearing loops. */
  datatype Master =
    | Fetch | Clear(i: nat) | Enter | Test | Bump | ClearC1 | ClearTail(k: nat) | ClearC0 | Released

  /** Where a slave is; `Await(seen)` spins while `c0` still equals `seen`. */
  datatype Slave = First | Await(seen: nat) | Count | Release | Left

  /**
   * `lead` is all that comes before the two counters, `tail` all that comes after them
   * (counters in the one routine, bytes in the other).
   */
  datatype State = State(lead: seq<nat>, c0: nat, c1: nat, tail: seq<nat>,
                         master: Master, value: nat, slaves: seq<Slave>)

  // ------------------------------------------------------------------ the code, step by step

  function MasterStep(s: State): (r: State)
  {
    match s.master
    case Fetch => s.(value := s.c1 + |s.slaves| + 1, master := Clear(0))
    case Clear(i) =>
      if i < |s.lead| then s.(lead := s.lead[i := 0], master := Clear(i + 1)) else s.(master := Enter)
    case Enter => s.(c1 := s.c1 + 1, master := Test)
    case Test => if s.c1 != s.value then s.(master := Bump) else s.(master := ClearC1)
    case Bump => s.(c0 := s.c0 + 1, master := Test)
    case ClearC1 => s.(c1 := 0, master := ClearTail(0))
    case ClearTail(k) =>
      if k < |s.tail| then s.(tail := s.tail[k := 0], master := ClearTail(k + 1)) else s.(master := ClearC0)
    case ClearC0 => s.(c0 := 0, master := Released)
    case Released => s
  }

  function SlaveStep(s: State, j: nat): (r: State)
    requires j < |s.slaves|
  {
    match s.slaves[j]
    case First => s.(slaves := s.slaves[j := Await(s.c0)])
    case Await(seen) => if s.c0 == seen then s else s.(slaves := s.slaves[j := Count])
    case Count => s.(c1 := s.c1 + 1, slaves := s.slaves[j := Release])
    case Release => if s.c0 != 0 then s else s.(slaves := s.slaves[j := Left])
    case Left => s
  }

  /** Participant `p` takes its next step: slave `p`, or the master when `p` is past the slaves. */
  function Step(s: State, p: nat): (r: State)
  {
    if p < |s.slaves| then SlaveStep(s, p) else MasterStep(s)
  }

  function Run(s: State, schedule: seq<nat>): (r: State)
    decreases |schedule|
  {
    if schedule == [] then s else Run(Step(s, schedule[0]), schedule[1..])
  }

  predicate Init(s: State)
  {
    s.master == Fetch && forall j :: 0 <= j < |s.slaves| ==> s.slaves[j] == First
  }

  // ------------------------------------------------------------------ sums over the slaves

  function Sum(xs: seq<nat>): (n: nat)
  {
    if xs == [] then 0 else xs[0] + Sum(xs[1..])
  }

  lemma {:induction false} SumPointwise(xs: seq<nat>, ys: seq<nat>)
    requires |xs| == |ys|
    requires forall j :: 0 <= j < |xs| ==> xs[j] <= ys[j]
    ensures Sum(xs) <= Sum(ys)
    ensures (exists j :: 0 <= j < |xs| && xs[j] < ys[j]) ==> Sum(xs) < Sum(ys)
  {
    if xs != [] {
      SumPointwise(xs[1..], ys[1..]);
      if j :| 0 <= j < |xs| && xs[j] < ys[j] {
        if j > 0 {
          assert xs[1..][j - 1] < ys[1..][j - 1];
        }
      }
    }
  }

  lemma {:induction false} SumUpdate(xs: seq<nat>, j: nat, x: nat)
    requires j < |xs|
    ensures Sum(xs[j := x]) == Sum(xs) - xs[j] + x
  {
    if j == 0 {
      assert xs[j := x][1..] == xs[1..];
    } else {
      assert xs[j := x][1..] == xs[1..][j - 1 := x];
      SumUpdate(xs[1..], j - 1, x);
    }
  }

  lemma {:induction false} SumConstant(xs: seq<nat>, x: nat)
    requires forall j :: 0 <= j < |xs| ==> xs[j] == x
    ensures Sum(xs) == |xs| * x
  {
    if xs != [] {
      SumConstant(xs[1..], x);
      assert |xs| * x == x + |xs[1..]| * x;
    }
  }

  // ------------------------------------------------------------------ the invariant

  function Counted(t: Slave): (n: nat)
  {
    if t.Release? || t.Left? then 1 else 0
  }

  function Counts(ts: seq<Slave>): (xs: seq<nat>)
    ensures |xs| == |ts|
  {
    seq(|ts|, j requires 0 <= j < |ts| => Counted(ts[j]))
  }

  predicate AllCounted(s: State)
  {
    forall j :: 0 <= j < |s.slaves| ==> s.slaves[j].Release? || s.slaves[j].Left?
  }

  predicate ZeroUpTo(xs: seq<nat>, n: nat)
  {
    n <= |xs| && forall k :: 0 <= k < n ==> xs[k] == 0
  }

  /** The master has not yet stored its `value`, or is still before its first increment. */
  predicate Early(m: Master)
  {
    m.Fetch? || m.Clear? || m.Enter?
  }

  predicate Looping(m: Master)
  {
    m.Test? || m.Bump?
  }

  /** The master is past its waiting loop. */
  predicate Past(m: Master)
  {
    !Early(m) && !Looping(m)
  }

  predicate MasterInv(s: State)
  {
    && (s.master.Clear? ==> ZeroUpTo(s.lead, s.master.i))
    && (!s.master.Fetch? && !s.master.Clear? ==> ZeroUpTo(s.lead, |s.lead|))
    && (s.master.ClearTail? ==> ZeroUpTo(s.tail, s.master.k))
    && (s.master.ClearC0? || s.master.Released? ==> ZeroUpTo(s.tail, |s.tail|))
    && (s.master.ClearTail? || s.master.ClearC0? || s.master.Released? ==> s.c1 == 0)
    && (s.master.Released? ==> s.c0 == 0)
  }

  predicate SlaveInv(s: State, t: Slave)
  {
    && (t.Await? && !s.master.Released? ==> t.seen <= s.c0)
    && (t.Await? && Early(s.master) ==> t.seen == s.c0)
    && (t.Count? || t.Release? || t.Left? ==> !Early(s.master))
    && (t.Count? || t.Release? ==> s.master.Released? || s.c0 > 0)
    && (t.Left? ==> s.master.Released?)
  }

  predicate CounterInv(s: State, base: nat)
  {
    && (s.master.Fetch? ==> s.c1 == base)
    && (!s.master.Fetch? ==> s.value == base + |s.slaves| + 1)
    && (Early(s.master) ==> s.c1 == base)
    && (Looping(s.master) ==> s.c1 == base + 1 + Sum(Counts(s.slaves)))
    && (Past(s.master) ==> AllCounted(s))
  }

  /** What holds at every moment; `base` is what the entry counter held at the start. */
  predicate Inv(s: State, base: nat)
  {
    && MasterInv(s)
    && CounterInv(s, base)
    && forall j :: 0 <= j < |s.slaves| ==> SlaveInv(s, s.slaves[j])
  }

  /** The entry counter reaches the awaited value exactly when every slave has counted itself. */
  lemma CountFull(ts: seq<Slave>)
    ensures Sum(Counts(ts)) <= |ts|
    ensures Sum(Counts(ts)) == |ts| <==> forall j :: 0 <= j < |ts| ==> Counted(ts[j]) == 1
  {
    var ones := seq(|ts|, (_: int) => 1 as nat);
    SumConstant(ones, 1);
    SumPointwise(Counts(ts), ones);
    if !(forall j :: 0 <= j < |ts| ==> Counted(ts[j]) == 1) {
      var j :| 0 <= j < |ts| && Counted(ts[j]) != 1;
      assert Counts(ts)[j] < ones[j];
    } else {
      SumConstant(Counts(ts), 1);
    }
  }

  lemma CountZero(ts: seq<Slave>)
    requires forall j :: 0 <= j < |ts| ==> Counted(ts[j]) == 0
    ensures Sum(Counts(ts)) == 0
  {
    SumConstant(Counts(ts), 0);
  }

  lemma InitInv(s: State)
    requires Init(s)
    ensures Inv(s, s.c1)
  {
  }

  lemma MasterClears(s: State)
    requires MasterInv(s)
    ensures MasterInv(MasterStep(s))
  {
  }

  lemma MasterCounts(s: State, base: nat)
    requires Inv(s, base)
    ensures CounterInv(MasterStep(s), base)
  {
    CountFull(s.slaves);
    if s.master.Enter? {
      forall j | 0 <= j < |s.slaves| ensures Counted(s.slaves[j]) == 0 {
        assert SlaveInv(s, s.slaves[j]);
      }
      CountZero(s.slaves);
    }
  }

  lemma MasterSees(s: State, base: nat, j: nat)
    requires Inv(s, base) && j < |s.slaves|
    ensures SlaveInv(MasterStep(s), s.slaves[j])
  {
    assert SlaveInv(s, s.slaves[j]);
  }

  lemma MasterKeeps(s: State, base: nat)
    requires Inv(s, base)
    ensures Inv(MasterStep(s), base)
  {
    MasterClears(s);
    MasterCounts(s, base);
    forall j | 0 <= j < |s.slaves| ensures SlaveInv(MasterStep(s), s.slaves[j]) {
      MasterSees(s, base, j);
    }
  }

  lemma SlaveKeeps(s: State, base: nat, j: nat)
    requires Inv(s, base) && j < |s.slaves|
    ensures Inv(SlaveStep(s, j), base)
  {
    var r := SlaveStep(s, j);
    assert SlaveInv(s, s.slaves[j]);
    assert Counts(r.slaves) == Counts(s.slaves)[j := Counted(r.slaves[j])];
    SumUpdate(Counts(s.slaves), j, Counted(r.slaves[j]));
    if s.slaves[j].Count? {
      assert !Past(s.master);
    }
  }

  lemma StepKeeps(s: State, base: nat, p: nat)
    requires Inv(s, base)
    ensures Inv(Step(s, p), base)
  {
    if p < |s.slaves| {
      SlaveKeeps(s, base, p);
    } else {
      MasterKeeps(s, base);
    }
  }

  lemma {:induction false} RunKeeps(s: State, base: nat, schedule: seq<nat>)
    requires Inv(s, base)
    ensures Inv(Run(s, schedule), base)
    decreases |schedule|
  {
    if schedule != [] {
      StepKeeps(s, base, schedule[0]);
      RunKeeps(Step(s, schedule[0]), base, schedule[1..]);
    }
  }

  lemma {:induction false} RunShape(s: State, schedule: seq<nat>)
    ensures |Run(s, schedule).slaves| == |s.slaves|
    ensures |Run(s, schedule).lead| == |s.lead|
    ensures |Run(s, schedule).tail| == |s.tail|
    decreases |schedule|
  {
    if schedule != [] {
      RunShape(Step(s, schedule[0]), schedule[1..]);
    }
  }

  // ------------------------------------------------------------------ safety

  predicate AllZero(s: State)
  {
    ZeroUpTo(s.lead, |s.lead|) && s.c0 == 0 && s.c1 == 0 && ZeroUpTo(s.tail, |s.tail|)
  }

  predicate AllReturned(s: State)
  {
    s.master == Released && forall j :: 0 <= j < |s.slaves| ==> s.slaves[j] == Left
  }

  /**
   * Under every schedule, whatever the two counters held: a slave that has returned did so
   * after the master cleared everything and every participant had entered.
   */
  lemma SlavesLeaveLast(s: State, schedule: seq<nat>, j: nat)
    requires Init(s) && j < |s.slaves|
    ensures |Run(s, schedule).slaves| == |s.slaves|
    ensures
      var r := Run(s, schedule);
      r.slaves[j].Left? ==> r.master.Released? && AllZero(r) && AllCounted(r)
  {
    RunShape(s, schedule);
    InitInv(s);
    RunKeeps(s, s.c1, schedule);
    assert SlaveInv(Run(s, schedule), Run(s, schedule).slaves[j]);
  }

  /** The master leaves its loop on its next step exactly when every slave has counted itself. */
  lemma MasterLeavesIff(s: State, schedule: seq<nat>)
    requires Init(s)
    ensures
      var r := Run(s, schedule);
      && (Past(r.master) ==> AllCounted(r))
      && (r.master.Test? ==> (Past(MasterStep(r).master) <==> AllCounted(r)))
  {
    var r := Run(s, schedule);
    RunShape(s, schedule);
    InitInv(s);
    RunKeeps(s, s.c1, schedule);
    CountFull(r.slaves);
    if r.master.Test? {
      assert AllCounted(r) <==> forall j :: 0 <= j < |r.slaves| ==> Counted(r.slaves[j]) == 1;
    }
  }

  /** How often the master bumps `c0` in a schedule. */
  function Bumps(s: State, schedule: seq<nat>): (n: nat)
    decreases |schedule|
  {
    if schedule == [] then 0
    else
      (if schedule[0] >= |s.slaves| && s.master.Bump? then 1 else 0) + Bumps(Step(s, schedule[0]), schedule[1..])
  }

  /** Until the master clears it, `c0` holds its first contents and one more for every bump. */
  lemma {:induction false} BumpsCounted(s: State, schedule: seq<nat>)
    requires !Run(s, schedule).master.Released?
    ensures Run(s, schedule).c0 == s.c0 + Bumps(s, schedule)
    decreases |schedule|
  {
    if schedule != [] {
      if Step(s, schedule[0]).master.Released? {
        StaysReleased(Step(s, schedule[0]), schedule[1..]);
      }
      BumpsCounted(Step(s, schedule[0]), schedule[1..]);
    }
  }

  lemma {:induction false} StaysReleased(s: State, schedule: seq<nat>)
    requires s.master.Released?
    ensures Run(s, schedule).master.Released?
    decreases |schedule|
  {
    if schedule != [] {
      StaysReleased(Step(s, schedule[0]), schedule[1..]);
    }
  }

  // ------------------------------------------------------------------ progress

  function MasterLeft(s: State): (n: int)
  {
    match s.master
    case Fetch => |s.lead| + |s.tail| + 7
    case Clear(i) => |s.lead| - i + |s.tail| + 6
    case Enter => |s.tail| + 5
    case Test => |s.tail| + 4
    case Bump => |s.tail| + 4
    case ClearC1 => |s.tail| + 3
    case ClearTail(k) => |s.tail| - k + 2
    case ClearC0 => 1
    case Released => 0
  }

  /** A slave that has seen no change of `c0` yet is further away than one that will see it. */
  function SlaveLeft(c0: nat, t: Slave): (n: nat)
  {
    match t
    case First => 5
    case Await(seen) => if c0 == seen then 4 else 3
    case Count => 2
    case Release => 1
    case Left => 0
  }

  function SlavesLeft(c0: nat, ts: seq<Slave>): (xs: seq<nat>)
    ensures |xs| == |ts|
  {
    seq(|ts|, j requires 0 <= j < |ts| => SlaveLeft(c0, ts[j]))
  }

  /** How much is left to do. */
  function Todo(s: State): (n: int)
  {
    MasterLeft(s) + Sum(SlavesLeft(s.c0, s.slaves))
  }

  /** The next step of `p` does real work. */
  predicate Ready(s: State, p: nat)
  {
    if p < |s.slaves| then
      match s.slaves[p]
      case First => true
      case Await(seen) => s.c0 != seen
      case Count => true
      case Release => s.c0 == 0
      case Left => false
    else
      match s.master
      case Test => AllCounted(s)
      case Bump => HasWaiter(s)
      case Released => false
      case _ => true
  }

  /** Some slave spins on the value that `c0` has now. */
  predicate HasWaiter(s: State)
  {
    exists j :: 0 <= j < |s.slaves| && s.slaves[j] == Await(s.c0)
  }

  lemma SlaveWorks(s: State, base: nat, p: nat)
    requires Inv(s, base) && p < |s.slaves|
    ensures Todo(SlaveStep(s, p)) <= Todo(s)
    ensures Ready(s, p) ==> Todo(SlaveStep(s, p)) < Todo(s)
  {
    var r := SlaveStep(s, p);
    assert SlavesLeft(r.c0, r.slaves) == SlavesLeft(s.c0, s.slaves)[p := SlaveLeft(r.c0, r.slaves[p])];
    SumUpdate(SlavesLeft(s.c0, s.slaves), p, SlaveLeft(r.c0, r.slaves[p]));
  }

  lemma MasterLeaves(s: State, base: nat)
    requires Inv(s, base)
    ensures MasterLeft(MasterStep(s)) <= MasterLeft(s)
    ensures Ready(s, |s.slaves|) && !s.master.Bump? ==> MasterLeft(MasterStep(s)) < MasterLeft(s)
  {
    CountFull(s.slaves);
  }

  lemma MasterHelps(s: State, base: nat, j: nat)
    requires Inv(s, base) && j < |s.slaves|
    ensures SlaveLeft(MasterStep(s).c0, s.slaves[j]) <= SlaveLeft(s.c0, s.slaves[j])
    ensures s.master.Bump? && s.slaves[j] == Await(s.c0) ==>
              SlaveLeft(MasterStep(s).c0, s.slaves[j]) < SlaveLeft(s.c0, s.slaves[j])
  {
    assert SlaveInv(s, s.slaves[j]);
  }

  lemma MasterWorks(s: State, base: nat)
    requires Inv(s, base)
    ensures Todo(MasterStep(s)) <= Todo(s)
    ensures Ready(s, |s.slaves|) ==> Todo(MasterStep(s)) < Todo(s)
  {
    var r := MasterStep(s);
    var after, before := SlavesLeft(r.c0, s.slaves), SlavesLeft(s.c0, s.slaves);
    MasterLeaves(s, base);
    forall j | 0 <= j < |s.slaves| ensures after[j] <= before[j] {
      MasterHelps(s, base, j);
    }
    SumPointwise(after, before);
    if s.master.Bump? && HasWaiter(s) {
      var j :| 0 <= j < |s.slaves| && s.slaves[j] == Await(s.c0);
      MasterHelps(s, base, j);
      assert after[j] < before[j];
    }
  }

  /** No step ever adds work, and a ready participant's step removes some. */
  lemma StepWorks(s: State, base: nat, p: nat)
    requires Inv(s, base)
    ensures Todo(Step(s, p)) <= Todo(s)
    ensures Ready(s, p) ==> Todo(Step(s, p)) < Todo(s)
  {
    if p < |s.slaves| {
      SlaveWorks(s, base, p);
    } else {
      MasterWorks(s, base);
    }
  }

  /** Whoever is ready stays ready whatever the others do. */
  lemma ReadyStays(s: State, base: nat, p: nat, q: nat)
    requires Inv(s, base) && Ready(s, p)
    requires p < |s.slaves| || q < |s.slaves|
    requires p != q
    ensures Ready(Step(s, q), p)
  {
    if p < |s.slaves| {
      assert SlaveInv(s, s.slaves[p]);
      if q < |s.slaves| {
        assert Step(s, q).slaves[p] == s.slaves[p];
        assert Step(s, q).c0 == s.c0;
      }
    } else if s.master.Bump? {
      var j :| 0 <= j < |s.slaves| && s.slaves[j] == Await(s.c0);
      assert Step(s, q).slaves[j] == Await(s.c0);
    }
  }

  /** The master's next step is idle, but makes its step after that do real work. */
  predicate Primed(s: State)
  {
    (s.master.Test? && HasWaiter(s)) || (s.master.Bump? && AllCounted(s))
  }

  lemma SomeoneReady(s: State, base: nat)
    requires Inv(s, base) && !AllReturned(s)
    ensures (exists p :: 0 <= p <= |s.slaves| && Ready(s, p)) || Primed(s)
  {
    if !Ready(s, |s.slaves|) && !Primed(s) {
      if s.master.Released? {
        var j :| 0 <= j < |s.slaves| && s.slaves[j] != Left;
        assert SlaveInv(s, s.slaves[j]);
        assert Ready(s, j);
      } else {
        var j :| 0 <= j < |s.slaves| && !s.slaves[j].Release? && !s.slaves[j].Left?;
        assert Ready(s, j);
      }
    }
  }

  lemma PrimedStep(s: State, base: nat, p: nat)
    requires Inv(s, base) && Primed(s) && p <= |s.slaves|
    ensures if p < |s.slaves| then Primed(Step(s, p)) else Ready(Step(s, p), p)
  {
    CountFull(s.slaves);
    if s.master.Test? {
      var j :| 0 <= j < |s.slaves| && s.slaves[j] == Await(s.c0);
      assert Step(s, p).slaves[j] == Await(s.c0);
    }
  }

  // ------------------------------------------------------------------ fair schedules

  /** A stretch of a schedule in which every participant takes at least one step. */
  predicate Round(t: seq<nat>, n: nat)
  {
    && (forall k :: 0 <= k < |t| ==> t[k] <= n)
    && (forall p :: 0 <= p <= n ==> p in t)
  }

  lemma {:induction false} NeverMore(s: State, base: nat, t: seq<nat>)
    requires Inv(s, base)
    ensures Todo(Run(s, t)) <= Todo(s)
    decreases |t|
  {
    if t != [] {
      StepWorks(s, base, t[0]);
      StepKeeps(s, base, t[0]);
      NeverMore(Step(s, t[0]), base, t[1..]);
    }
  }

  /** A ready participant does its work in `t`, or is still ready after it with nothing lost. */
  lemma {:induction false} ReadyRun(s: State, base: nat, t: seq<nat>, p: nat)
    requires Inv(s, base) && p <= |s.slaves| && Ready(s, p)
    requires forall k :: 0 <= k < |t| ==> t[k] <= |s.slaves|
    ensures Todo(Run(s, t)) < Todo(s) || (p !in t && Ready(Run(s, t), p))
    decreases |t|
  {
    if t != [] {
      StepWorks(s, base, t[0]);
      StepKeeps(s, base, t[0]);
      if t[0] == p {
        NeverMore(Step(s, t[0]), base, t[1..]);
      } else {
        ReadyStays(s, base, p, t[0]);
        ReadyRun(Step(s, t[0]), base, t[1..], p);
      }
    }
  }

  lemma {:induction false} PrimedRun(s: State, base: nat, t: seq<nat>)
    requires Inv(s, base) && Primed(s)
    requires |s.slaves| in t
    requires forall k :: 0 <= k < |t| ==> t[k] <= |s.slaves|
    ensures Todo(Run(s, t)) < Todo(s) || Ready(Run(s, t), |s.slaves|)
    decreases |t|
  {
    var n := |s.slaves|;
    var r := Step(s, t[0]);
    StepWorks(s, base, t[0]);
    StepKeeps(s, base, t[0]);
    PrimedStep(s, base, t[0]);
    if t[0] == n {
      ReadyRun(r, base, t[1..], n);
    } else {
      PrimedRun(r, base, t[1..]);
    }
  }

  /** Two rounds, however their steps are interleaved, get work done. */
  lemma TwoRounds(s: State, base: nat, t: seq<nat>, u: seq<nat>)
    requires Inv(s, base) && !AllReturned(s)
    requires Round(t, |s.slaves|) && Round(u, |s.slaves|)
    ensures Todo(Run(Run(s, t), u)) < Todo(s)
  {
    var r := Run(s, t);
    RunKeeps(s, base, t);
    RunShape(s, t);
    NeverMore(s, base, t);
    NeverMore(r, base, u);
    SomeoneReady(s, base);
    if p :| 0 <= p <= |s.slaves| && Ready(s, p) {
      ReadyRun(s, base, t, p);
    } else {
      PrimedRun(s, base, t);
      if Ready(r, |s.slaves|) {
        ReadyRun(r, base, u, |s.slaves|);
      }
    }
  }

  predicate Fair(rounds: seq<seq<nat>>, n: nat)
  {
    forall k :: 0 <= k < |rounds| ==> Round(rounds[k], n)
  }

  function RunRounds(s: State, rounds: seq<seq<nat>>): (r: State)
    decreases |rounds|
  {
    if rounds == [] then s else RunRounds(Run(s, rounds[0]), rounds[1..])
  }

  lemma {:induction false} StaysReturned(s: State, t: seq<nat>)
    requires AllReturned(s)
    ensures Run(s, t) == s
    decreases |t|
  {
    if t != [] {
      StaysReturned(s, t[1..]);
    }
  }

  lemma {:induction false} StaysReturnedRounds(s: State, rounds: seq<seq<nat>>)
    requires AllReturned(s)
    ensures RunRounds(s, rounds) == s
    decreases |rounds|
  {
    if rounds != [] {
      StaysReturned(s, rounds[0]);
      StaysReturnedRounds(s, rounds[1..]);
    }
  }

  lemma {:induction false} RoundsFinish(s: State, base: nat, rounds: seq<seq<nat>>)
    requires Inv(s, base) && Fair(rounds, |s.slaves|) && |rounds| >= 2 * Todo(s)
    ensures AllReturned(RunRounds(s, rounds)) && Inv(RunRounds(s, rounds), base)
    decreases |rounds|
  {
    if AllReturned(s) {
      StaysReturnedRounds(s, rounds);
    } else {
      TodoPositive(s, base);
      var r := Run(s, rounds[0]);
      var q := Run(r, rounds[1]);
      TwoRounds(s, base, rounds[0], rounds[1]);
      RunKeeps(s, base, rounds[0]);
      RunKeeps(r, base, rounds[1]);
      RunShape(s, rounds[0]);
      RunShape(r, rounds[1]);
      assert rounds[1..][1..] == rounds[2..];
      assert RunRounds(s, rounds) == RunRounds(q, rounds[2..]);
      RoundsFinish(q, base, rounds[2..]);
    }
  }

  lemma TodoPositive(s: State, base: nat)
    requires Inv(s, base) && !AllReturned(s)
    ensures Todo(s) > 0
  {
    if s.master.Released? {
      var j :| 0 <= j < |s.slaves| && s.slaves[j] != Left;
      var none := seq(|s.slaves|, (_: int) => 0 as nat);
      assert none[j] < SlavesLeft(s.c0, s.slaves)[j];
      SumPointwise(none, SlavesLeft(s.c0, s.slaves));
    }
  }

  /**
   * Barrier progress and its result: from every state that a run can reach, enough rounds
   * of any fair schedule bring everyone out, with everything zero.  That includes slaves
   * that first look at `c0` after the master has bumped it any number of times.
   */
  lemma EveryoneReturns(s: State, schedule: seq<nat>, rounds: seq<seq<nat>>)
    requires Init(s) && Fair(rounds, |s.slaves|)
    requires |rounds| >= 2 * (|s.lead| + |s.tail| + 7 + 5 * |s.slaves|)
    ensures AllReturned(RunRounds(Run(s, schedule), rounds))
    ensures AllZero(RunRounds(Run(s, schedule), rounds))
  {
    InitInv(s);
    RunKeeps(s, s.c1, schedule);
    RunShape(s, schedule);
    NeverMore(s, s.c1, schedule);
    SumConstant(SlavesLeft(s.c0, s.slaves), 5);
    RoundsFinish(Run(s, schedule), s.c1, rounds);
  }

  /** Fair rounds exist: everyone in turn. */
  function InTurn(n: nat): (t: seq<nat>)
    ensures Round(t, n)
  {
    if n == 0 then [0] else InTurn(n - 1) + [n]
  }

  lemma CanAlwaysFinish(s: State, schedule: seq<nat>)
    requires Init(s)
    ensures exists rounds :: Fair(rounds, |s.slaves|) && AllReturned(RunRounds(Run(s, schedule), rounds))
  {
    var k := 2 * (|s.lead| + |s.tail| + 7 + 5 * |s.slaves|);
    var rounds := seq(k, (_: int) => InTurn(|s.slaves|));
    EveryoneReturns(s, schedule, rounds);
  }

  // ------------------------------------------------------------------ the two routines

  /** Counters 0..num: the last two are the barrier's, there is no tail. */
  function OfCounters(ctrs: seq<nat>, participants: nat): (s: State)
    requires |ctrs| >= 2 && participants >= 1
    ensures Init(s) && |s.slaves| == participants - 1
    ensures s.c0 == ctrs[|ctrs| - 2] && s.c1 == ctrs[|ctrs| - 1]
  {
    var num := |ctrs|;
    State(ctrs[..num - 2], ctrs[num - 2], ctrs[num - 1], [], Fetch, 0, seq(participants - 1, (_: int) => First))
  }

  function ToCounters(s: State): (ctrs: seq<nat>)
  {
    s.lead + [s.c0, s.c1]
  }

  /** All counters are zero when everyone has returned, under every fair schedule. */
  lemma CountersZeroed(ctrs: seq<nat>, participants: nat, schedule: seq<nat>, rounds: seq<seq<nat>>)
    requires |ctrs| >= 2 && participants >= 1
    requires Fair(rounds, participants - 1)
    requires |rounds| >= 2 * (|ctrs| + 5 * participants)
    ensures ToCounters(OfCounters(ctrs, participants)) == ctrs
    ensures
      var r := RunRounds(Run(OfCounters(ctrs, participants), schedule), rounds);
      AllReturned(r) && ToCounters(r) == seq(|ctrs|, (_: int) => 0)
  {
    var s := OfCounters(ctrs, participants);
    EveryoneReturns(s, schedule, rounds);
    RunShape(s, schedule);
    RoundsShape(Run(s, schedule), rounds);
  }

  lemma {:induction false} RoundsShape(s: State, rounds: seq<seq<nat>>)
    ensures |RunRounds(s, rounds).slaves| == |s.slaves|
    ensures |RunRounds(s, rounds).lead| == |s.lead|
    ensures |RunRounds(s, rounds).tail| == |s.tail|
    decreases |rounds|
  {
    if rounds != [] {
      RunShape(s, rounds[0]);
      RoundsShape(Run(s, rounds[0]), rounds[1..]);
    }
  }

  /** `w` bytes as a counter, and back; the byte order plays no part in the barrier. */
  function Word(bs: seq<nat>): (x: nat)
  {
    if bs == [] then 0 else bs[0] + 256 * Word(bs[1..])
  }

  function Bytes(x: nat, w: nat): (bs: seq<nat>)
    ensures |bs| == w
  {
    if w == 0 then [] else [x % 256] + Bytes(x / 256, w - 1)
  }

  predicate IsMemory(mem: seq<nat>)
  {
    forall k :: 0 <= k < |mem| ==> mem[k] < 256
  }

  lemma {:induction false} BytesOfWord(bs: seq<nat>)
    requires IsMemory(bs)
    ensures Bytes(Word(bs), |bs|) == bs
  {
    if bs != [] {
      BytesOfWord(bs[1..]);
      LowByte(bs[0], Word(bs[1..]));
    }
  }

  lemma LowByte(b: nat, x: nat)
    requires b < 256
    ensures (b + 256 * x) % 256 == b && (b + 256 * x) / 256 == x
  {
  }

  lemma {:induction false} BytesOfZero(w: nat, k: nat)
    requires k < w
    ensures Bytes(0, w)[k] == 0
  {
    if k > 0 {
      BytesOfZero(w - 1, k - 1);
    }
  }

  /**
   * Shared memory of any length that holds two words of `w` bytes.  What is left over after
   * the last whole word is the tail, which the master clears together with `c1`.
   */
  function OfMemory(mem: seq<nat>, w: nat, participants: nat): (s: State)
    requires w >= 1 && |mem| / w >= 2 && participants >= 1
    ensures Init(s) && |s.slaves| == participants - 1
    ensures |s.lead| == w * (|mem| / w - 2) && |s.tail| == |mem| % w
  {
    Offsets(|mem|, w);
    SplitAt(mem, w * (|mem| / w - 2), w, participants - 1)
  }

  /** Memory with the two counters, of `w` bytes each, at `a`. */
  function SplitAt(mem: seq<nat>, a: nat, w: nat, slaves: nat): (s: State)
    requires a + w + w <= |mem|
    ensures Init(s) && |s.slaves| == slaves && |s.lead| == a && |s.tail| == |mem| - a - w - w
    ensures s.c0 == Word(mem[a..a + w]) && s.c1 == Word(mem[a + w..a + w + w])
  {
    var b, c := a + w, a + w + w;
    State(mem[..a], Word(mem[a..b]), Word(mem[b..c]), mem[c..], Fetch, 0, seq(slaves, (_: int) => First))
  }

  lemma Offsets(len: nat, w: nat)
    requires w >= 1 && len / w >= 2
    ensures 0 <= w * (len / w - 2)
    ensures w * (len / w - 1) == w * (len / w - 2) + w
    ensures w * (len / w) == w * (len / w - 1) + w
    ensures len == w * (len / w) + len % w
  {
  }

  function ToMemory(s: State, w: nat): (mem: seq<nat>)
  {
    s.lead + Bytes(s.c0, w) + Bytes(s.c1, w) + s.tail
  }

  lemma MemoryRoundTrip(mem: seq<nat>, w: nat, participants: nat)
    requires w >= 1 && |mem| / w >= 2 && participants >= 1 && IsMemory(mem)
    ensures ToMemory(OfMemory(mem, w, participants), w) == mem
  {
    Offsets(|mem|, w);
    SplitRoundTrip(mem, w * (|mem| / w - 2), w, participants - 1);
  }

  lemma SplitRoundTrip(mem: seq<nat>, a: nat, w: nat, slaves: nat)
    requires a + w + w <= |mem| && IsMemory(mem)
    ensures ToMemory(SplitAt(mem, a, w, slaves), w) == mem
  {
    BytesOfWord(mem[a..a + w]);
    BytesOfWord(mem[a + w..a + w + w]);
    Sliced(mem, a, a + w, a + w + w);
  }

  lemma Sliced(mem: seq<nat>, a: nat, b: nat, c: nat)
    requires a <= b <= c <= |mem|
    ensures mem[..a] + mem[a..b] + mem[b..c] + mem[c..] == mem
  {
    assert mem[..a] + mem[a..b] == mem[..b];
    assert mem[..b] + mem[b..c] == mem[..c];
  }

  lemma ZeroMemory(s: State, w: nat, k: nat)
    requires AllZero(s) && k < |ToMemory(s, w)|
    ensures ToMemory(s, w)[k] == 0
  {
    var z := Bytes(0, w);
    forall i | 0 <= i < w ensures z[i] == 0 {
      BytesOfZero(w, i);
    }
  }

  /**
   * Every byte of the area is zero when everyone has returned, also when its length is no
   * multiple of the word size.
   */
  lemma MemoryZeroed(mem: seq<nat>, w: nat, participants: nat, schedule: seq<nat>, rounds: seq<seq<nat>>)
    requires w >= 1 && |mem| / w >= 2 && participants >= 1 && IsMemory(mem)
    requires Fair(rounds, participants - 1)
    requires |rounds| >= 2 * (|mem| + 2 + 5 * participants)
    ensures ToMemory(OfMemory(mem, w, participants), w) == mem
    ensures
      var r := RunRounds(Run(OfMemory(mem, w, participants), schedule), rounds);
      && AllReturned(r)
      && |ToMemory(r, w)| == |mem|
      && forall k :: 0 <= k < |mem| ==> ToMemory(r, w)[k] == 0
  {
    var s := OfMemory(mem, w, participants);
    MemoryRoundTrip(mem, w, participants);
    Offsets(|mem|, w);
    EveryoneReturns(s, schedule, rounds);
    RunShape(s, schedule);
    RoundsShape(Run(s, schedule), rounds);
    var r := RunRounds(Run(s, schedule), rounds);
    forall k | 0 <= k < |mem| ensures ToMemory(r, w)[k] == 0 {
      ZeroMemory(r, w, k);
    }
  }
}
