/** `checkLeader` as a system of interleaved steps: one probe an endpoint, the goroutine that waits for all probes,
    the timeout and the function that selects among them (client/leader.go). */
module LeaderProbe {
  import opened ByteStrings
  import opened Wrappers

  /** `Offering` is blocked in the select that sends the address, `Finishing` is before the deferred wg.Done. */
  datatype ProbePc = Unborn | Checking | Offering | Finishing | Gone

  /** `healthy` is the result of the health check, once there is one. */
  datatype Probe = Probe(pc: ProbePc, healthy: Option<bool>)

  datatype WaiterPc = NotSpawned | AwaitProbes | OfferErr | WaiterGone

  datatype Outcome = Leader(addr: Bytes) | ErrNoLeader

  /** `Returning` has chosen its result and has yet to run the deferred cancel. */
  datatype MainPc = Spawning(i: nat) | Selecting | Returning(outcome: Outcome) | Returned(outcome: Outcome)

  /** `wg` is the wait group's counter; `accepted` counts the addresses received. */
  datatype State = State(
    probes: seq<Probe>, wg: int, waiter: WaiterPc, main: MainPc, ctxDone: bool, timedOut: bool, accepted: nat)

  datatype Label =
    | SpawnProbe | SpawnWaiter | CheckEnds(i: nat, healthy: bool) | Accept(i: nat) | GiveUp(i: nat) | Leave(i: nat)
    | WaiterWakes | AcceptErr | WaiterGivesUp | Timeout | SeeDone | Cancel

  function Start(endpoints: seq<Bytes>): State {
    State(seq(|endpoints|, _ => Probe(Unborn, None)), |endpoints|, NotSpawned, Spawning(0), false, false, 0)
  }

  predicate ProbeAt(s: State, i: nat, pc: ProbePc) {
    i < |s.probes| && s.probes[i].pc == pc
  }

  /** The channels are unbuffered: a send and its receive are one step. */
  predicate Enabled(endpoints: seq<Bytes>, s: State, l: Label) {
    |s.probes| == |endpoints| &&
    match l
    case SpawnProbe => s.main.Spawning? && s.main.i < |endpoints|
    case SpawnWaiter => s.main.Spawning? && s.main.i >= |endpoints|
    case CheckEnds(i, _) => ProbeAt(s, i, Checking)
    case Accept(i) => ProbeAt(s, i, Offering) && s.main == Selecting
    case GiveUp(i) => ProbeAt(s, i, Offering) && s.ctxDone
    case Leave(i) => ProbeAt(s, i, Finishing)
    case WaiterWakes => s.waiter == AwaitProbes && s.wg == 0
    case AcceptErr => s.waiter == OfferErr && s.main == Selecting
    case WaiterGivesUp => s.waiter == OfferErr && s.ctxDone
    case Timeout => !s.ctxDone
    case SeeDone => s.main == Selecting && s.ctxDone
    case Cancel => s.main.Returning?
  }

  function SetProbe(s: State, i: nat, p: Probe): State
    requires i < |s.probes|
  {
    s.(probes := s.probes[i := p])
  }

  function Apply(endpoints: seq<Bytes>, s: State, l: Label): State
    requires Enabled(endpoints, s, l)
  {
    match l
    case SpawnProbe => SetProbe(s, s.main.i, s.probes[s.main.i].(pc := Checking)).(main := Spawning(s.main.i + 1))
    case SpawnWaiter => s.(waiter := AwaitProbes, main := Selecting)
    case CheckEnds(i, healthy) => SetProbe(s, i, Probe(if healthy then Offering else Finishing, Some(healthy)))
    case Accept(i) =>
      SetProbe(s, i, s.probes[i].(pc := Finishing))
        .(main := Returning(Leader(endpoints[i])), accepted := s.accepted + 1)
    case GiveUp(i) => SetProbe(s, i, s.probes[i].(pc := Finishing))
    case Leave(i) => SetProbe(s, i, s.probes[i].(pc := Gone)).(wg := s.wg - 1)
    case WaiterWakes => s.(waiter := OfferErr)
    case AcceptErr => s.(waiter := WaiterGone, main := Returning(ErrNoLeader))
    case WaiterGivesUp => s.(waiter := WaiterGone)
    case Timeout => s.(ctxDone := true, timedOut := true)
    case SeeDone => s.(main := Returning(ErrNoLeader))
    case Cancel => s.(ctxDone := true, main := Returned(s.main.outcome))
  }

  ghost predicate Next(endpoints: seq<Bytes>, s: State, s': State) {
    exists l :: Enabled(endpoints, s, l) && s' == Apply(endpoints, s, l)
  }

  ghost predicate IsRun(endpoints: seq<Bytes>, run: seq<State>) {
    && run != []
    && run[0] == Start(endpoints)
    && forall k :: 0 < k < |run| ==> Next(endpoints, run[k - 1], run[k])
  }

  // ---------------------------------------------------------------- what holds in every state

  predicate Chosen(s: State) {
    s.main.Returning? || s.main.Returned?
  }

  /** Probes that have not yet told the wait group. */
  function Pending(probes: seq<Probe>): nat {
    if probes == [] then 0
    else Pending(probes[..|probes| - 1]) + if probes[|probes| - 1].pc == Gone then 0 else 1
  }

  /** What the outcome says about the probes. */
  predicate OutcomeOk(endpoints: seq<Bytes>, s: State)
    requires |s.probes| == |endpoints|
  {
    Chosen(s) ==>
      match s.main.outcome
      case Leader(a) =>
        && s.accepted == 1
        && exists i :: 0 <= i < |endpoints| && a == endpoints[i] && s.probes[i].healthy == Some(true)
      case ErrNoLeader =>
        && s.accepted == 0
        && (s.timedOut || forall i :: 0 <= i < |endpoints| ==> s.probes[i].healthy == Some(false))
  }

  predicate ProbeOk(s: State, p: Probe) {
    match p.pc
    case Unborn => p.healthy == None && s.main.Spawning?
    case Checking => p.healthy == None
    case Offering => p.healthy == Some(true)
    case Finishing => p.healthy.Some? && (p.healthy.value ==> s.ctxDone || s.accepted > 0)
    case Gone => p.healthy.Some? && (p.healthy.value ==> s.ctxDone || s.accepted > 0)
  }

  ghost predicate Inv(endpoints: seq<Bytes>, s: State) {
    && |s.probes| == |endpoints|
    && (forall i :: 0 <= i < |s.probes| ==> ProbeOk(s, s.probes[i]))
    && (s.main.Spawning? ==>
          s.main.i <= |s.probes| && forall i :: s.main.i <= i < |s.probes| ==> s.probes[i].pc == Unborn)
    && (s.main.Spawning? ==> forall i :: 0 <= i < s.main.i ==> s.probes[i].pc != Unborn)
    && s.wg == Pending(s.probes)
    && (s.waiter == NotSpawned <==> s.main.Spawning?)
    && (s.waiter == OfferErr || s.waiter == WaiterGone ==> s.wg == 0)
    && (!Chosen(s) ==> s.accepted == 0)
    && (s.ctxDone <==> s.timedOut || s.main.Returned?)
    && (s.waiter == WaiterGone && s.main == Selecting ==> s.ctxDone)
    && OutcomeOk(endpoints, s)
  }

  lemma {:induction false} PendingUpdate(probes: seq<Probe>, i: nat, p: Probe)
    requires i < |probes|
    ensures Pending(probes[i := p])
         == Pending(probes) + (if p.pc == Gone then 0 else 1) - (if probes[i].pc == Gone then 0 else 1)
  {
    var n := |probes| - 1;
    if i < n {
      PendingUpdate(probes[..n], i, p);
      assert probes[i := p][..n] == probes[..n][i := p];
    } else {
      assert probes[i := p][..n] == probes[..n];
    }
  }

  lemma {:induction false} PendingZero(probes: seq<Probe>)
    ensures Pending(probes) == 0 <==> forall i :: 0 <= i < |probes| ==> probes[i].pc == Gone
    ensures Pending(probes) <= |probes|
  {
    if probes != [] {
      var front := probes[..|probes| - 1];
      PendingZero(front);
      assert forall i :: 0 <= i < |front| ==> front[i] == probes[i];
    }
  }

  lemma {:induction false} PendingAtStart(probes: seq<Probe>)
    requires forall i :: 0 <= i < |probes| ==> probes[i].pc == Unborn
    ensures Pending(probes) == |probes|
  {
    if probes != [] {
      PendingAtStart(probes[..|probes| - 1]);
    }
  }

  lemma AcceptOk(endpoints: seq<Bytes>, s: State, i: nat)
    requires Inv(endpoints, s) && Enabled(endpoints, s, Accept(i))
    ensures Inv(endpoints, Apply(endpoints, s, Accept(i)))
  {
    hide Pending;
    var s' := Apply(endpoints, s, Accept(i));
    assert ProbeOk(s, s.probes[i]);
    PendingUpdate(s.probes, i, s'.probes[i]);
    PendingZero(s.probes);
  }

  lemma SpawnProbeOk(endpoints: seq<Bytes>, s: State)
    requires Inv(endpoints, s) && Enabled(endpoints, s, SpawnProbe)
    ensures Inv(endpoints, Apply(endpoints, s, SpawnProbe))
  {
    hide Pending;
    PendingUpdate(s.probes, s.main.i, s.probes[s.main.i].(pc := Checking));
    PendingZero(s.probes);
  }

  lemma ProbeStepOk(endpoints: seq<Bytes>, s: State, l: Label)
    requires Inv(endpoints, s) && Enabled(endpoints, s, l)
    requires l.CheckEnds? || l.GiveUp? || l.Leave?
    ensures Inv(endpoints, Apply(endpoints, s, l))
  {
    hide Pending;
    var s' := Apply(endpoints, s, l);
    assert ProbeOk(s, s.probes[l.i]);
    PendingUpdate(s.probes, l.i, s'.probes[l.i]);
    PendingZero(s.probes);
  }

  lemma OtherStepOk(endpoints: seq<Bytes>, s: State, l: Label)
    requires Inv(endpoints, s) && Enabled(endpoints, s, l)
    requires l.SpawnWaiter? || l.WaiterWakes? || l.AcceptErr? || l.WaiterGivesUp? || l.Timeout? || l.SeeDone?
          || l.Cancel?
    ensures Inv(endpoints, Apply(endpoints, s, l))
  {
    hide Pending;
    PendingZero(s.probes);
  }

  lemma StepOk(endpoints: seq<Bytes>, s: State, l: Label)
    requires Inv(endpoints, s) && Enabled(endpoints, s, l)
    ensures Inv(endpoints, Apply(endpoints, s, l))
  {
    hide *;
    if l.Accept? {
      AcceptOk(endpoints, s, l.i);
    } else if l.SpawnProbe? {
      SpawnProbeOk(endpoints, s);
    } else if l.CheckEnds? || l.GiveUp? || l.Leave? {
      ProbeStepOk(endpoints, s, l);
    } else {
      OtherStepOk(endpoints, s, l);
    }
  }

  lemma {:induction false} RunOk(endpoints: seq<Bytes>, run: seq<State>)
    requires IsRun(endpoints, run)
    ensures Inv(endpoints, run[|run| - 1])
  {
    if |run| == 1 {
      PendingAtStart(run[0].probes);
    } else {
      RunOk(endpoints, run[..|run| - 1]);
      var s, s' := run[|run| - 2], run[|run| - 1];
      assert Next(endpoints, s, s');
      var l :| Enabled(endpoints, s, l) && s' == Apply(endpoints, s, l);
      StepOk(endpoints, s, l);
    }
  }

  // ---------------------------------------------------------------- soundness

  /** In every interleaving: an address is returned only if it is a configured endpoint whose probe was healthy, at
      most one is ever accepted, and ErrNoLeader is returned only if the timeout fired or every probe finished
      unhealthy. */
  lemma ProbeSoundness(endpoints: seq<Bytes>, run: seq<State>)
    requires IsRun(endpoints, run)
    ensures var s := run[|run| - 1];
      && |s.probes| == |endpoints|
      && s.accepted <= 1
      && (Chosen(s) && s.main.outcome.Leader? ==>
            exists i :: 0 <= i < |endpoints| && s.main.outcome.addr == endpoints[i]
                        && s.probes[i].healthy == Some(true))
      && (Chosen(s) && s.main.outcome.ErrNoLeader? ==>
            s.timedOut || forall i :: 0 <= i < |endpoints| ==> s.probes[i].healthy == Some(false))
      && s.wg >= 0
  {
    RunOk(endpoints, run);
  }

  // ---------------------------------------------------------------- progress

  function ProbeLeft(pc: ProbePc): nat {
    match pc case Unborn => 4 case Checking => 3 case Offering => 2 case Finishing => 1 case Gone => 0
  }

  function ProbesLeft(probes: seq<Probe>): nat {
    if probes == [] then 0 else ProbesLeft(probes[..|probes| - 1]) + ProbeLeft(probes[|probes| - 1].pc)
  }

  /** Steps left at most: every goroutine counts down to its exit. */
  function StepsLeft(s: State): int {
    ProbesLeft(s.probes)
    + (match s.waiter case NotSpawned => 3 case AwaitProbes => 2 case OfferErr => 1 case WaiterGone => 0)
    + (match s.main
       case Spawning(i) => |s.probes| - i + 3
       case Selecting => 2
       case Returning(_) => 1
       case Returned(_) => 0)
    + (if s.ctxDone then 0 else 1)
  }

  predicate AllGone(s: State) {
    s.main.Returned? && s.waiter == WaiterGone && forall i :: 0 <= i < |s.probes| ==> s.probes[i].pc == Gone
  }

  lemma {:induction false} ProbesLeftUpdate(probes: seq<Probe>, i: nat, p: Probe)
    requires i < |probes|
    ensures ProbesLeft(probes[i := p]) == ProbesLeft(probes) + ProbeLeft(p.pc) - ProbeLeft(probes[i].pc)
  {
    var n := |probes| - 1;
    if i < n {
      ProbesLeftUpdate(probes[..n], i, p);
      assert probes[i := p][..n] == probes[..n][i := p];
    } else {
      assert probes[i := p][..n] == probes[..n];
    }
  }

  /** A step of a probe: it comes nearer to its exit, and takes the main goroutine along or leaves it. */
  lemma ProbeStepDrops(endpoints: seq<Bytes>, s: State, l: Label)
    requires Inv(endpoints, s) && Enabled(endpoints, s, l)
    requires l.SpawnProbe? || l.CheckEnds? || l.Accept? || l.GiveUp? || l.Leave?
    ensures 0 <= StepsLeft(Apply(endpoints, s, l)) < StepsLeft(s)
  {
    hide Pending, ProbesLeft, ProbeOk, OutcomeOk;
    var s', i := Apply(endpoints, s, l), if l.SpawnProbe? then s.main.i else l.i;
    ProbesLeftUpdate(s.probes, i, s'.probes[i]);
  }

  lemma OtherStepDrops(endpoints: seq<Bytes>, s: State, l: Label)
    requires Inv(endpoints, s) && Enabled(endpoints, s, l)
    requires l.SpawnWaiter? || l.WaiterWakes? || l.AcceptErr? || l.WaiterGivesUp? || l.Timeout? || l.SeeDone?
          || l.Cancel?
    ensures 0 <= StepsLeft(Apply(endpoints, s, l)) < StepsLeft(s)
  {
    hide Pending, ProbesLeft, ProbeOk, OutcomeOk;
  }

  lemma StepDrops(endpoints: seq<Bytes>, s: State, l: Label)
    requires Inv(endpoints, s) && Enabled(endpoints, s, l)
    ensures 0 <= StepsLeft(Apply(endpoints, s, l)) < StepsLeft(s)
  {
    hide *;
    if l.SpawnProbe? || l.CheckEnds? || l.Accept? || l.GiveUp? || l.Leave? {
      ProbeStepDrops(endpoints, s, l);
    } else {
      OtherStepDrops(endpoints, s, l);
    }
  }

  /** Until every goroutine is gone, some step can happen, and it is the end of a health check only when the context
      is done already. */
  lemma NotStuck(endpoints: seq<Bytes>, s: State) returns (l: Label)
    requires Inv(endpoints, s) && !AllGone(s)
    ensures Enabled(endpoints, s, l)
    ensures l.CheckEnds? ==> s.ctxDone
  {
    PendingZero(s.probes);
    match s.main
    case Spawning(i) => l := if i < |endpoints| then SpawnProbe else SpawnWaiter;
    case Selecting => l := if s.ctxDone then SeeDone else Timeout;
    case Returning(_) => l := Cancel;
    case Returned(_) =>
      if i :| 0 <= i < |s.probes| && s.probes[i].pc != Gone {
        assert ProbeOk(s, s.probes[i]);
        l := if s.probes[i].pc == Checking then CheckEnds(i, false)
             else if s.probes[i].pc == Offering then GiveUp(i) else Leave(i);
      } else {
        l := if s.waiter == AwaitProbes then WaiterWakes else WaiterGivesUp;
      }
  }

  /** Every run is shorter than a bound fixed by the number of endpoints. */
  lemma {:induction false} RunsAreBounded(endpoints: seq<Bytes>, run: seq<State>)
    requires IsRun(endpoints, run)
    ensures StepsLeft(run[|run| - 1]) >= 0
    ensures |run| + StepsLeft(run[|run| - 1]) <= 5 * |endpoints| + 8
  {
    RunOk(endpoints, run);
    if |run| == 1 {
      StartBound(run[0].probes);
    } else {
      var front := run[..|run| - 1];
      RunsAreBounded(endpoints, front);
      RunOk(endpoints, front);
      assert Next(endpoints, run[|run| - 2], run[|run| - 1]);
      var l :| Enabled(endpoints, run[|run| - 2], l) && run[|run| - 1] == Apply(endpoints, run[|run| - 2], l);
      StepDrops(endpoints, run[|run| - 2], l);
    }
  }

  lemma {:induction false} StartBound(probes: seq<Probe>)
    requires forall i :: 0 <= i < |probes| ==> probes[i].pc == Unborn
    ensures ProbesLeft(probes) == 4 * |probes|
  {
    if probes != [] {
      StartBound(probes[..|probes| - 1]);
    }
  }

  /** No step is possible except that a health check ends before the context is done. */
  ghost predicate Halted(endpoints: seq<Bytes>, s: State) {
    forall l :: Enabled(endpoints, s, l) ==> l.CheckEnds? && !s.ctxDone
  }

  /** A run that cannot go on, in which health checks end at the latest once their context is done, has returned and
      has left no goroutine behind. */
  lemma EveryoneLeaves(endpoints: seq<Bytes>, run: seq<State>)
    requires IsRun(endpoints, run) && Halted(endpoints, run[|run| - 1])
    ensures AllGone(run[|run| - 1])
  {
    RunOk(endpoints, run);
    if !AllGone(run[|run| - 1]) {
      var l := NotStuck(endpoints, run[|run| - 1]);
    }
  }

  /** When nothing timed out, the verdict at the end is exact: a leader is returned if and only if some probe was
      healthy. */
  lemma VerdictIff(endpoints: seq<Bytes>, run: seq<State>)
    requires IsRun(endpoints, run) && AllGone(run[|run| - 1]) && !run[|run| - 1].timedOut
    ensures var s := run[|run| - 1];
      s.main.outcome.Leader? <==> exists i :: 0 <= i < |s.probes| && s.probes[i].healthy == Some(true)
  {
    RunOk(endpoints, run);
  }
}
