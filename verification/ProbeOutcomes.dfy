/** What `checkLeader` can still do: which verdicts are possible for which healths of the endpoints, and that it never
    has to wait for its timeout (client/leader.go). */
module ProbeOutcomes {
  import opened ByteStrings
  import opened Wrappers
  import opened LeaderProbe

  // ---------------------------------------------------------------- nobody waits for the timeout

  /** No health check is under way. */
  predicate NoneChecking(s: State) {
    forall i :: 0 <= i < |s.probes| ==> s.probes[i].pc != Checking
  }

  /** Once all health checks have ended, some step other than the timeout is possible until every goroutine is gone. */
  lemma GoesOnWithoutTimeout(endpoints: seq<Bytes>, run: seq<State>) returns (l: Label)
    requires IsRun(endpoints, run) && NoneChecking(run[|run| - 1]) && !AllGone(run[|run| - 1])
    ensures Enabled(endpoints, run[|run| - 1], l) && l != Timeout && !l.CheckEnds?
  {
    hide OutcomeOk, Pending;
    var s := run[|run| - 1];
    RunOk(endpoints, run);
    PendingZero(s.probes);
    if s.main.Spawning? {
      l := if s.main.i < |endpoints| then SpawnProbe else SpawnWaiter;
    } else if s.main.Returning? {
      l := Cancel;
    } else if i: nat :| i < |s.probes| && s.probes[i].pc != Gone {
      assert ProbeOk(s, s.probes[i]);
      l := if s.probes[i].pc == Finishing then Leave(i) else if s.main.Returned? then GiveUp(i) else Accept(i);
    } else if s.waiter == AwaitProbes {
      l := WaiterWakes;
    } else if s.main.Returned? {
      l := WaiterGivesUp;
    } else {
      l := if s.waiter == OfferErr then AcceptErr else SeeDone;
    }
  }

  /** While the call selects, the address of any healthy endpoint can be the one that it receives and returns. */
  lemma AnyOfferIsAccepted(endpoints: seq<Bytes>, run: seq<State>, i: nat)
    requires IsRun(endpoints, run) && i < |endpoints|
    requires run[|run| - 1].main == Selecting
    ensures |run[|run| - 1].probes| == |endpoints|
    ensures run[|run| - 1].probes[i].pc == Offering ==>
      && Enabled(endpoints, run[|run| - 1], Accept(i))
      && Apply(endpoints, run[|run| - 1], Accept(i)).main == Returning(Leader(endpoints[i]))
  {
    hide OutcomeOk, Pending;
    RunOk(endpoints, run);
  }

  // ---------------------------------------------------------------- every verdict is possible

  /** Which probe is to win, if the healths are as planned. */
  predicate IsPlan(healths: seq<bool>, winner: Option<nat>) {
    match winner
    case Some(i) => i < |healths| && healths[i]
    case None => forall i :: 0 <= i < |healths| ==> !healths[i]
  }

  function Verdict(endpoints: seq<Bytes>, winner: Option<nat>): Outcome
    requires winner.Some? ==> winner.value < |endpoints|
  {
    match winner case Some(i) => Leader(endpoints[i]) case None => ErrNoLeader
  }

  /** The state is one of a call that goes as planned, without a timeout. */
  predicate Follows(endpoints: seq<Bytes>, s: State, healths: seq<bool>, winner: Option<nat>) {
    && |healths| == |endpoints| == |s.probes| && IsPlan(healths, winner) && !s.timedOut
    && (forall i :: 0 <= i < |s.probes| ==> s.probes[i].healthy.Some? ==> s.probes[i].healthy.value == healths[i])
    && (Chosen(s) ==> s.main.outcome == Verdict(endpoints, winner))
  }

  /** While the call selects and no check is under way, the planned winner offers its address. */
  lemma WinnerOffers(endpoints: seq<Bytes>, s: State, healths: seq<bool>, winner: Option<nat>)
    requires Inv(endpoints, s) && Follows(endpoints, s, healths, winner) && NoneChecking(s) && s.main == Selecting
    ensures winner.Some? ==> s.probes[winner.value].pc == Offering
    ensures winner.None? ==> forall i :: 0 <= i < |s.probes| ==> s.probes[i].pc == Finishing || s.probes[i].pc == Gone
  {
    hide OutcomeOk, Pending;
    forall i | 0 <= i < |s.probes|
      ensures s.probes[i].pc == if healths[i] then Offering else s.probes[i].pc
      ensures !healths[i] ==> s.probes[i].pc == Finishing || s.probes[i].pc == Gone
    {
      assert ProbeOk(s, s.probes[i]);
    }
  }

  /** The next step of the plan while the call selects. */
  lemma SelectingStep(endpoints: seq<Bytes>, s: State, healths: seq<bool>, winner: Option<nat>) returns (l: Label)
    requires Inv(endpoints, s) && Follows(endpoints, s, healths, winner) && NoneChecking(s) && s.main == Selecting
    ensures Enabled(endpoints, s, l) && Follows(endpoints, Apply(endpoints, s, l), healths, winner)
  {
    hide OutcomeOk, Pending;
    WinnerOffers(endpoints, s, healths, winner);
    PendingZero(s.probes);
    if winner.Some? {
      l := Accept(winner.value);
    } else if i :| 0 <= i < |s.probes| && s.probes[i].pc == Finishing {
      l := Leave(i);
    } else {
      l := if s.waiter == AwaitProbes then WaiterWakes else AcceptErr;
    }
  }

  /** The next step of the plan before and after. */
  lemma OtherStep(endpoints: seq<Bytes>, s: State, healths: seq<bool>, winner: Option<nat>) returns (l: Label)
    requires Inv(endpoints, s) && Follows(endpoints, s, healths, winner) && !AllGone(s)
    requires NoneChecking(s) && s.main != Selecting
    ensures Enabled(endpoints, s, l) && Follows(endpoints, Apply(endpoints, s, l), healths, winner)
  {
    hide OutcomeOk, Pending;
    PendingZero(s.probes);
    match s.main
    case Spawning(i) => l := if i < |endpoints| then SpawnProbe else SpawnWaiter;
    case Returning(_) => l := Cancel;
    case Returned(_) =>
      if i :| 0 <= i < |s.probes| && s.probes[i].pc != Gone {
        assert ProbeOk(s, s.probes[i]);
        l := if s.probes[i].pc == Offering then GiveUp(i) else Leave(i);
      } else {
        l := if s.waiter == AwaitProbes then WaiterWakes else WaiterGivesUp;
      }
  }

  lemma PlanStep(endpoints: seq<Bytes>, s: State, healths: seq<bool>, winner: Option<nat>) returns (l: Label)
    requires Inv(endpoints, s) && Follows(endpoints, s, healths, winner) && !AllGone(s)
    ensures Enabled(endpoints, s, l) && Follows(endpoints, Apply(endpoints, s, l), healths, winner)
  {
    hide Inv, AllGone;
    if i :| 0 <= i < |s.probes| && s.probes[i].pc == Checking {
      l := CheckEnds(i, healths[i]);
    } else if s.main == Selecting {
      l := SelectingStep(endpoints, s, healths, winner);
    } else {
      l := OtherStep(endpoints, s, healths, winner);
    }
  }

  lemma ExtendRun(endpoints: seq<Bytes>, run: seq<State>, l: Label)
    requires IsRun(endpoints, run) && Enabled(endpoints, run[|run| - 1], l)
    ensures IsRun(endpoints, run + [Apply(endpoints, run[|run| - 1], l)])
  {
    hide Enabled, Apply;
    var s' := Apply(endpoints, run[|run| - 1], l);
    var run' := run + [s'];
    assert Next(endpoints, run[|run| - 1], s');
    forall k | 0 < k < |run'| ensures Next(endpoints, run'[k - 1], run'[k]) {
      if k < |run| { assert Next(endpoints, run[k - 1], run[k]); }
    }
  }

  /** One more step as planned. */
  lemma GoOn(endpoints: seq<Bytes>, run: seq<State>, healths: seq<bool>, winner: Option<nat>) returns (s': State)
    requires IsRun(endpoints, run) && Follows(endpoints, run[|run| - 1], healths, winner) && !AllGone(run[|run| - 1])
    ensures IsRun(endpoints, run + [s']) && Follows(endpoints, s', healths, winner)
    ensures 0 <= StepsLeft(s') < StepsLeft(run[|run| - 1])
  {
    hide Follows, Inv, AllGone, Enabled, Apply, StepsLeft;
    var s := run[|run| - 1];
    RunOk(endpoints, run);
    var l := PlanStep(endpoints, s, healths, winner);
    s' := Apply(endpoints, s, l);
    StepDrops(endpoints, s, l);
    ExtendRun(endpoints, run, l);
  }

  lemma {:induction false} GoToTheEnd(
    endpoints: seq<Bytes>, run: seq<State>, healths: seq<bool>, winner: Option<nat>) returns (whole: seq<State>)
    requires IsRun(endpoints, run) && Follows(endpoints, run[|run| - 1], healths, winner)
    ensures IsRun(endpoints, whole) && AllGone(whole[|whole| - 1])
    ensures Follows(endpoints, whole[|whole| - 1], healths, winner)
    decreases StepsLeft(run[|run| - 1])
  {
    hide Follows, AllGone, StepsLeft, Next;
    if AllGone(run[|run| - 1]) {
      whole := run;
    } else {
      var s' := GoOn(endpoints, run, healths, winner);
      whole := GoToTheEnd(endpoints, run + [s'], healths, winner);
    }
  }

  /** Every verdict is possible: whatever the healths of the endpoints, any healthy one can be returned, and ErrNoLeader
      when there is none, by a run without a timeout that leaves no goroutine. */
  lemma EveryVerdictIsPossible(endpoints: seq<Bytes>, healths: seq<bool>, winner: Option<nat>)
    returns (run: seq<State>)
    requires |healths| == |endpoints| && IsPlan(healths, winner)
    ensures IsRun(endpoints, run) && AllGone(run[|run| - 1]) && !run[|run| - 1].timedOut
    ensures |run[|run| - 1].probes| == |endpoints|
    ensures forall i :: 0 <= i < |endpoints| ==> run[|run| - 1].probes[i].healthy == Some(healths[i])
    ensures run[|run| - 1].main.outcome == match winner case Some(i) => Leader(endpoints[i]) case None => ErrNoLeader
  {
    hide Inv;
    run := GoToTheEnd(endpoints, [Start(endpoints)], healths, winner);
    RunOk(endpoints, run);
    GoneIsChecked(endpoints, run[|run| - 1]);
  }

  lemma GoneIsChecked(endpoints: seq<Bytes>, s: State)
    requires Inv(endpoints, s) && AllGone(s)
    ensures forall i :: 0 <= i < |s.probes| ==> s.probes[i].healthy.Some?
  {
    hide OutcomeOk, Pending;
    forall i | 0 <= i < |s.probes| ensures s.probes[i].healthy.Some? {
      assert ProbeOk(s, s.probes[i]);
    }
  }

  // ---------------------------------------------------------------- the timeout ends everything

  /** From any state in which the call selects, the timeout and the call's own steps alone make it return
      ErrNoLeader. */
  lemma TimeoutReturns(endpoints: seq<Bytes>, run: seq<State>) returns (whole: seq<State>)
    requires IsRun(endpoints, run) && run[|run| - 1].main == Selecting
    ensures IsRun(endpoints, whole) && run <= whole
    ensures var s := run[|run| - 1];
      whole[|whole| - 1] == s.(main := Returned(ErrNoLeader), ctxDone := true, timedOut := s.timedOut || !s.ctxDone)
  {
    hide Next, OutcomeOk, Pending;
    RunOk(endpoints, run);
    var s := run[|run| - 1];
    whole := run;
    if !s.ctxDone {
      ExtendRun(endpoints, whole, Timeout);
      s := Apply(endpoints, s, Timeout);
      whole := whole + [s];
    }
    ExtendRun(endpoints, whole, SeeDone);
    s := Apply(endpoints, s, SeeDone);
    whole := whole + [s];
    ExtendRun(endpoints, whole, Cancel);
    s := Apply(endpoints, s, Cancel);
    whole := whole + [s];
  }

  /** The timeout can fire at any moment before the context is done. */
  lemma TimeoutCanFire(endpoints: seq<Bytes>, run: seq<State>)
    requires IsRun(endpoints, run) && !run[|run| - 1].ctxDone
    ensures IsRun(endpoints, run + [run[|run| - 1].(ctxDone := true, timedOut := true)])
  {
    hide Next, OutcomeOk, Pending;
    RunOk(endpoints, run);
    ExtendRun(endpoints, run, Timeout);
  }

  /** Once the context is done, a probe whose health check has ended leaves by its own steps alone. */
  lemma ProbeLeavesAlone(endpoints: seq<Bytes>, run: seq<State>, i: nat) returns (whole: seq<State>)
    requires IsRun(endpoints, run) && run[|run| - 1].ctxDone && i < |endpoints|
    ensures |run[|run| - 1].probes| == |endpoints|
    ensures var p := run[|run| - 1].probes[i].pc;
      p == Offering || p == Finishing ==>
        && IsRun(endpoints, whole) && run <= whole && |whole[|whole| - 1].probes| == |endpoints|
        && whole[|whole| - 1].probes[i].pc == Gone && whole[|whole| - 1].main == run[|run| - 1].main
  {
    hide Next, OutcomeOk, Pending;
    RunOk(endpoints, run);
    var s := run[|run| - 1];
    whole := run;
    if s.probes[i].pc == Offering {
      ExtendRun(endpoints, whole, GiveUp(i));
      s := Apply(endpoints, s, GiveUp(i));
      whole := whole + [s];
    }
    if s.probes[i].pc == Finishing {
      ExtendRun(endpoints, whole, Leave(i));
      s := Apply(endpoints, s, Leave(i));
      whole := whole + [s];
    }
  }
}
