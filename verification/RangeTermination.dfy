/** Every run of the concurrent range stream ends, and while the consumer keeps receiving it ends with a closed and
    drained output (client/client_stream.go). */
module RangeTermination {
  import opened Streams
  import opened RangeStream
  import opened SnapshotStore
  import opened ByteStrings
  import opened MachineInts
  import RangeRefinement
  import CallerLoop

  function CallbackLeft(cb: CallbackPc): nat {
    match cb
    case NotSpawned => 9
    case Opening => 8
    case Got => 6
    case Sending => 5
    case Ranging => 3
    case Failing => 2
    case Exiting(_) => 1
    case Done(_) => 0
    case Skipped => 0
  }

  /** Work left in a partition: responses to push, responses to take and forward, and the ends of its two
      goroutines. */
  function PartLeft(y: seq<Response>, p: Partition): int {
    (|y| - p.pushed) + 5 * (|y| - p.taken) + (if p.fetcher.Running? then 1 else 0) + CallbackLeft(p.cb)
  }

  function PartsLeft(c: Config, parts: seq<Partition>, n: nat): int
    requires n <= |parts| == |c.streams|
  {
    if n == 0 then 0 else PartsLeft(c, parts, n - 1) + PartLeft(Yield(c.streams[n - 1]), parts[n - 1])
  }

  function CloserLeft(pc: CloserPc): nat {
    match pc case NotStarted => 3 case Waiting => 2 case Waited => 1 case Finished => 0
  }

  function StepsLeft(c: Config, s: State): int
    requires |s.parts| == |c.streams|
  {
    CallerLoop.CallerLeft(s) + PartsLeft(c, s.parts, |s.parts|) + CloserLeft(s.closer) + (|s.sent| - s.received)
    + (if s.cancelled then 0 else 1) + (if s.groupDone then 0 else 1)
  }

  lemma {:induction false} PartsLeftUpdate(c: Config, parts: seq<Partition>, i: nat, p: Partition, n: nat)
    requires n <= |parts| == |c.streams| && i < |parts|
    ensures PartsLeft(c, parts[i := p], n) == PartsLeft(c, parts, n)
      + if i < n then PartLeft(Yield(c.streams[i]), p) - PartLeft(Yield(c.streams[i]), parts[i]) else 0
  {
    hide Yield;
    if n > 0 {
      PartsLeftUpdate(c, parts, i, p, n - 1);
    }
  }

  lemma PartLeftNonNegative(c: Config, s: State, i: nat)
    requires Inv(c, s) && i < |s.parts|
    ensures PartLeft(Yield(c.streams[i]), s.parts[i]) >= 0
  {
    hide Yield, CallerOk, CloserOk, From, Clean, CleanButLast;
    assert PartitionOk(c, s, i);
  }

  lemma {:induction false} PartsLeftNonNegative(c: Config, s: State, n: nat)
    requires Inv(c, s) && n <= |s.parts|
    ensures PartsLeft(c, s.parts, n) >= 0
  {
    hide Yield, PartLeft, PartitionOk, CallerOk, CloserOk;
    if n > 0 {
      PartLeftNonNegative(c, s, n - 1);
      PartsLeftNonNegative(c, s, n - 1);
    }
  }

  /** When only partition `i`, the output and the group change, so does only their share of the work. */
  lemma PartChange(c: Config, s: State, s': State, i: nat)
    requires |s.parts| == |c.streams| && i < |s.parts| && |s'.parts| == |s.parts|
    requires s'.parts == s.parts[i := s'.parts[i]]
    requires s' == s.(parts := s'.parts, sent := s'.sent, groupDone := s'.groupDone)
    ensures StepsLeft(c, s') - StepsLeft(c, s)
         == PartLeft(Yield(c.streams[i]), s'.parts[i]) - PartLeft(Yield(c.streams[i]), s.parts[i])
            + |s'.sent| - |s.sent| + (if s'.groupDone then 0 else 1) - (if s.groupDone then 0 else 1)
  {
    hide Yield, PartsLeft;
    PartsLeftUpdate(c, s.parts, i, s'.parts[i], |s.parts|);
  }

  /** A step of one partition leaves less to do there. */
  lemma FetcherStepDrops(c: Config, s: State, l: Label)
    requires Inv(c, s) && Enabled(c, s, l)
    requires l.Open? || l.Push? || l.CloseInput?
    ensures StepsLeft(c, Apply(c, s, l)) < StepsLeft(c, s)
  {
    hide Yield, StepsLeft, From, Clean, CleanButLast, CallerOk, CloserOk;
    assert PartitionOk(c, s, l.i);
    PartChange(c, s, Apply(c, s, l), l.i);
  }

  lemma CallbackStepDrops(c: Config, s: State, l: Label)
    requires Enabled(c, s, l) && !s.closed
    requires l.Take? || l.RangeEnds? || l.SeeDone? || l.SeeNotDone? || l.Send? || l.CancelGroup? || l.Exit?
    ensures StepsLeft(c, Apply(c, s, l)) < StepsLeft(c, s)
  {
    hide Yield, StepsLeft;
    PartChange(c, s, Apply(c, s, l), l.i);
  }

  lemma SpawnStepDrops(c: Config, s: State, l: Label)
    requires Inv(c, s) && Enabled(c, s, l)
    requires l.SkipDone? || l.GoUnlimited? || l.Spawn?
    ensures StepsLeft(c, Apply(c, s, l)) < StepsLeft(c, s)
  {
    hide Yield, PartsLeft, PartitionOk, CloserOk;
    var i := s.caller.i;
    PartsLeftUpdate(c, s.parts, i, Apply(c, s, l).parts[i], |s.parts|);
  }

  lemma OtherStepDrops(c: Config, s: State, l: Label)
    requires Inv(c, s) && Enabled(c, s, l)
    requires l.ListFails? || l.ListOk? || l.TakeToken? || l.ReturnToken? || l.FinishLoop?
          || l.WaitEnds? || l.CloseOutput? || l.Receive? || l.CancelCaller? || l.Propagate?
    ensures StepsLeft(c, Apply(c, s, l)) < StepsLeft(c, s)
  {
    hide Yield, PartsLeft, PartitionOk;
  }

  lemma InvParts(c: Config, s: State)
    requires Inv(c, s)
    ensures |s.parts| == |c.streams|
  {
  }

  lemma StepIsOfCallback(c: Config, s: State, l: Label)
    requires Enabled(c, s, l)
    requires l.Take? || l.RangeEnds? || l.SeeDone? || l.SeeNotDone? || l.Send? || l.CancelGroup? || l.Exit?
    ensures l.i < |s.parts|
    ensures !s.parts[l.i].cb.NotSpawned? && !s.parts[l.i].cb.Skipped? && !s.parts[l.i].cb.Done?
  {
  }

  lemma EveryStepDrops(c: Config, s: State, l: Label)
    requires Inv(c, s) && Enabled(c, s, l)
    ensures |Apply(c, s, l).parts| == |c.streams|
    ensures 0 <= StepsLeft(c, Apply(c, s, l)) < StepsLeft(c, s)
  {
    hide *;
    StepOk(c, s, l);
    InvParts(c, Apply(c, s, l));
    NonNegative(c, Apply(c, s, l));
    if l.Open? || l.Push? || l.CloseInput? {
      FetcherStepDrops(c, s, l);
    } else if l.Take? || l.RangeEnds? || l.SeeDone? || l.SeeNotDone? || l.Send? || l.CancelGroup? || l.Exit? {
      StepIsOfCallback(c, s, l);
      StillOpen(c, s, l.i);
      CallbackStepDrops(c, s, l);
    } else if l.SkipDone? || l.GoUnlimited? || l.Spawn? {
      SpawnStepDrops(c, s, l);
    } else {
      OtherStepDrops(c, s, l);
    }
  }

  lemma NonNegative(c: Config, s: State)
    requires Inv(c, s)
    ensures StepsLeft(c, s) >= 0
  {
    hide PartsLeft, Yield;
    PartsLeftNonNegative(c, s, |s.parts|);
  }

  /** No run is longer than the work there was at its start. */
  lemma {:induction false} RunsAreBounded(c: Config, run: seq<State>)
    requires IsRun(c, run)
    ensures |run[|run| - 1].parts| == |c.streams|
    ensures |run| + StepsLeft(c, run[|run| - 1]) <= 1 + StepsLeft(c, Start(c))
    ensures StepsLeft(c, run[|run| - 1]) >= 0
  {
    hide PartsLeft, Enabled, Apply, Yield;
    RunOk(c, run);
    if |run| == 1 {
      NonNegative(c, run[0]);
    } else {
      var front := run[..|run| - 1];
      RunsAreBounded(c, front);
      RunOk(c, front);
      assert Next(c, run[|run| - 2], run[|run| - 1]);
      var l :| Enabled(c, run[|run| - 2], l) && run[|run| - 1] == Apply(c, run[|run| - 2], l);
      EveryStepDrops(c, run[|run| - 2], l);
    }
  }

  // ---------------------------------------------------------------- never stuck

  predicate Drained(s: State) {
    s.closed && s.received == |s.sent|
  }

  /** A callback at its receive gets something, sees the end, or waits for its fetcher, which can move. */
  lemma RangingNotStuck(c: Config, s: State, i: nat) returns (l: Label)
    requires Inv(c, s) && i < |s.parts| && s.parts[i].cb == Ranging
    ensures Enabled(c, s, l) && l != CancelCaller
  {
    hide Yield, From, Clean, CleanButLast, CallerOk, CloserOk, FaultVisible;
    assert PartitionOk(c, s, i);
    var p := s.parts[i];
    l := if p.taken < p.pushed then Take(i) else if p.closed then RangeEnds(i)
         else if p.pushed < |Yield(c.streams[i])| then Push(i) else CloseInput(i);
  }

  lemma SendingNotStuck(c: Config, s: State, i: nat) returns (l: Label)
    requires Inv(c, s) && i < |s.parts| && s.parts[i].cb == Sending
    ensures Enabled(c, s, l) && l != CancelCaller
  {
    hide Yield, From, Clean, CleanButLast, CallerOk, CloserOk, FaultVisible;
    assert PartitionOk(c, s, i);
    l := if s.received < |s.sent| then Receive else Send(i);
  }

  /** A callback that has not ended can move, or waits for its fetcher or for the consumer, who can. */
  lemma CallbackNotStuck(c: Config, s: State, i: nat) returns (l: Label)
    requires Inv(c, s) && i < |s.parts|
    requires !s.parts[i].cb.NotSpawned? && !s.parts[i].cb.Skipped? && !s.parts[i].cb.Done?
    ensures Enabled(c, s, l) && l != CancelCaller
  {
    hide Yield, PartitionOk, CallerOk, CloserOk;
    match s.parts[i].cb
    case Opening => l := Open(i);
    case Ranging => l := RangingNotStuck(c, s, i);
    case Got => l := if s.groupDone then SeeDone(i) else SeeNotDone(i);
    case Sending => l := SendingNotStuck(c, s, i);
    case Failing => l := CancelGroup(i);
    case Exiting(_) => l := Exit(i);
  }

  /** As long as the output is not closed and drained, some step other than a cancellation can happen. */
  lemma NotStuck(c: Config, s: State) returns (l: Label)
    requires Inv(c, s) && !Drained(s)
    ensures Enabled(c, s, l) && l != CancelCaller
  {
    hide Yield, PartOk;
    if s.received < |s.sent| {
      l := Receive;
    } else if s.caller != Returned {
      l := CallerLoop.CallerStep(c, s);
    } else if s.closer == Waited {
      l := CloseOutput;
    } else if AllEnded(s) {
      l := WaitEnds;
    } else {
      var i :| 0 <= i < |s.parts| && !s.parts[i].cb.Done? && !s.parts[i].cb.Skipped? && !s.parts[i].cb.NotSpawned?;
      l := CallbackNotStuck(c, s, i);
    }
  }

  ghost predicate OnlyCancelEnabled(c: Config, s: State) {
    forall l :: Enabled(c, s, l) ==> l == CancelCaller
  }

  /** Nothing but a cancellation by the caller could follow. */
  ghost predicate Maximal(c: Config, run: seq<State>) {
    IsRun(c, run) && OnlyCancelEnabled(c, run[|run| - 1])
  }

  lemma MaximalRunsDrain(c: Config, run: seq<State>)
    requires Maximal(c, run)
    ensures Drained(run[|run| - 1])
  {
    RunOk(c, run);
    if !Drained(run[|run| - 1]) {
      var l := NotStuck(c, run[|run| - 1]);
    }
  }

  lemma {:induction false} SentIsFrom(sent: seq<(int, Response)>, k: nat)
    requires k < |sent|
    ensures sent[k].1 in From(sent, sent[k].0)
  {
    if k < |sent| - 1 {
      SentIsFrom(sent[..|sent| - 1], k);
    }
  }

  /** Streams without errors put no failed response on the output. */
  lemma CleanStreamsSendClean(c: Config, run: seq<State>)
    requires IsRun(c, run) && c.listErr.None?
    requires forall i :: 0 <= i < |c.streams| ==> Clean(Yield(c.streams[i]))
    ensures var s := run[|run| - 1]; forall k :: 0 <= k < |s.sent| ==> !s.sent[k].1.Failed()
  {
    hide Yield;
    var s := run[|run| - 1];
    RunOk(c, run);
    forall k | 0 <= k < |s.sent| ensures !s.sent[k].1.Failed() {
      SentIsFrom(s.sent, k);
      DeliveredIsPrefix(c, s, s.sent[k].0);
    }
  }

  lemma OnlyCancelCancels(c: Config, s: State, l: Label)
    requires Enabled(c, s, l) && l != CancelCaller
    ensures Apply(c, s, l).cancelled == s.cancelled
  {
    hide Yield, At;
  }

  /** One more step towards the end, which is not a cancellation. */
  lemma CarryOn(c: Config, run: seq<State>) returns (s': State)
    requires IsRun(c, run) && Inv(c, run[|run| - 1]) && !Drained(run[|run| - 1])
    ensures IsRun(c, run + [s']) && Inv(c, s') && s'.cancelled == run[|run| - 1].cancelled
    ensures 0 <= StepsLeft(c, s') < StepsLeft(c, run[|run| - 1])
  {
    var s := run[|run| - 1];
    hide *;
    var l := NotStuck(c, s);
    s' := Apply(c, s, l);
    EveryStepDrops(c, s, l);
    StepOk(c, s, l);
    OnlyCancelCancels(c, s, l);
    CallerLoop.ExtendRun(c, run, l);
  }

  lemma RunBegins(c: Config, run: seq<State>)
    requires IsRun(c, run)
    ensures run != []
  {
  }

  lemma {:induction false} Finish(c: Config, run: seq<State>) returns (whole: seq<State>)
    requires IsRun(c, run) && Inv(c, run[|run| - 1])
    ensures IsRun(c, whole) && run <= whole
    ensures Drained(whole[|whole| - 1]) && whole[|whole| - 1].cancelled == run[|run| - 1].cancelled
    decreases StepsLeft(c, run[|run| - 1])
  {
    hide *;
    RunBegins(c, run);
    var s := run[|run| - 1];
    InvParts(c, s);
    if Drained(s) {
      whole := run;
    } else {
      var s' := CarryOn(c, run);
      whole := Finish(c, run + [s']);
    }
  }

  /** Any run can be carried on, without a cancellation, until the output is closed and drained. */
  lemma EveryRunCanFinish(c: Config, run: seq<State>) returns (whole: seq<State>)
    requires IsRun(c, run)
    ensures IsRun(c, whole) && run <= whole
    ensures Drained(whole[|whole| - 1]) && whole[|whole| - 1].cancelled == run[|run| - 1].cancelled
  {
    RunOk(c, run);
    whole := Finish(c, run);
  }

  /** Total correctness without a limit: if the partitions can be listed, their streams are honest and free of errors
      and the caller does not cancel, every maximal run hands the consumer exactly the pairs of the whole range,
      then closes. */
  lemma FaultFreeRunsDeliverTheRange(
    c: Config, run: seq<State>, st: Store, req: RangeRequest, keys: seq<Bytes>, headerRevision: U64)
    requires RangeRefinement.Serves(c, st, req, keys, headerRevision) && req.limit == 0 && |keys| > 1
    requires forall i :: 0 <= i < |c.streams| ==> Clean(Yield(c.streams[i]))
    requires Maximal(c, run) && !run[|run| - 1].cancelled
    ensures Drained(run[|run| - 1])
    ensures RangeRefinement.Delivered(run[|run| - 1])
         == multiset(Answer(st, WholeRequest(req, keys, headerRevision)))
  {
    hide Yield, Answer;
    MaximalRunsDrain(c, run);
    CleanStreamsSendClean(c, run);
    RangeRefinement.EveryPartitionDelivered(c, run, st, req, keys, headerRevision);
    PartitionsTileRange(st, req, keys, headerRevision, |c.streams|);
    assert keys[|c.streams|] == keys[|keys| - 1];
  }
}
