/** Every pick takes a bounded number of steps, and where picks cannot block each other all of them end
    (client/balancer/picker/rw_separated.go). */
module PickerProgress {
  import opened Picker
  import opened PickerSteps
  import opened PickerDeadlock

  /** Steps left at most after an update of the leader: all of a read, the end of one, or the end of a write. */
  function AfterUpdate(why: Why): nat {
    match why case First => 11 case Nested => 2 case ForWrite => 1
  }

  /** Steps that a call has left at most. */
  function StepsLeft(pc: Pc): nat {
    match pc
    case WantCmp(why) => AfterUpdate(why) + 7
    case InCmp(why) => AfterUpdate(why) + 6
    case Compared(why, _, _) => AfterUpdate(why) + 5
    case WantLock(why) => AfterUpdate(why) + 4
    case Pending(why) => AfterUpdate(why) + 3
    case Locked(why) => AfterUpdate(why) + 2
    case Unlocking(why, _) => AfterUpdate(why) + 1
    case Lookup(why, _) => if why == Nested then 2 else 1
    case WantRead => 11
    case HoldRead => 10
    case Sized(_) => 3
    case Ticketed(_, _) => 2
    case Releasing(_) => 1
    case Finished(_) => 0
  }

  function AllLeft(calls: seq<Call>): nat {
    if calls == [] then 0 else AllLeft(calls[..|calls| - 1]) + StepsLeft(calls[|calls| - 1].pc)
  }

  lemma {:induction false} AllLeftUpdate(calls: seq<Call>, k: nat, call: Call)
    requires k < |calls|
    ensures AllLeft(calls[k := call]) == AllLeft(calls) + StepsLeft(call.pc) - StepsLeft(calls[k].pc)
  {
    hide StepsLeft;
    var n := |calls| - 1;
    if k < n {
      AllLeftUpdate(calls[..n], k, call);
      assert calls[k := call][..n] == calls[..n][k := call];
    } else {
      assert calls[k := call][..n] == calls[..n];
    }
  }

  predicate IsPickStep(l: Label) {
    l.Move? || l.Rebuild?
  }

  /** A move in an update of the leader brings the call nearer to its end. */
  lemma UpdaterComesNearer(c: Config, s: State, k: nat)
    requires Enabled(c, s, Move(k)) && UpdatesLeader(s.calls[k].pc)
    ensures var s' := Apply(c, s, Move(k));
      |s'.calls| == |s.calls| && StepsLeft(s'.calls[k].pc) < StepsLeft(s.calls[k].pc)
  {
    hide TicketPick, WritePick, NoneBlocks, NoneReads;
  }

  /** So does a move outside one. */
  lemma ReaderComesNearer(c: Config, s: State, k: nat)
    requires Enabled(c, s, Move(k)) && !UpdatesLeader(s.calls[k].pc)
    ensures var s' := Apply(c, s, Move(k));
      |s'.calls| == |s.calls| && StepsLeft(s'.calls[k].pc) < StepsLeft(s.calls[k].pc)
  {
    hide TicketPick, WritePick, NoneBlocks, NoneReads;
  }

  lemma MoveDrops(c: Config, s: State, k: nat)
    requires Enabled(c, s, Move(k))
    ensures var s' := Apply(c, s, Move(k));
      s'.history == s.history && |s'.calls| == |s.calls| && AllLeft(s'.calls) < AllLeft(s.calls)
  {
    hide Apply, UpdatesLeader, StepsLeft, AllLeft;
    var s' := Apply(c, s, Move(k));
    if UpdatesLeader(s.calls[k].pc) {
      UpdaterComesNearer(c, s, k);
    } else {
      ReaderComesNearer(c, s, k);
    }
    MoveShares(c, s, k);
    assert s'.calls == s.calls[k := s'.calls[k]];
    AllLeftUpdate(s.calls, k, s'.calls[k]);
  }

  lemma RebuildDrops(c: Config, s: State, k: nat, order: seq<Address>)
    requires Enabled(c, s, Rebuild(k, order))
    ensures var s' := Apply(c, s, Rebuild(k, order));
      s'.history == s.history && |s'.calls| == |s.calls| && AllLeft(s'.calls) < AllLeft(s.calls)
  {
    hide IsReaderList, AllLeft;
    AllLeftUpdate(s.calls, k, Apply(c, s, Rebuild(k, order)).calls[k]);
  }

  /** Every step of a pick leaves less to do. */
  lemma PickStepDrops(c: Config, s: State, l: Label)
    requires Enabled(c, s, l) && IsPickStep(l)
    ensures var s' := Apply(c, s, l);
      s'.history == s.history && |s'.calls| == |s.calls| && AllLeft(s'.calls) < AllLeft(s.calls)
  {
    hide Enabled, Apply, AllLeft;
    match l
    case Move(k) => MoveDrops(c, s, k);
    case Rebuild(k, order) => RebuildDrops(c, s, k, order);
  }

  lemma OtherStepAdds(c: Config, s: State, l: Label)
    requires Enabled(c, s, l) && !IsPickStep(l)
    ensures var s' := Apply(c, s, l);
      || (|s'.history| == |s.history| + 1 && s'.calls == s.calls)
      || (s'.history == s.history && |s'.calls| == |s.calls| + 1 && AllLeft(s'.calls) <= AllLeft(s.calls) + 18)
  {
    if l.Begin? {
      assert Apply(c, s, l).calls[..|s.calls|] == s.calls;
    }
  }

  /** A call takes at most 18 steps, whatever the other calls and the leader do: a run is no longer than the changes of
      the leader and 19 steps for each call, its beginning included. */
  lemma {:induction false} RunsAreBounded(c: Config, run: seq<State>)
    requires IsRun(c, run)
    ensures var s := run[|run| - 1]; |run| + AllLeft(s.calls) <= |s.history| + 19 * |s.calls|
  {
    hide Enabled, Apply, AllLeft, Next, Start;
    if |run| == 1 {
      StartHasNone(c);
    } else {
      RunFront(c, run);
      RunsAreBounded(c, run[..|run| - 1]);
      NextIsBounded(c, run[|run| - 2], run[|run| - 1]);
    }
  }

  lemma StartHasNone(c: Config)
    ensures |Start(c).history| == 1 && AllLeft(Start(c).calls) == 0
  {
  }

  lemma NextIsBounded(c: Config, s: State, s': State)
    requires Next(c, s, s')
    ensures 1 + AllLeft(s'.calls) - AllLeft(s.calls)
         <= |s'.history| - |s.history| + 19 * (|s'.calls| - |s.calls|)
  {
    hide Enabled, Apply, AllLeft;
    var l :| Enabled(c, s, l) && s' == Apply(c, s, l);
    if IsPickStep(l) {
      PickStepDrops(c, s, l);
    } else {
      OtherStepAdds(c, s, l);
    }
  }

  // ---------------------------------------------------------------- all picks end

  predicate AllFinished(s: State) {
    forall k :: 0 <= k < |s.calls| ==> s.calls[k].pc.Finished?
  }

  /** No pick can take a step. */
  ghost predicate Halted(c: Config, s: State) {
    forall l :: Enabled(c, s, l) ==> !IsPickStep(l)
  }

  lemma SmoothHasNoNested(c: Config, s: State)
    requires AllSmooth(c, s)
    ensures forall k :: 0 <= k < |s.calls| ==> !IsNested(s.calls[k].pc)
  {
  }

  /** Where picks cannot block each other, a run that halts has finished all its picks. */
  lemma HaltedRunsFinish(c: Config, run: seq<State>)
    requires GoodConfig(c) && NeverWithoutReader(c) && IsRun(c, run) && Halted(c, run[|run| - 1])
    ensures AllFinished(run[|run| - 1])
  {
    hide GoodConfig, NeverWithoutReader, Inv, Enabled, AllSmooth, IsNested;
    var s := run[|run| - 1];
    RunOk(c, run);
    RunStaysSmooth(c, run);
    SmoothHasNoNested(c, s);
    SmoothIsNotStuck(c, s);
  }

  /** `s'` has the calls and the leader of `s`, with all calls finished. */
  predicate AllDone(s: State, s': State) {
    AllFinished(s') && s'.history == s.history && |s'.calls| == |s.calls|
  }

  /** The run can be carried on, without a new call or a change of the leader, until all its picks have finished. */
  ghost predicate CanFinish(c: Config, run: seq<State>)
    requires run != []
  {
    exists whole :: IsRun(c, whole) && run <= whole && AllDone(run[|run| - 1], whole[|whole| - 1])
  }

  /** One more step of a pick, as long as one is under way. */
  lemma PickMoves(c: Config, run: seq<State>) returns (s': State)
    requires GoodConfig(c) && NeverWithoutReader(c) && IsRun(c, run) && !AllFinished(run[|run| - 1])
    ensures var s := run[|run| - 1];
      && IsRun(c, run + [s']) && s'.history == s.history && |s'.calls| == |s.calls|
      && AllLeft(s'.calls) < AllLeft(s.calls)
  {
    hide GoodConfig, NeverWithoutReader, Enabled, AllFinished, Apply;
    var s := run[|run| - 1];
    if Halted(c, s) {
      HaltedRunsFinish(c, run);
      assert false;
    } else {
      var l :| Enabled(c, s, l) && IsPickStep(l);
      s' := Apply(c, s, l);
      PickStepDrops(c, s, l);
      ExtendRun(c, run, l);
    }
  }

  lemma {:induction false} Finish(c: Config, run: seq<State>) returns (whole: seq<State>)
    requires GoodConfig(c) && NeverWithoutReader(c) && IsRun(c, run)
    ensures IsRun(c, whole) && run <= whole && AllDone(run[|run| - 1], whole[|whole| - 1])
    decreases AllLeft(run[|run| - 1].calls)
  {
    hide GoodConfig, NeverWithoutReader, AllFinished, AllLeft, Next, Start;
    if AllFinished(run[|run| - 1]) {
      whole := run;
    } else {
      var s' := PickMoves(c, run);
      whole := Finish(c, run + [s']);
    }
  }

  function Size(s: State): nat {
    |s.history| + |s.calls|
  }

  lemma StepGrows(c: Config, s: State, s': State)
    requires Next(c, s, s')
    ensures Size(s) <= Size(s')
    ensures Halted(c, s) ==> Size(s) < Size(s')
  {
    hide Enabled, Apply;
    var l :| Enabled(c, s, l) && s' == Apply(c, s, l);
    if IsPickStep(l) {
      PickStepDrops(c, s, l);
    } else {
      OtherStepAdds(c, s, l);
    }
  }

  lemma {:induction false} RunGrows(c: Config, run: seq<State>, k: nat)
    requires IsRun(c, run) && k < |run|
    ensures Size(run[k]) <= Size(run[|run| - 1])
  {
    hide Next, Size, Start;
    if k < |run| - 1 {
      RunFront(c, run);
      RunGrows(c, run[..|run| - 1], k);
      StepGrows(c, run[|run| - 2], run[|run| - 1]);
    }
  }

  lemma StuckCannotFinish(c: Config, run: seq<State>, whole: seq<State>)
    requires IsRun(c, run) && Stuck(c, run[|run| - 1]) && IsRun(c, whole) && run <= whole
    ensures !AllDone(run[|run| - 1], whole[|whole| - 1])
  {
    hide Next, Enabled, Start;
    var s := run[|run| - 1];
    if |whole| > |run| {
      assert Next(c, whole[|run| - 1], whole[|run|]) && whole[|run| - 1] == s;
      StepGrows(c, s, whole[|run|]);
      RunGrows(c, whole, |run|);
    } else {
      assert whole == run;
    }
  }

  /** Exactly where picks cannot block each other, every run can be carried on, without a new call or a change of the
      leader, until all its picks have finished. */
  lemma PicksCanFinishIff(c: Config)
    requires GoodConfig(c)
    ensures (forall run: seq<State> | IsRun(c, run) :: CanFinish(c, run)) <==> NeverWithoutReader(c)
  {
    hide GoodConfig, NeverWithoutReader, Stuck, Next, Start, AllDone;
    if NeverWithoutReader(c) {
      forall run: seq<State> | IsRun(c, run) ensures CanFinish(c, run) {
        var whole := Finish(c, run);
      }
    } else {
      DeadlockFreeIff(c);
      var s :| Reachable(c, s) && Stuck(c, s);
      var run :| IsRun(c, run) && run[|run| - 1] == s;
      forall whole | IsRun(c, whole) && run <= whole ensures !AllDone(s, whole[|whole| - 1]) {
        StuckCannotFinish(c, run, whole);
      }
    }
  }

  // ---------------------------------------------------------------- quiet picks

  /** A write during which the leader does not change is exact: it gets the leader's connection, or an error if there is
      none. */
  lemma QuietWriteIsExact(c: Config, run: seq<State>, k: nat)
    requires GoodConfig(c) && IsRun(c, run) && k < |run[|run| - 1].calls|
    requires var s := run[|run| - 1];
      !s.calls[k].read && s.calls[k].pc.Finished? && s.calls[k].start + 1 == |s.history|
    ensures var s := run[|run| - 1];
      s.calls[k].pc.pick == if Address(Current(s)) in c.conns
                            then Picked(c.conns[Address(Current(s))], Current(s)) else NoSubConnAvailable
  {
    hide GoodConfig, Next;
    WriteSafety(c, run, k);
  }

  /** In any state a new pick of either kind can begin; where picks cannot block each other it can also end, together
      with all others and without a change of the leader. */
  lemma NewPickCanFinish(c: Config, run: seq<State>, read: bool) returns (whole: seq<State>)
    requires GoodConfig(c) && NeverWithoutReader(c) && IsRun(c, run)
    ensures IsRun(c, whole) && run <= whole
    ensures var s, s' := run[|run| - 1], whole[|whole| - 1];
      && s'.history == s.history && |s'.calls| == |s.calls| + 1
      && s'.calls[|s.calls|].read == read && s'.calls[|s.calls|].start + 1 == |s'.history|
      && AllFinished(s')
  {
    hide GoodConfig, NeverWithoutReader, Next, AllFinished, Inv;
    var s := run[|run| - 1];
    RunOk(c, run);
    HistoryIsThere(c, s);
    ExtendRun(c, run, Begin(read));
    var s1 := Apply(c, s, Begin(read));
    whole := Finish(c, run + [s1]);
    CallsKeepTheirKind(c, whole, |run|, |s.calls|);
  }

  lemma HistoryIsThere(c: Config, s: State)
    requires Inv(c, s)
    ensures s.history != []
  {
  }

  lemma KindKept(c: Config, s: State, s': State, k: nat)
    requires Next(c, s, s') && k < |s.calls|
    ensures k < |s'.calls| && s'.calls[k].read == s.calls[k].read && s'.calls[k].start == s.calls[k].start
  {
    hide NoneBlocks, NoneReads, IsReaderList, TicketPick, WritePick;
  }

  lemma {:induction false} CallsKeepTheirKind(c: Config, run: seq<State>, j: nat, k: nat)
    requires IsRun(c, run) && j < |run| && k < |run[j].calls|
    ensures var s := run[|run| - 1];
      k < |s.calls| && s.calls[k].read == run[j].calls[k].read && s.calls[k].start == run[j].calls[k].start
  {
    hide Next, Start;
    if j < |run| - 1 {
      RunFront(c, run);
      CallsKeepTheirKind(c, run[..|run| - 1], j, k);
      KindKept(c, run[|run| - 2], run[|run| - 1], k);
    }
  }
}
