/** What cancellation does to the concurrent range stream: it can always reach the group, and then the loop can skip
    what has not started and every partition sends at most the response that it is committed to
    (client/client_stream.go, client/util.go). */
module RangeCancellation {
  import opened Streams
  import opened RangeStream
  import CallerLoop
  import RangeTermination

  /** The caller cancels, unless it has, and the group learns of it. Nothing else moves. */
  lemma CancelGroupFrom(c: Config, run: seq<State>) returns (longer: seq<State>)
    requires IsRun(c, run)
    ensures IsRun(c, longer) && run <= longer
    ensures longer[|longer| - 1] == run[|run| - 1].(cancelled := longer[|longer| - 1].cancelled, groupDone := true)
    ensures longer[|longer| - 1].cancelled || run[|run| - 1].groupDone
  {
    hide Next, Inv, IsRun;
    longer := run;
    ReachedIsFine(c, run);
    var s := run[|run| - 1];
    if !s.groupDone {
      if !s.cancelled {
        CallerLoop.ExtendRun(c, longer, CancelCaller);
        longer := longer + [s.(cancelled := true)];
      }
      CallerLoop.ExtendRun(c, longer, Propagate);
      longer := longer + [s.(cancelled := true, groupDone := true)];
    }
  }

  lemma ReachedIsFine(c: Config, run: seq<State>)
    requires IsRun(c, run)
    ensures run != [] && !run[|run| - 1].panicked && |run[|run| - 1].parts| == |c.streams|
  {
    hide PartitionOk, CallerOk, CloserOk;
    RunOk(c, run);
  }

  /** Partition `i` has sent at most what it was committed to in `s`, which is at most one response more. */
  predicate WindsDown(s: State, s': State, i: nat)
    requires i < |s.parts|
  {
    |From(s'.sent, i)| <= Committed(s, i) <= |From(s.sent, i)| + 1
  }

  /** From any state the caller can cancel so that the output still closes and drains, and meanwhile each partition
      sends at most the one response that it was committed to. */
  lemma CancelledRunCanWindDown(c: Config, run: seq<State>) returns (whole: seq<State>)
    requires IsRun(c, run)
    ensures IsRun(c, whole) && run <= whole && RangeTermination.Drained(whole[|whole| - 1])
    ensures |run[|run| - 1].parts| == |c.streams|
    ensures var s, s' := run[|run| - 1], whole[|whole| - 1];
      forall i :: 0 <= i < |c.streams| ==> WindsDown(s, s', i)
  {
    hide From, Next, RangeTermination.Drained;
    ReachedIsFine(c, run);
    var cancelled := CancelGroupFrom(c, run);
    whole := RangeTermination.EveryRunCanFinish(c, cancelled);
    var s, s' := run[|run| - 1], whole[|whole| - 1];
    forall i | 0 <= i < |c.streams| ensures WindsDown(s, s', i) {
      var k := |cancelled| - 1;
      assert whole[k] == cancelled[k];
      CancelledGroupWindsDown(c, whole, k, i);
    }
  }

  /** Once the group is cancelled, a limited loop can skip every partition that it has not started and return. */
  lemma {:induction false} CancelledLoopCanSkip(c: Config, run: seq<State>, i: nat) returns (whole: seq<State>)
    requires IsRun(c, run) && c.maxConcurrent > 0
    requires run[|run| - 1].groupDone && run[|run| - 1].caller == AtGo(i) && i <= |c.streams|
    ensures IsRun(c, whole) && run <= whole && whole[|whole| - 1].caller == Returned
    ensures |run[|run| - 1].parts| == |whole[|whole| - 1].parts| == |c.streams|
    ensures var before, after := run[|run| - 1].parts, whole[|whole| - 1].parts;
      forall j :: 0 <= j < |c.streams| ==> after[j].cb == if j < i then before[j].cb else Skipped
    decreases |c.streams| - i
  {
    hide Next, Inv;
    ReachedIsFine(c, run);
    var s := run[|run| - 1];
    if i == |c.streams| {
      CallerLoop.ExtendRun(c, run, FinishLoop);
      whole := run + [Apply(c, s, FinishLoop)];
    } else {
      CallerLoop.ExtendRun(c, run, SkipDone);
      whole := CancelledLoopCanSkip(c, run + [Apply(c, s, SkipDone)], i + 1);
    }
  }

  /** A fetcher waits for nothing but room in its one-slot channel. */
  lemma FetcherWaitsForItsSlot(c: Config, run: seq<State>, i: nat)
    requires IsRun(c, run) && i < |c.streams|
    ensures |run[|run| - 1].parts| == |c.streams|
    ensures var s, p := run[|run| - 1], run[|run| - 1].parts[i];
      p.fetcher.Running? ==>
        (Enabled(c, s, Push(i)) || Enabled(c, s, CloseInput(i))
         <==> p.pushed == p.taken || p.pushed == |Yield(c.streams[i])|)
  {
    hide Yield, From, CallerOk, CloserOk;
    RunOk(c, run);
    assert PartitionOk(c, run[|run| - 1], i);
  }
}
