/** The partition loop and its token pool (client/client_stream.go, client/util.go): tokens are conserved, the loop
    never waits for the consumer, and how many callbacks can run at once. */
module CallerLoop {
  import opened RangeStream

  // ---------------------------------------------------------------- the loop always finishes

  /** Tokens in the pool and tokens held by a `Go` in progress add up to the configured maximum, so the deferred
      return of a token always finds room. */
  lemma TokensConserved(c: Config, run: seq<State>)
    requires IsRun(c, run) && c.maxConcurrent > 0
    ensures var s := run[|run| - 1];
      && s.tokens + (if s.caller.Starting? || s.caller.Releasing? then 1 else 0) == c.maxConcurrent
      && (s.caller.Releasing? ==> Enabled(c, s, ReturnToken))
  {
    RunOk(c, run);
  }

  /** A step that the caller can take without anyone's help. */
  function CallerStep(c: Config, s: State): Label {
    match s.caller
    case Listing => if c.listErr.Some? then ListFails else ListOk
    case AtGo(i) => if i >= |s.parts| then FinishLoop else if c.maxConcurrent > 0 then TakeToken else GoUnlimited
    case Starting(_) => Spawn
    case Releasing(_) => ReturnToken
    case Returned => Receive
  }

  predicate IsCallerStep(l: Label) {
    l.ListFails? || l.ListOk? || l.TakeToken? || l.SkipDone? || l.GoUnlimited? || l.Spawn? || l.ReturnToken?
    || l.FinishLoop?
  }

  /** How many steps the caller has left at most. */
  function CallerLeft(s: State): int {
    match s.caller
    case Listing => 3 * |s.parts| + 2
    case AtGo(i) => 3 * (|s.parts| - i) + 1
    case Starting(i) => 3 * (|s.parts| - i)
    case Releasing(i) => 3 * (|s.parts| - i) - 1
    case Returned => 0
  }

  /** Only the caller moves the caller, and each of its steps brings it nearer to its return. */
  lemma CallerMoves(c: Config, s: State, l: Label)
    requires Inv(c, s) && Enabled(c, s, l)
    ensures IsCallerStep(l) ==> 0 <= CallerLeft(Apply(c, s, l)) < CallerLeft(s)
    ensures !IsCallerStep(l) ==> Apply(c, s, l).caller == s.caller
  {
    hide PartitionOk, CloserOk, AllEnded;
    if !IsCallerStep(l) {
      OthersLeaveCaller(c, s, l);
    }
  }

  lemma OthersLeaveCaller(c: Config, s: State, l: Label)
    requires Enabled(c, s, l) && !IsCallerStep(l)
    ensures Apply(c, s, l).caller == s.caller
  {
    hide At, AllEnded;
  }

  lemma ExtendRun(c: Config, run: seq<State>, l: Label)
    requires IsRun(c, run) && Enabled(c, run[|run| - 1], l)
    ensures IsRun(c, run + [Apply(c, run[|run| - 1], l)])
  {
    var s := run[|run| - 1];
    var run' := run + [Apply(c, s, l)];
    assert Next(c, s, Apply(c, s, l));
    forall k | 0 < k < |run'| ensures Next(c, run'[k - 1], run'[k]) {
      if k < |run| {
        assert Next(c, run[k - 1], run[k]);
      }
    }
  }

  /** The caller can take its next step, and comes nearer to its return. */
  lemma CallerGoesOn(c: Config, run: seq<State>) returns (s': State)
    requires IsRun(c, run) && run[|run| - 1].caller != Returned
    ensures IsRun(c, run + [s']) && s'.received == run[|run| - 1].received
    ensures 0 <= CallerLeft(s') < CallerLeft(run[|run| - 1])
  {
    var s := run[|run| - 1];
    RunOk(c, run);
    hide PartitionOk, CloserOk, IsRun;
    var l := CallerStep(c, s);
    s' := Apply(c, s, l);
    hide Inv;
    CallerMoves(c, s, l);
    ExtendRun(c, run, l);
  }

  /** From any reachable state the caller returns its channel by its own steps alone, whatever the consumer, the
      callbacks and the fetchers do not do. */
  lemma {:induction false} CallerReturnsAlone(c: Config, run: seq<State>) returns (whole: seq<State>)
    requires IsRun(c, run)
    ensures IsRun(c, whole) && run <= whole
    ensures whole[|whole| - 1].caller == Returned
    ensures whole[|whole| - 1].received == run[|run| - 1].received
    ensures |whole| <= |run| + CallerLeft(run[|run| - 1])
    decreases CallerLeft(run[|run| - 1])
  {
    hide Next, Start;
    if run[|run| - 1].caller == Returned {
      whole := run;
    } else {
      var s' := CallerGoesOn(c, run);
      whole := CallerReturnsAlone(c, run + [s']);
    }
  }

  // ---------------------------------------------------------------- how many callbacks run at once

  /** The callback was started and has not ended. */
  predicate Active(cb: CallbackPc) {
    !cb.NotSpawned? && !cb.Skipped? && !cb.Done?
  }

  function Running(s: State): nat {
    |set i | 0 <= i < |s.parts| && Active(s.parts[i].cb)|
  }

  lemma {:induction false} BelowCount(n: nat, xs: set<int>)
    requires forall x :: x in xs ==> 0 <= x < n
    ensures |xs| <= n
    ensures |xs| == n <==> forall x :: 0 <= x < n ==> x in xs
  {
    if n == 0 {
      assert forall x :: x !in xs;
      assert |xs| == 0;
    } else {
      var rest := xs - {n - 1};
      BelowCount(n - 1, rest);
      if n - 1 in xs {
        assert xs == rest + {n - 1};
      } else {
        assert xs == rest;
      }
    }
  }

  predicate FirstStarted(s: State, n: nat) {
    n <= |s.parts| && forall i :: 0 <= i < n ==> s.parts[i].cb == Opening
  }

  /** With a token in the pool, the caller's three steps that start one more partition. */
  lemma TokenSteps(c: Config, s: State, n: nat)
    requires |s.parts| == |c.streams| && !s.panicked && 0 < s.tokens == c.maxConcurrent
    requires n < |s.parts| && s.caller == AtGo(n) && FirstStarted(s, n)
    ensures Enabled(c, s, TakeToken) && Enabled(c, Apply(c, s, TakeToken), Spawn)
    ensures var s2 := Apply(c, Apply(c, s, TakeToken), Spawn);
      && Enabled(c, s2, ReturnToken)
      && Apply(c, s2, ReturnToken).caller == AtGo(n + 1) && FirstStarted(Apply(c, s2, ReturnToken), n + 1)
  {
  }

  /** The caller starts one more partition. */
  lemma StartOne(c: Config, before: seq<State>, n: nat) returns (run: seq<State>)
    requires IsRun(c, before) && n < |c.streams|
    requires before[|before| - 1].caller == AtGo(n) && FirstStarted(before[|before| - 1], n)
    ensures IsRun(c, run)
    ensures run[|run| - 1].caller == AtGo(n + 1) && FirstStarted(run[|run| - 1], n + 1)
  {
    hide PartitionOk, CloserOk, AllEnded, Apply, Next;
    RunOk(c, before);
    var s := before[|before| - 1];
    if c.maxConcurrent > 0 {
      TokenSteps(c, s, n);
      var s1 := Apply(c, s, TakeToken);
      var s2 := Apply(c, s1, Spawn);
      ExtendRun(c, before, TakeToken);
      ExtendRun(c, before + [s1], Spawn);
      ExtendRun(c, before + [s1] + [s2], ReturnToken);
      run := before + [s1] + [s2] + [Apply(c, s2, ReturnToken)];
    } else {
      UnlimitedStep(c, s, n);
      ExtendRun(c, before, GoUnlimited);
      run := before + [Apply(c, s, GoUnlimited)];
    }
  }

  lemma UnlimitedStep(c: Config, s: State, n: nat)
    requires |s.parts| == |c.streams| && !s.panicked && c.maxConcurrent <= 0
    requires n < |s.parts| && s.caller == AtGo(n) && FirstStarted(s, n)
    ensures Enabled(c, s, GoUnlimited)
    ensures Apply(c, s, GoUnlimited).caller == AtGo(n + 1) && FirstStarted(Apply(c, s, GoUnlimited), n + 1)
  {
  }

  /** A run in which only the caller has moved, up to the start of partition `n`. */
  lemma {:induction false} StartPartitions(c: Config, n: nat) returns (run: seq<State>)
    requires c.listErr.None? && n <= |c.streams|
    ensures IsRun(c, run)
    ensures run[|run| - 1].caller == AtGo(n) && FirstStarted(run[|run| - 1], n)
    decreases n
  {
    if n == 0 {
      ExtendRun(c, [Start(c)], ListOk);
      run := [Start(c)] + [Apply(c, Start(c), ListOk)];
    } else {
      run := StartPartitions(c, n - 1);
      run := StartOne(c, run, n - 1);
    }
  }

  /** The token goes back when `Go` returns, not when the callback ends. So the configured maximum bounds the running
      callbacks in every run exactly when there are no more partitions than that anyway. */
  lemma ConcurrencyBoundIff(c: Config)
    requires c.maxConcurrent > 0 && c.listErr.None?
    ensures (forall run: seq<State> | IsRun(c, run) :: Running(run[|run| - 1]) <= c.maxConcurrent)
       <==> |c.streams| <= c.maxConcurrent
  {
    forall run: seq<State> | IsRun(c, run) ensures Running(run[|run| - 1]) <= |c.streams| {
      RunOk(c, run);
      var s := run[|run| - 1];
      BelowCount(|c.streams|, set i | 0 <= i < |s.parts| && Active(s.parts[i].cb));
    }
    var all := StartPartitions(c, |c.streams|);
    RunOk(c, all);
    var s := all[|all| - 1];
    BelowCount(|c.streams|, set i | 0 <= i < |s.parts| && Active(s.parts[i].cb));
    assert Running(s) == |c.streams|;
  }
}
