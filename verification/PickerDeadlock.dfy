/** When picks can block each other for good: a read that finds no reader updates the leader again while it holds the
    lock for reading (client/balancer/picker/rw_separated.go). */
module PickerDeadlock {
  import opened ByteStrings
  import opened Tickets
  import opened Picker
  import opened PickerSteps

  ghost predicate Reachable(c: Config, s: State) {
    exists run :: IsRun(c, run) && run[|run| - 1] == s
  }

  /** Some call is under way, and no step of any call is possible. */
  ghost predicate Stuck(c: Config, s: State) {
    && (exists k :: 0 <= k < |s.calls| && !s.calls[k].pc.Finished?)
    && forall l :: Enabled(c, s, l) ==> l.SetLeader? || l.Begin?
  }

  lemma ReachStart(c: Config)
    ensures Reachable(c, Start(c))
  {
    assert IsRun(c, [Start(c)]);
  }

  lemma ReachStep(c: Config, s: State, l: Label)
    requires Reachable(c, s) && Enabled(c, s, l)
    ensures Reachable(c, Apply(c, s, l))
  {
    hide Enabled, Apply;
    var run :| IsRun(c, run) && run[|run| - 1] == s;
    ExtendRun(c, run, l);
    assert (run + [Apply(c, s, l)])[|run|] == Apply(c, s, l);
  }

  // ---------------------------------------------------------------- when it cannot happen

  /** The call reads with the leader known, and needs no second update. */
  predicate Smooth(leader: Bytes, pc: Pc) {
    && !IsNested(pc)
    && (pc.WantRead? || pc.HoldRead? || pc.Sized? || pc.Ticketed? || pc.Releasing? ==> leader != [])
  }

  ghost predicate AllSmooth(c: Config, s: State) {
    if c.conns == map[] then forall k :: 0 <= k < |s.calls| ==> s.calls[k].pc.Finished?
    else forall k :: 0 <= k < |s.calls| ==> Smooth(s.leader, s.calls[k].pc)
  }

  /** The condition: nothing is ready, or the leader was known when the picker was made and two addresses are ready. */
  predicate NeverWithoutReader(c: Config) {
    c.conns == map[] || (c.leader0 != [] && |c.conns| >= 2)
  }

  lemma LeadersKnown(c: Config, s: State, x: Bytes)
    requires GoodConfig(c) && c.leader0 != [] && HistoryOk(c, s) && x in s.history
    ensures x != []
  {
  }

  lemma SomeReader(c: Config, s: State)
    requires Inv(c, s) && |c.conns| >= 2 && s.leader != []
    ensures s.readers != []
  {
    ReadersEmptyIff(s.readers, c.conns.Keys, s.leader);
    AtMostOne(c.conns.Keys, Address(s.leader));
    assert |c.conns.Keys| == |c.conns|;
  }

  lemma AtMostOne(xs: set<Address>, a: Address)
    ensures xs <= {a} ==> |xs| <= 1
  {
    if xs <= {a} {
      assert xs == {} || xs == {a};
    }
  }

  /** A move of a call that updates the leader and has seen a known one. */
  lemma UpdaterMovedSmooth(c: Config, s: State, k: nat)
    requires Enabled(c, s, Move(k)) && CallOkIn(c, s, s.calls[k]) && Smooth(s.leader, s.calls[k].pc)
    requires UpdatesLeader(s.calls[k].pc)
    requires s.calls[k].pc.Compared? || s.calls[k].pc.Unlocking? ==> s.calls[k].pc.cur != []
    ensures |Apply(c, s, Move(k)).calls| == |s.calls| && Smooth(s.leader, Apply(c, s, Move(k)).calls[k].pc)
  {
    hide TicketIndex, TicketPick, WritePick, NoneBlocks, NoneReads, PickOk, LeaderDuring, WhyOk;
  }

  /** A move of a call that reads with a known leader, so that there is a reader. */
  lemma ReaderMovedSmooth(c: Config, s: State, k: nat)
    requires Enabled(c, s, Move(k)) && Smooth(s.leader, s.calls[k].pc) && !UpdatesLeader(s.calls[k].pc)
    requires s.leader != [] ==> s.readers != []
    ensures |Apply(c, s, Move(k)).calls| == |s.calls| && Smooth(s.leader, Apply(c, s, Move(k)).calls[k].pc)
  {
    hide TicketIndex, TicketPick, WritePick, NoneBlocks, NoneReads;
  }

  lemma SeenIsKnown(c: Config, s: State, call: Call)
    requires GoodConfig(c) && c.leader0 != [] && HistoryOk(c, s) && CallOkIn(c, s, call)
    requires call.pc.Compared? || call.pc.Unlocking?
    ensures call.pc.cur != []
  {
    hide PickOk, HistoryOk;
    assert call.pc.cur in s.history;
    LeadersKnown(c, s, call.pc.cur);
  }

  lemma MoveStaysSmooth(c: Config, s: State, k: nat)
    requires GoodConfig(c) && c.leader0 != [] && c.conns != map[] && |c.conns| >= 2
    requires Inv(c, s) && AllSmooth(c, s) && Enabled(c, s, Move(k))
    ensures AllSmooth(c, Apply(c, s, Move(k)))
  {
    hide ServedOk, Exclusive, CacheAgrees, HistoryOk, CallOkIn, GoodConfig, Apply, Smooth;
    assert CallOkIn(c, s, s.calls[k]) && Smooth(s.leader, s.calls[k].pc);
    if UpdatesLeader(s.calls[k].pc) {
      if s.calls[k].pc.Compared? || s.calls[k].pc.Unlocking? {
        SeenIsKnown(c, s, s.calls[k]);
      }
      UpdaterMovedSmooth(c, s, k);
    } else {
      if s.leader != [] { SomeReader(c, s); }
      ReaderMovedSmooth(c, s, k);
    }
    MoveShares(c, s, k);
  }

  lemma RebuildStaysSmooth(c: Config, s: State, k: nat, order: seq<Address>)
    requires GoodConfig(c) && c.leader0 != [] && c.conns != map[]
    requires Inv(c, s) && AllSmooth(c, s) && Enabled(c, s, Rebuild(k, order))
    ensures AllSmooth(c, Apply(c, s, Rebuild(k, order)))
  {
    hide ServedOk, Exclusive, CacheAgrees, CallOkIn, GoodConfig, IsReaderList, HistoryOk;
    assert Current(s) in s.history;
    LeadersKnown(c, s, Current(s));
    assert Smooth(s.leader, s.calls[k].pc);
  }

  lemma OtherStaysSmooth(c: Config, s: State, l: Label)
    requires AllSmooth(c, s) && Enabled(c, s, l) && (l.SetLeader? || l.Begin?)
    ensures AllSmooth(c, Apply(c, s, l))
  {
  }

  /** With nothing ready every call has ended. */
  lemma NothingMoves(c: Config, s: State, l: Label)
    requires c.conns == map[] && AllSmooth(c, s) && Enabled(c, s, l)
    ensures l.SetLeader? || l.Begin?
  {
  }

  lemma StepStaysSmooth(c: Config, s: State, l: Label)
    requires GoodConfig(c) && NeverWithoutReader(c) && Inv(c, s) && AllSmooth(c, s) && Enabled(c, s, l)
    ensures AllSmooth(c, Apply(c, s, l))
  {
    hide GoodConfig, Inv, AllSmooth, Enabled, Apply;
    if c.conns == map[] {
      NothingMoves(c, s, l);
    }
    match l
    case SetLeader(_) => OtherStaysSmooth(c, s, l);
    case Begin(_) => OtherStaysSmooth(c, s, l);
    case Move(k) => MoveStaysSmooth(c, s, k);
    case Rebuild(k, order) => RebuildStaysSmooth(c, s, k, order);
  }

  lemma NextStaysSmooth(c: Config, s: State, s': State)
    requires GoodConfig(c) && NeverWithoutReader(c) && Inv(c, s) && AllSmooth(c, s) && Next(c, s, s')
    ensures AllSmooth(c, s')
  {
    hide GoodConfig, NeverWithoutReader, Inv, AllSmooth, Enabled, Apply;
    var l :| Enabled(c, s, l) && s' == Apply(c, s, l);
    StepStaysSmooth(c, s, l);
  }

  lemma {:induction false} RunStaysSmooth(c: Config, run: seq<State>)
    requires GoodConfig(c) && NeverWithoutReader(c) && IsRun(c, run)
    ensures AllSmooth(c, run[|run| - 1])
  {
    hide GoodConfig, NeverWithoutReader, Inv, AllSmooth, Next, Start;
    if |run| == 1 {
      StartIsSmooth(c);
    } else {
      var front := run[..|run| - 1];
      RunFront(c, run);
      RunStaysSmooth(c, front);
      RunOk(c, front);
      NextStaysSmooth(c, run[|run| - 2], run[|run| - 1]);
    }
  }

  lemma StartIsSmooth(c: Config)
    ensures AllSmooth(c, Start(c))
  {
  }

  /** Any ready set can be listed without the leader. */
  lemma {:induction false} ReaderListExists(ready: set<Address>, leader: Bytes) returns (order: seq<Address>)
    ensures IsReaderList(order, ready, leader)
    decreases |ready|
  {
    if ready == {} {
      order := [];
    } else {
      var a :| a in ready;
      order := ReaderListExists(ready - {a}, leader);
      if a.addr != leader {
        order := order + [a];
      }
    }
  }

  /** Without nested updates some call can move, as long as one is under way. */
  lemma SmoothIsNotStuck(c: Config, s: State)
    requires Inv(c, s) && forall k :: 0 <= k < |s.calls| ==> !IsNested(s.calls[k].pc)
    ensures !Stuck(c, s)
  {
    hide CallOk, ServedOk, CacheAgrees, IsReaderList, TicketIndex;
    if k :| 0 <= k < |s.calls| && HoldsWrite(s.calls[k].pc) {
      if s.calls[k].pc.Locked? && s.leader != Current(s) {
        var order := ReaderListExists(c.conns.Keys, Current(s));
        assert Enabled(c, s, Rebuild(k, order));
      } else {
        assert Enabled(c, s, Move(k));
      }
    } else if k :| 0 <= k < |s.calls| && HoldsRead(s.calls[k].pc) {
      assert Enabled(c, s, Move(k));
    } else if k :| 0 <= k < |s.calls| && s.calls[k].pc.Pending? {
      assert Enabled(c, s, Move(k));
    } else if k :| 0 <= k < |s.calls| && !s.calls[k].pc.Finished? {
      assert NoneBlocks(s);
      assert Enabled(c, s, Move(k));
    }
  }

  // ---------------------------------------------------------------- when it can happen

  /** The state with one call under way, which began at `start`. */
  function OneRead(history: seq<Bytes>, pc: Pc): State {
    State(history, [], [], 0, 0, map[], [Call(true, 0, pc)])
  }

  lemma ReachOne(c: Config, history: seq<Bytes>, pc: Pc, pc': Pc)
    requires Reachable(c, OneRead(history, pc)) && Enabled(c, OneRead(history, pc), Move(0))
    requires Apply(c, OneRead(history, pc), Move(0)) == OneRead(history, pc')
    ensures Reachable(c, OneRead(history, pc'))
  {
    hide Reachable, Enabled, Apply;
    ReachStep(c, OneRead(history, pc), Move(0));
  }

  /** A first read finds the leader unchanged, and reads. */
  lemma OneReadReads(c: Config)
    requires c.conns != map[] && c.leader0 == []
    ensures Reachable(c, OneRead([[]], WantRead))
  {
    hide Reachable;
    ReachStart(c);
    ReachStep(c, Start(c), Begin(true));
    var h := [[]];
    assert Apply(c, Start(c), Begin(true)) == OneRead(h, WantCmp(First));
    ReachOne(c, h, WantCmp(First), InCmp(First));
    ReachOne(c, h, InCmp(First), Compared(First, true, []));
    ReachOne(c, h, Compared(First, true, []), WantRead);
  }

  /** When the leader becomes known just as it updates again without a reader, it wants the write lock. */
  lemma OneReadWaits(c: Config, x: Bytes)
    requires c.conns != map[] && c.leader0 == [] && x in c.endpoints && x != []
    ensures Reachable(c, OneRead([[], x], Pending(Nested)))
  {
    hide Reachable;
    OneReadIsNested(c);
    var h := [[], x];
    ReachStep(c, OneRead([[]], WantCmp(Nested)), SetLeader(x));
    assert Apply(c, OneRead([[]], WantCmp(Nested)), SetLeader(x)) == OneRead(h, WantCmp(Nested));
    ReachOne(c, h, WantCmp(Nested), InCmp(Nested));
    ReachOne(c, h, InCmp(Nested), Compared(Nested, false, x));
    ReachOne(c, h, Compared(Nested, false, x), WantLock(Nested));
    ReachOne(c, h, WantLock(Nested), Pending(Nested));
  }

  lemma OneReadIsNested(c: Config)
    requires c.conns != map[] && c.leader0 == []
    ensures Reachable(c, OneRead([[]], WantCmp(Nested)))
  {
    hide Reachable;
    OneReadReads(c);
    ReachOne(c, [[]], WantRead, HoldRead);
    ReachOne(c, [[]], HoldRead, WantCmp(Nested));
  }

  /** With the leader unknown at first, one read is enough: it compares twice, and the leader becomes known between. */
  lemma OneReadGetsStuck(c: Config, x: Bytes) returns (s: State)
    requires GoodConfig(c) && c.conns != map[] && c.leader0 == [] && x in c.endpoints
    ensures Reachable(c, s) && Stuck(c, s)
  {
    hide Reachable, IsReaderList;
    OneReadWaits(c, x);
    s := OneRead([[], x], Pending(Nested));
    assert !s.calls[0].pc.Finished?;
    assert HoldsRead(s.calls[0].pc);
  }

  /** The state with two reads under way. */
  function TwoReads(history: seq<Bytes>, leader: Bytes, pc: Pc, qc: Pc): State {
    State(history, leader, [], 0, 0, map[], [Call(true, 1, pc), Call(true, 1, qc)])
  }

  lemma ReachFirst(c: Config, h: seq<Bytes>, leader: Bytes, pc: Pc, qc: Pc, pc': Pc)
    requires Reachable(c, TwoReads(h, leader, pc, qc)) && Enabled(c, TwoReads(h, leader, pc, qc), Move(0))
    requires Apply(c, TwoReads(h, leader, pc, qc), Move(0)) == TwoReads(h, leader, pc', qc)
    ensures Reachable(c, TwoReads(h, leader, pc', qc))
  {
    hide Reachable, Enabled, Apply;
    ReachStep(c, TwoReads(h, leader, pc, qc), Move(0));
  }

  lemma ReachSecond(c: Config, h: seq<Bytes>, leader: Bytes, pc: Pc, qc: Pc, qc': Pc)
    requires Reachable(c, TwoReads(h, leader, pc, qc)) && Enabled(c, TwoReads(h, leader, pc, qc), Move(1))
    requires Apply(c, TwoReads(h, leader, pc, qc), Move(1)) == TwoReads(h, leader, pc, qc')
    ensures Reachable(c, TwoReads(h, leader, pc, qc'))
  {
    hide Reachable, Enabled, Apply;
    ReachStep(c, TwoReads(h, leader, pc, qc), Move(1));
  }

  /** Two reads begin after the leader has changed. */
  lemma TwoReadsBegin(c: Config, a: Bytes)
    requires c.conns != map[] && a in c.endpoints
    ensures Reachable(c, TwoReads([c.leader0, a], [], WantCmp(First), WantCmp(First)))
  {
    hide Reachable;
    var h := [c.leader0, a];
    ReachStart(c);
    ReachStep(c, Start(c), SetLeader(a));
    var s1 := State(h, [], [], 0, 0, map[], []);
    assert Apply(c, Start(c), SetLeader(a)) == s1;
    ReachStep(c, s1, Begin(true));
    var s2 := s1.(calls := [Call(true, 1, WantCmp(First))]);
    assert Apply(c, s1, Begin(true)) == s2;
    ReachStep(c, s2, Begin(true));
    assert Apply(c, s2, Begin(true)) == TwoReads(h, [], WantCmp(First), WantCmp(First));
  }

  /** Two reads that both found the leader changed wait for the lock. */
  lemma TwoReadsWait(c: Config, a: Bytes)
    requires c.conns != map[] && a in c.endpoints && a != []
    ensures Reachable(c, TwoReads([c.leader0, a], [], WantLock(First), WantLock(First)))
  {
    hide Reachable;
    var h := [c.leader0, a];
    TwoReadsBegin(c, a);
    ReachFirst(c, h, [], WantCmp(First), WantCmp(First), InCmp(First));
    ReachFirst(c, h, [], InCmp(First), WantCmp(First), Compared(First, false, a));
    ReachFirst(c, h, [], Compared(First, false, a), WantCmp(First), WantLock(First));
    ReachSecond(c, h, [], WantLock(First), WantCmp(First), InCmp(First));
    ReachSecond(c, h, [], WantLock(First), InCmp(First), Compared(First, false, a));
    ReachSecond(c, h, [], WantLock(First), Compared(First, false, a), WantLock(First));
  }

  /** With one ready address, the first read rebuilds the list, which has no reader, and updates again under its read
      lock. */
  lemma FirstReadIsNested(c: Config, a: Bytes)
    requires GoodConfig(c) && c.conns.Keys == {Address(a)} && c.leader0 != []
    ensures Reachable(c, TwoReads([c.leader0, a], a, WantCmp(Nested), WantLock(First)))
  {
    hide Reachable;
    var h := [c.leader0, a];
    assert Address(a) in c.conns && a in c.endpoints && a != [];
    TwoReadsWait(c, a);
    ReachFirst(c, h, [], WantLock(First), WantLock(First), Pending(First));
    ReachFirst(c, h, [], Pending(First), WantLock(First), Locked(First));
    ReachStep(c, TwoReads(h, [], Locked(First), WantLock(First)), Rebuild(0, []));
    assert Apply(c, TwoReads(h, [], Locked(First), WantLock(First)), Rebuild(0, []))
        == TwoReads(h, a, Unlocking(First, a), WantLock(First));
    ReachFirst(c, h, a, Unlocking(First, a), WantLock(First), WantRead);
    ReachFirst(c, h, a, WantRead, WantLock(First), HoldRead);
    ReachFirst(c, h, a, HoldRead, WantLock(First), WantCmp(Nested));
  }

  /** Just then the second read asks for the write lock: each waits for the other. */
  lemma TwoReadsGetStuck(c: Config, a: Bytes) returns (s: State)
    requires GoodConfig(c) && c.conns.Keys == {Address(a)} && c.leader0 != []
    ensures Reachable(c, s) && Stuck(c, s)
  {
    hide Reachable, IsReaderList;
    var h := [c.leader0, a];
    FirstReadIsNested(c, a);
    ReachSecond(c, h, a, WantCmp(Nested), WantLock(First), Pending(First));
    s := TwoReads(h, a, WantCmp(Nested), Pending(First));
    assert !s.calls[0].pc.Finished?;
    assert HoldsRead(s.calls[0].pc) && Blocks(s.calls[1].pc);
  }

  /** No interleaving of picks can get stuck if and only if nothing is ready, or the leader was known when the picker
      was made and at least two addresses are ready. */
  lemma DeadlockFreeIff(c: Config)
    requires GoodConfig(c)
    ensures (forall s | Reachable(c, s) :: !Stuck(c, s)) <==> NeverWithoutReader(c)
  {
    if NeverWithoutReader(c) {
      forall s | Reachable(c, s) ensures !Stuck(c, s) {
        var run :| IsRun(c, run) && run[|run| - 1] == s;
        RunOk(c, run);
        RunStaysSmooth(c, run);
        SmoothIsNotStuck(c, s);
      }
    } else if c.leader0 == [] {
      var x :| x in c.endpoints;
      var s := OneReadGetsStuck(c, x);
    } else {
      var a :| a in c.conns;
      AllThereIs(c.conns.Keys, a);
      var s := TwoReadsGetStuck(c, a.addr);
    }
  }

  lemma AllThereIs(xs: set<Address>, a: Address)
    requires a in xs && |xs| < 2
    ensures xs == {a}
  {
    assert xs == (xs - {a}) + {a};
  }
}
