/** The tickets of picks that run at once: none is lost or drawn twice, and any number of reads hold the lock together
    (client/balancer/picker/rw_separated.go). */
module PickerTickets {
  import opened MachineInts
  import opened Tickets
  import opened Picker
  import opened PickerSteps

  // ---------------------------------------------------------------- every ticket is accounted for

  predicate HasTicket(call: Call, t: nat) {
    call.pc.Ticketed? && call.pc.t == t
  }

  /** The ticket was served, or a read still holds it; from 2^63 on it may have ended in a panic. */
  predicate Accounted(s: State, t: nat) {
    t in s.served || t >= TWO_63 || exists k :: 0 <= k < |s.calls| && HasTicket(s.calls[k], t)
  }

  /** A ticket in hand is drawn, not yet served, and nobody else's. */
  predicate OnlyHolder(s: State, k: nat)
    requires k < |s.calls|
  {
    s.calls[k].pc.Ticketed? ==>
      var t := s.calls[k].pc.t;
      t < s.next && t !in s.served && forall j :: 0 <= j < |s.calls| && j != k ==> !HasTicket(s.calls[j], t)
  }

  ghost predicate TicketsOk(s: State) {
    && (forall t: nat | t < s.next :: Accounted(s, t))
    && (forall t | t in s.served :: t < s.next)
    && (forall k | 0 <= k < |s.calls| :: OnlyHolder(s, k))
  }

  /** A ticket below 2^63 is served when its read uses it. */
  lemma EarlyTicketIsServed(c: Config, s: State, k: nat)
    requires GoodConfig(c) && Inv(c, s) && Enabled(c, s, Move(k)) && s.calls[k].pc.Ticketed?
    ensures var t := s.calls[k].pc.t; t in Apply(c, s, Move(k)).served || t >= TWO_63
  {
    hide HistoryOk, Exclusive, ServedOk, TicketIndex;
    assert CallOkIn(c, s, s.calls[k]);
    var l, t := s.calls[k].pc.l, s.calls[k].pc.t;
    if t < TWO_63 {
      IndexInRangeIff(t, l);
      ReaderIsOther(c, s, s.calls[k].start, TicketIndex(t, l));
    }
  }

  /** What becomes of the tickets in one step of a read that holds one. */
  lemma TicketUsed(c: Config, s: State, k: nat)
    requires GoodConfig(c) && Inv(c, s) && TicketsOk(s) && Enabled(c, s, Move(k)) && s.calls[k].pc.Ticketed?
    ensures TicketsOk(Apply(c, s, Move(k)))
  {
    hide Inv, GoodConfig, TicketPick, NoneBlocks, NoneReads;
    EarlyTicketIsServed(c, s, k);
    var s', t := Apply(c, s, Move(k)), s.calls[k].pc.t;
    assert OnlyHolder(s, k);
    forall u: nat | u < s'.next ensures Accounted(s', u) {
      assert Accounted(s, u);
      if j :| 0 <= j < |s.calls| && HasTicket(s.calls[j], u) && j != k {
        assert HasTicket(s'.calls[j], u);
      }
    }
    forall j | 0 <= j < |s'.calls| ensures OnlyHolder(s', j) {
      assert OnlyHolder(s, j);
    }
  }

  lemma TicketDrawn(c: Config, s: State, k: nat)
    requires TicketsOk(s) && Enabled(c, s, Move(k)) && s.calls[k].pc.Sized?
    ensures TicketsOk(Apply(c, s, Move(k)))
  {
    hide NoneBlocks, NoneReads, TicketPick, WritePick;
    var s' := Apply(c, s, Move(k));
    assert HasTicket(s'.calls[k], s.next);
    forall u: nat | u < s'.next ensures Accounted(s', u) {
      if u < s.next {
        assert Accounted(s, u);
        if j :| 0 <= j < |s.calls| && HasTicket(s.calls[j], u) {
          assert HasTicket(s'.calls[j], u);
        }
      }
    }
    forall j | 0 <= j < |s'.calls| ensures OnlyHolder(s', j) {
      assert OnlyHolder(s, j);
      forall i | 0 <= i < |s.calls| ensures !HasTicket(s.calls[i], s.next) {
        assert OnlyHolder(s, i);
      }
    }
  }

  /** A step that neither draws nor uses a ticket. */
  predicate LeavesTickets(s: State, s': State) {
    && s'.next == s.next && s'.served == s.served && |s.calls| <= |s'.calls|
    && (forall j :: 0 <= j < |s.calls| ==>
          s'.calls[j] == s.calls[j] || (!s.calls[j].pc.Ticketed? && !s'.calls[j].pc.Ticketed?))
    && (forall j :: |s.calls| <= j < |s'.calls| ==> !s'.calls[j].pc.Ticketed?)
  }

  lemma TicketsLeft(s: State, s': State)
    requires TicketsOk(s) && LeavesTickets(s, s')
    ensures TicketsOk(s')
  {
    forall u: nat | u < s'.next ensures Accounted(s', u) {
      assert Accounted(s, u);
      if j :| 0 <= j < |s.calls| && HasTicket(s.calls[j], u) {
        assert HasTicket(s'.calls[j], u);
      }
    }
    forall j | 0 <= j < |s'.calls| ensures OnlyHolder(s', j) {
      if j < |s.calls| { assert OnlyHolder(s, j); }
    }
  }

  lemma MoveLeaves(c: Config, s: State, k: nat)
    requires Enabled(c, s, Move(k)) && !s.calls[k].pc.Ticketed? && !s.calls[k].pc.Sized?
    ensures LeavesTickets(s, Apply(c, s, Move(k)))
  {
    hide WritePick, NoneBlocks, NoneReads;
  }

  lemma OtherLeaves(c: Config, s: State, l: Label)
    requires Enabled(c, s, l) && !l.Move?
    ensures LeavesTickets(s, Apply(c, s, l))
  {
    hide IsReaderList;
  }

  lemma TicketsStep(c: Config, s: State, l: Label)
    requires GoodConfig(c) && Inv(c, s) && TicketsOk(s) && Enabled(c, s, l)
    ensures TicketsOk(Apply(c, s, l))
  {
    hide GoodConfig, Inv, TicketsOk, Apply, LeavesTickets;
    if l.Move? && s.calls[l.k].pc.Ticketed? {
      TicketUsed(c, s, l.k);
    } else if l.Move? && s.calls[l.k].pc.Sized? {
      TicketDrawn(c, s, l.k);
    } else if l.Move? {
      MoveLeaves(c, s, l.k);
      TicketsLeft(s, Apply(c, s, l));
    } else {
      OtherLeaves(c, s, l);
      TicketsLeft(s, Apply(c, s, l));
    }
  }

  lemma {:induction false} RunTicketsOk(c: Config, run: seq<State>)
    requires GoodConfig(c) && IsRun(c, run)
    ensures TicketsOk(run[|run| - 1])
  {
    hide GoodConfig, Inv, TicketsOk, Apply, Enabled, Start;
    if |run| == 1 {
      StartTicketsOk(c);
    } else {
      var s, front := run[|run| - 2], run[..|run| - 1];
      RunFront(c, run);
      RunTicketsOk(c, front);
      RunOk(c, front);
      var l :| Enabled(c, s, l) && run[|run| - 1] == Apply(c, s, l);
      TicketsStep(c, s, l);
    }
  }

  lemma StartTicketsOk(c: Config)
    ensures TicketsOk(Start(c))
  {
  }

  /** In every run each ticket drawn before the counter wraps has been served or is in the hand of exactly one read, and
      no other ticket is. */
  lemma NoTicketIsLost(c: Config, run: seq<State>, t: nat)
    requires GoodConfig(c) && IsRun(c, run) && t < TWO_63
    ensures var s := run[|run| - 1];
      && (t < s.next <==> t in s.served || exists k :: 0 <= k < |s.calls| && HasTicket(s.calls[k], t))
      && (forall k :: 0 <= k < |s.calls| && HasTicket(s.calls[k], t) ==> t !in s.served)
      && (forall j, k :: 0 <= j < k < |s.calls| && HasTicket(s.calls[j], t) ==> !HasTicket(s.calls[k], t))
  {
    hide GoodConfig, Next;
    RunTicketsOk(c, run);
    var s := run[|run| - 1];
    forall k | 0 <= k < |s.calls| && HasTicket(s.calls[k], t)
      ensures t < s.next && t !in s.served && forall j :: 0 <= j < |s.calls| && j != k ==> !HasTicket(s.calls[j], t)
    {
      assert OnlyHolder(s, k);
    }
    assert t < s.next ==> Accounted(s, t);
  }

  // ---------------------------------------------------------------- reads share the lock

  /** `n` reads, of which the first `m` are at `after` and the others at `before`. */
  function Reads(n: nat, m: nat, before: Pc, after: Pc): State {
    State([[]], [], [], 0, 0, map[], seq(n, i => Call(true, 0, if i < m then after else before)))
  }

  lemma {:induction false} AllMove(c: Config, run: seq<State>, n: nat, m: nat, before: Pc, after: Pc)
    returns (whole: seq<State>)
    requires IsRun(c, run) && m <= n && run[|run| - 1] == Reads(n, m, before, after)
    requires forall j: nat | j < n ::
      Enabled(c, Reads(n, j, before, after), Move(j))
      && Apply(c, Reads(n, j, before, after), Move(j)) == Reads(n, j + 1, before, after)
    ensures IsRun(c, whole) && whole[|whole| - 1] == Reads(n, 0, after, after)
    decreases n - m
  {
    hide Next, Enabled, Apply, Start;
    if m == n {
      assert Reads(n, n, before, after) == Reads(n, 0, after, after);
      whole := run;
    } else {
      ExtendRun(c, run, Move(m));
      whole := AllMove(c, run + [Reads(n, m + 1, before, after)], n, m + 1, before, after);
    }
  }

  /** One read's step does not depend on the others, as long as nobody writes. */
  lemma OneMoves(c: Config, n: nat, j: nat, before: Pc, after: Pc)
    requires j < n && c.conns != map[]
    requires (before == WantCmp(First) && after == InCmp(First))
          || (before == InCmp(First) && after == Compared(First, true, []))
          || (before == Compared(First, true, []) && after == WantRead)
          || (before == WantRead && after == HoldRead)
    ensures Enabled(c, Reads(n, j, before, after), Move(j))
    ensures Apply(c, Reads(n, j, before, after), Move(j)) == Reads(n, j + 1, before, after)
  {
    var s := Reads(n, j, before, after);
    assert s.calls[j].pc == before;
    assert NoneBlocks(s);
    assert s.calls[j := Call(true, 0, after)] == Reads(n, j + 1, before, after).calls;
  }

  lemma Stage(c: Config, run: seq<State>, n: nat, before: Pc, after: Pc) returns (whole: seq<State>)
    requires IsRun(c, run) && run[|run| - 1] == Reads(n, 0, before, before) && c.conns != map[]
    requires (before == WantCmp(First) && after == InCmp(First))
          || (before == InCmp(First) && after == Compared(First, true, []))
          || (before == Compared(First, true, []) && after == WantRead)
          || (before == WantRead && after == HoldRead)
    ensures IsRun(c, whole) && whole[|whole| - 1] == Reads(n, 0, after, after)
  {
    hide IsRun, Enabled, Apply;
    assert Reads(n, 0, before, after) == Reads(n, 0, before, before);
    forall j: nat | j < n
      ensures Enabled(c, Reads(n, j, before, after), Move(j))
      ensures Apply(c, Reads(n, j, before, after), Move(j)) == Reads(n, j + 1, before, after)
    {
      OneMoves(c, n, j, before, after);
    }
    whole := AllMove(c, run, n, 0, before, after);
  }

  lemma {:induction false} AllBegin(c: Config, n: nat) returns (run: seq<State>)
    requires c.conns != map[] && c.leader0 == []
    ensures IsRun(c, run) && run[|run| - 1] == Reads(n, 0, WantCmp(First), WantCmp(First))
  {
    hide Next;
    if n == 0 {
      run := [Start(c)];
    } else {
      var before := AllBegin(c, n - 1);
      var s := Reads(n - 1, 0, WantCmp(First), WantCmp(First));
      assert s.calls + [Call(true, 0, WantCmp(First))] == Reads(n, 0, WantCmp(First), WantCmp(First)).calls;
      ExtendRun(c, before, Begin(true));
      run := before + [Apply(c, s, Begin(true))];
    }
  }

  /** Any number of reads can hold the lock at the same time: a picker that was made without a known leader can get to a
      state in which all of `n` reads are past the lock of pickReader. */
  lemma ReadsShareTheLock(c: Config, n: nat) returns (run: seq<State>)
    requires c.conns != map[] && c.leader0 == []
    ensures IsRun(c, run) && |run[|run| - 1].calls| == n
    ensures var calls := run[|run| - 1].calls; forall k :: 0 <= k < n ==> calls[k].pc == HoldRead
  {
    hide IsRun, Start;
    run := AllBegin(c, n);
    run := Stage(c, run, n, WantCmp(First), InCmp(First));
    run := Stage(c, run, n, InCmp(First), Compared(First, true, []));
    run := Stage(c, run, n, Compared(First, true, []), WantRead);
    run := Stage(c, run, n, WantRead, HoldRead);
    assert run != [] by { RunIsThere(c, run); }
  }

  lemma RunIsThere(c: Config, run: seq<State>)
    requires IsRun(c, run)
    ensures run != []
  {
  }

  /** One pick at a time and many at once count alike: the read of number `t` picks, in turn, by its ticket. */
  lemma TurnIsTicket(conns: map<Address, SubConn>, readers: seq<Address>, t: nat, pick: Pick)
    requires readers != [] && forall i :: 0 <= i < |readers| ==> readers[i] in conns
    ensures PicksInTurn(conns, readers, Wrap64(t), pick) <==>
      var i := TicketIndex(t, |readers|);
      pick == if 0 <= i < |readers| then Picked(conns[readers[i]], readers[i].addr) else IndexOutOfRange
  {
    WrapUndone(t);
    IndexBelow(t, |readers|);
  }
}
