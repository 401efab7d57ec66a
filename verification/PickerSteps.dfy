/** Picks that run at the same time, step by step: the read-write lock, the shared ticket counter, and the leader
    changing under way (client/balancer/picker/rw_separated.go). */
module PickerSteps {
  import opened ByteStrings
  import opened MachineInts
  import opened Tickets
  import opened Picker

  /** `raw` is the connection map by address string, `endpoints` what the record's leader can become. */
  datatype Config =
    Config(conns: map<Address, SubConn>, raw: map<Bytes, SubConn>, endpoints: set<Bytes>, leader0: Bytes)

  ghost predicate GoodConfig(c: Config) {
    && IsRawMap(c.raw, c.conns)
    && [] !in c.endpoints && c.endpoints != {}
    && (forall s :: s in c.raw ==> s in c.endpoints)
    && (c.leader0 == [] || c.leader0 in c.endpoints)
  }

  /** Why a call updates the leader: to write, first thing in a read, or inside a read that found no reader. */
  datatype Why = ForWrite | First | Nested

  /** Where a call is. `InCmp` and `Compared` hold the lock for reading in compareLeader, `Pending` has announced
      itself to the lock, `Locked` and `Unlocking` hold it for writing, `HoldRead` up to `Releasing` hold it for
      reading in pickReader, as do all the steps of a nested update. */
  datatype Pc =
    | WantCmp(why: Why) | InCmp(why: Why) | Compared(why: Why, equal: bool, cur: Bytes)
    | WantLock(why: Why) | Pending(why: Why) | Locked(why: Why) | Unlocking(why: Why, cur: Bytes)
    | Lookup(why: Why, cur: Bytes)
    | WantRead | HoldRead | Sized(l: nat) | Ticketed(l: nat, t: nat) | Releasing(pick: Pick) | Finished(pick: Pick)

  /** `start` is when the call began, as a position in the leader's history. */
  datatype Call = Call(read: bool, start: nat, pc: Pc)

  /** `history` is every leader the record has had, the last being the current one. `next` counts the tickets drawn,
      `epoch` is its value at the last rebuild of the reader list, `served` is where tickets went. */
  datatype State = State(
    history: seq<Bytes>, leader: Bytes, readers: seq<Address>, next: nat, epoch: nat, served: map<nat, Bytes>,
    calls: seq<Call>)

  datatype Label = SetLeader(x: Bytes) | Begin(read: bool) | Move(k: nat) | Rebuild(k: nat, order: seq<Address>)

  function Start(c: Config): State {
    State([c.leader0], [], [], 0, 0, map[], [])
  }

  predicate UpdatesLeader(pc: Pc) {
    || pc.WantCmp? || pc.InCmp? || pc.Compared?
    || pc.WantLock? || pc.Pending? || pc.Locked? || pc.Unlocking? || pc.Lookup?
  }

  /** In an update inside a read that found no reader. */
  predicate IsNested(pc: Pc) {
    UpdatesLeader(pc) && pc.why == Nested
  }

  predicate HoldsRead(pc: Pc) {
    || pc.InCmp? || pc.Compared? || pc.HoldRead? || pc.Sized? || pc.Ticketed? || pc.Releasing?
    || IsNested(pc)
  }

  predicate HoldsWrite(pc: Pc) {
    pc.Locked? || pc.Unlocking?
  }

  /** A writer holds the lock or is waiting for it; no one new may read. */
  predicate Blocks(pc: Pc) {
    pc.Pending? || HoldsWrite(pc)
  }

  predicate NoneBlocks(s: State) {
    forall k :: 0 <= k < |s.calls| ==> !Blocks(s.calls[k].pc)
  }

  predicate NoneReads(s: State) {
    forall k :: 0 <= k < |s.calls| ==> !HoldsRead(s.calls[k].pc)
  }

  function Current(s: State): Bytes
    requires s.history != []
  {
    s.history[|s.history| - 1]
  }

  ghost predicate Enabled(c: Config, s: State, l: Label) {
    s.history != [] &&
    match l
    case SetLeader(x) => x in c.endpoints
    case Begin(_) => true
    case Move(k) =>
      k < |s.calls| &&
      (match s.calls[k].pc
       case WantCmp(_) => NoneBlocks(s)
       case WantLock(_) => NoneBlocks(s)
       case WantRead => NoneBlocks(s)
       case Pending(_) => NoneReads(s)
       case Locked(_) => s.leader == Current(s)
       case Finished(_) => false
       case _ => true)
    case Rebuild(k, order) =>
      k < |s.calls| && s.calls[k].pc.Locked? && s.leader != Current(s)
      && IsReaderList(order, c.conns.Keys, Current(s))
  }

  /** Where a call goes on after its update of the leader. */
  function Updated(why: Why, cur: Bytes): Pc {
    if why == First then WantRead else Lookup(why, cur)
  }

  /** What a ticket picks from the list as it is now. A zero divisor and an index out of range on either side panic. */
  function TicketPick(c: Config, s: State, l: nat, t: nat): Pick {
    if l == 0 || TicketIndex(t, l) < 0 || TicketIndex(t, l) >= |s.readers| then IndexOutOfRange
    else WritePick(c.raw, s.readers[TicketIndex(t, l)].addr)
  }

  function At(s: State, k: nat, pc: Pc): State
    requires k < |s.calls|
  {
    s.(calls := s.calls[k := s.calls[k].(pc := pc)])
  }

  ghost function Apply(c: Config, s: State, l: Label): State
    requires Enabled(c, s, l)
  {
    match l
    case SetLeader(x) => s.(history := s.history + [x])
    case Begin(read) =>
      var pc := if c.conns == map[] then Finished(NoSubConnAvailable) else WantCmp(if read then First else ForWrite);
      s.(calls := s.calls + [Call(read, |s.history| - 1, pc)])
    case Move(k) =>
      (match s.calls[k].pc
       case WantCmp(why) => At(s, k, InCmp(why))
       case InCmp(why) => At(s, k, Compared(why, Current(s) == s.leader, Current(s)))
       case Compared(why, equal, cur) => At(s, k, if equal then Updated(why, cur) else WantLock(why))
       case WantLock(why) => At(s, k, Pending(why))
       case Pending(why) => At(s, k, Locked(why))
       case Locked(why) => At(s, k, Unlocking(why, Current(s)))
       case Unlocking(why, cur) => At(s, k, Updated(why, cur))
       case Lookup(why, cur) =>
         var pick := WritePick(c.raw, cur);
         At(s, k, if why == Nested then Releasing(pick) else Finished(pick))
       case WantRead => At(s, k, HoldRead)
       case HoldRead => At(s, k, if |s.readers| < 1 then WantCmp(Nested) else Sized(|s.readers|))
       case Sized(l) => At(s, k, Ticketed(l, s.next)).(next := s.next + 1)
       case Ticketed(l, t) =>
         var pick := TicketPick(c, s, l, t);
         At(s, k, Releasing(pick)).(served := if pick.Picked? then s.served[t := pick.addr] else s.served)
       case Releasing(pick) => At(s, k, Finished(pick))
       case Finished(pick) => s)
    case Rebuild(k, order) =>
      At(s, k, Unlocking(s.calls[k].pc.why, Current(s)))
        .(leader := Current(s), readers := order, epoch := s.next)
  }

  ghost predicate Next(c: Config, s: State, s': State) {
    exists l :: Enabled(c, s, l) && s' == Apply(c, s, l)
  }

  ghost predicate IsRun(c: Config, run: seq<State>) {
    && run != []
    && run[0] == Start(c)
    && forall k :: 0 < k < |run| ==> Next(c, run[k - 1], run[k])
  }

  // ---------------------------------------------------------------- what holds in every state

  /** `x` was the leader at some moment since the call began. */
  predicate LeaderDuring(history: seq<Bytes>, start: nat, x: Bytes) {
    start < |history| && x in history[start..]
  }

  /** Some other address than `x` was the leader, or none was, at some moment since the call began. */
  predicate OtherLeaderDuring(history: seq<Bytes>, start: nat, x: Bytes) {
    exists i :: start <= i < |history| && history[i] != x
  }

  /** Some leader since the call began has no connection. */
  ghost predicate UnreachableDuring(c: Config, history: seq<Bytes>, start: nat) {
    exists x :: LeaderDuring(history, start, x) && x !in c.raw
  }

  /** At some moment since the call began no leader was known, or the leader was the only ready address. */
  ghost predicate NoReaderDuring(c: Config, history: seq<Bytes>, start: nat) {
    exists x :: LeaderDuring(history, start, x) && (x == [] || c.conns.Keys == {Address(x)})
  }

  /** What a finished pick may be. An error needs a reason: nothing is ready, or a leader without a connection, and for
      a read besides that no reader; a panic needs a counter that has wrapped. */
  ghost predicate PickOk(c: Config, history: seq<Bytes>, next: nat, call: Call, pick: Pick) {
    match pick
    case Picked(sc, a) =>
      && a in c.raw && sc == c.raw[a]
      && (!call.read ==> LeaderDuring(history, call.start, a))
      && (call.read ==> OtherLeaderDuring(history, call.start, a) || c.conns.Keys == {Address(a)})
    case NoSubConnAvailable =>
      || c.conns == map[]
      || (UnreachableDuring(c, history, call.start) && (call.read ==> NoReaderDuring(c, history, call.start)))
    case IndexOutOfRange => call.read && next > TWO_63
  }

  /** A nested update belongs to a read that has seen an empty reader list, and holds the lock so that it stays. */
  predicate WhyOk(history: seq<Bytes>, leader: Bytes, readers: seq<Address>, call: Call, why: Why) {
    && (call.read <==> why != ForWrite)
    && (why == Nested ==> readers == [] && LeaderDuring(history, call.start, leader))
  }

  /** What a call knows about the shared state; the cached leader and readers only while it holds the lock. */
  ghost predicate CallOk(
    c: Config, history: seq<Bytes>, leader: Bytes, readers: seq<Address>, next: nat, epoch: nat, call: Call)
  {
    && call.start < |history|
    && match call.pc
       case WantCmp(why) => WhyOk(history, leader, readers, call, why)
       case InCmp(why) => WhyOk(history, leader, readers, call, why)
       case Compared(why, equal, cur) =>
         && WhyOk(history, leader, readers, call, why)
         && LeaderDuring(history, call.start, cur)
         && (equal ==> cur == leader)
       case WantLock(why) => WhyOk(history, leader, readers, call, why)
       case Pending(why) => WhyOk(history, leader, readers, call, why)
       case Locked(why) => WhyOk(history, leader, readers, call, why)
       case Unlocking(why, cur) =>
         WhyOk(history, leader, readers, call, why) && LeaderDuring(history, call.start, cur) && cur == leader
       case Lookup(why, cur) =>
         why != First && WhyOk(history, leader, readers, call, why) && LeaderDuring(history, call.start, cur)
       case WantRead => call.read && LeaderDuring(history, call.start, leader)
       case HoldRead => call.read && LeaderDuring(history, call.start, leader)
       case Sized(l) => call.read && LeaderDuring(history, call.start, leader) && l == |readers| > 0
       case Ticketed(l, t) =>
         call.read && LeaderDuring(history, call.start, leader) && l == |readers| > 0 && epoch <= t < next
       case Releasing(pick) => call.read && PickOk(c, history, next, call, pick)
       case Finished(pick) => PickOk(c, history, next, call, pick)
  }

  ghost predicate CallOkIn(c: Config, s: State, call: Call) {
    CallOk(c, s.history, s.leader, s.readers, s.next, s.epoch, call)
  }

  /** The lock's promise. */
  predicate Exclusive(calls: seq<Call>) {
    && (forall j, k :: 0 <= j < |calls| && 0 <= k < |calls| && j != k && Blocks(calls[j].pc) ==> !Blocks(calls[k].pc))
    && (forall j, k :: 0 <= j < |calls| && 0 <= k < |calls| && HoldsWrite(calls[j].pc) ==> !HoldsRead(calls[k].pc))
  }

  /** Ticket `t` went to the reader that its number says. */
  predicate ServedAt(readers: seq<Address>, t: nat, addr: Bytes) {
    && readers != []
    && 0 <= TicketIndex(t, |readers|) < |readers|
    && addr == readers[TicketIndex(t, |readers|)].addr
  }

  /** Where the tickets drawn since the last rebuild went. */
  predicate ServedOk(s: State) {
    forall t :: t in s.served ==> t < s.next && (s.epoch <= t ==> ServedAt(s.readers, t, s.served[t]))
  }

  predicate HistoryOk(c: Config, s: State) {
    && s.history != [] && s.history[0] == c.leader0
    && (forall i :: 0 < i < |s.history| ==> s.history[i] in c.endpoints)
    && (s.leader == [] || s.leader in s.history)
    && s.epoch <= s.next
  }

  ghost predicate Inv(c: Config, s: State) {
    && HistoryOk(c, s)
    && CacheAgrees(s.readers, c.conns.Keys, s.leader)
    && Exclusive(s.calls)
    && ServedOk(s)
    && forall k :: 0 <= k < |s.calls| ==> CallOkIn(c, s, s.calls[k])
  }

  // ---------------------------------------------------------------- every step keeps it

  lemma LongerHistory(history: seq<Bytes>, x: Bytes, start: nat)
    requires start < |history|
    ensures forall a :: LeaderDuring(history, start, a) ==> LeaderDuring(history + [x], start, a)
    ensures forall a :: OtherLeaderDuring(history, start, a) ==> OtherLeaderDuring(history + [x], start, a)
  {
    assert (history + [x])[start..] == history[start..] + [x];
    forall a | OtherLeaderDuring(history, start, a) ensures OtherLeaderDuring(history + [x], start, a) {
      var i :| start <= i < |history| && history[i] != a;
      assert (history + [x])[i] != a;
    }
  }

  /** A listed reader is ready, and is not the leader by which the list was made. */
  lemma ReaderIsOther(c: Config, s: State, start: nat, i: nat)
    requires GoodConfig(c) && CacheAgrees(s.readers, c.conns.Keys, s.leader) && i < |s.readers|
    requires LeaderDuring(s.history, start, s.leader)
    ensures s.readers[i].addr in c.raw && OtherLeaderDuring(s.history, start, s.readers[i].addr)
  {
    assert s.readers[i] in s.readers;
    var j :| 0 <= j < |s.history[start..]| && s.history[start..][j] == s.leader;
    assert s.history[start + j] == s.leader;
  }

  /** When the list is empty, a ready address is the only one, or was not the leader throughout. */
  lemma NoReaderMeans(c: Config, s: State, start: nat, a: Bytes)
    requires GoodConfig(c) && CacheAgrees([], c.conns.Keys, s.leader) && a in c.raw
    requires LeaderDuring(s.history, start, s.leader)
    ensures OtherLeaderDuring(s.history, start, a) || c.conns.Keys == {Address(a)}
  {
    assert Address(a) in c.conns.Keys;
    var j :| 0 <= j < |s.history[start..]| && s.history[start..][j] == s.leader;
    assert s.history[start + j] == s.leader;
    if s.leader == a {
      ReadersEmptyIff([], c.conns.Keys, a);
    }
  }

  /** When the list is empty with something ready, no leader was known or the leader is the only ready address. */
  lemma NestedErrorMeans(c: Config, s: State, start: nat)
    requires CacheAgrees([], c.conns.Keys, s.leader) && LeaderDuring(s.history, start, s.leader)
    ensures c.conns == map[] || NoReaderDuring(c, s.history, start)
  {
    if s.leader != [] && c.conns != map[] {
      ReadersEmptyIff([], c.conns.Keys, s.leader);
      var a :| a in c.conns;
      assert c.conns.Keys == {Address(s.leader)};
    }
  }

  lemma LongerPickOk(c: Config, history: seq<Bytes>, x: Bytes, next: nat, call: Call, pick: Pick)
    requires call.start < |history| && PickOk(c, history, next, call, pick)
    ensures PickOk(c, history + [x], next, call, pick)
  {
    hide LeaderDuring, OtherLeaderDuring;
    LongerHistory(history, x, call.start);
  }

  /** What a call knows stays true when the leader changes. */
  lemma LongerCallOk(c: Config, s: State, x: Bytes, call: Call)
    requires CallOkIn(c, s, call)
    ensures CallOkIn(c, s.(history := s.history + [x]), call)
  {
    hide LeaderDuring, OtherLeaderDuring, PickOk;
    LongerHistory(s.history, x, call.start);
    if call.pc.Releasing? || call.pc.Finished? {
      LongerPickOk(c, s.history, x, s.next, call, call.pc.pick);
    }
  }

  lemma SetLeaderOk(c: Config, s: State, x: Bytes)
    requires Inv(c, s) && Enabled(c, s, SetLeader(x))
    ensures Inv(c, Apply(c, s, SetLeader(x)))
  {
    hide CacheAgrees, ServedAt, CallOkIn, Exclusive;
    var s' := Apply(c, s, SetLeader(x));
    forall k | 0 <= k < |s.calls| ensures CallOkIn(c, s', s.calls[k]) {
      LongerCallOk(c, s, x, s.calls[k]);
    }
  }

  lemma BeginExclusive(calls: seq<Call>, call: Call)
    requires Exclusive(calls) && !Blocks(call.pc) && !HoldsRead(call.pc)
    ensures Exclusive(calls + [call])
  {
    hide Blocks, HoldsRead, HoldsWrite;
    WritersBlock();
  }

  lemma BeginOk(c: Config, s: State, read: bool)
    requires Inv(c, s) && Enabled(c, s, Begin(read))
    ensures Inv(c, Apply(c, s, Begin(read)))
  {
    hide CacheAgrees, TicketIndex, Exclusive, ServedAt, HistoryOk;
    var s' := Apply(c, s, Begin(read));
    BeginExclusive(s.calls, s'.calls[|s.calls|]);
    assert s.history != [];
    forall k | 0 <= k < |s'.calls| ensures CallOkIn(c, s', s'.calls[k]) {
      if k < |s.calls| { assert CallOkIn(c, s, s.calls[k]); }
    }
    HistoryStays(c, s, s');
  }

  lemma HistoryStays(c: Config, s: State, s': State)
    requires HistoryOk(c, s)
    requires s'.history == s.history && s'.leader == s.leader && s'.epoch == s.epoch && s.next <= s'.next
    ensures HistoryOk(c, s')
  {
  }

  /** What the lock allows one call to do. */
  predicate LockAllows(s: State, before: Pc, after: Pc) {
    && (Blocks(after) ==> Blocks(before) || NoneBlocks(s))
    && (HoldsWrite(after) ==> HoldsWrite(before) || NoneReads(s))
    && (HoldsRead(after) ==> HoldsRead(before) || NoneBlocks(s))
    && (HoldsWrite(after) ==> !HoldsRead(after))
  }

  lemma AllowedIsExclusive(s: State, k: nat, after: Pc)
    requires Exclusive(s.calls) && k < |s.calls| && LockAllows(s, s.calls[k].pc, after)
    ensures Exclusive(At(s, k, after).calls)
  {
    hide Blocks, HoldsWrite, HoldsRead;
    assert forall j :: 0 <= j < |s.calls| && HoldsWrite(s.calls[j].pc) ==> Blocks(s.calls[j].pc) by {
      WritersBlock();
    }
    WritersBlock();
  }

  lemma WritersBlock()
    ensures forall pc :: HoldsWrite(pc) ==> Blocks(pc)
  {
  }

  lemma MoveAllowed(c: Config, s: State, k: nat)
    requires Exclusive(s.calls) && Enabled(c, s, Move(k))
    ensures var s' := Apply(c, s, Move(k));
      && |s'.calls| == |s.calls| && s'.calls == At(s, k, s'.calls[k].pc).calls
      && LockAllows(s, s.calls[k].pc, s'.calls[k].pc)
  {
    hide TicketIndex, WritePick;
    assert HoldsWrite(s.calls[k].pc) ==> !HoldsRead(s.calls[k].pc);
    assert NoneReads(s) ==> !HoldsRead(s.calls[k].pc);
  }

  /** Moving one call keeps the lock's promise, because the move asks the lock. */
  lemma MoveExclusive(c: Config, s: State, k: nat)
    requires Exclusive(s.calls) && Enabled(c, s, Move(k))
    ensures Exclusive(Apply(c, s, Move(k)).calls)
  {
    hide Apply, Exclusive, LockAllows;
    MoveAllowed(c, s, k);
    AllowedIsExclusive(s, k, Apply(c, s, Move(k)).calls[k].pc);
  }

  lemma CurrentIsDuring(s: State, start: nat)
    requires start < |s.history|
    ensures LeaderDuring(s.history, start, Current(s))
  {
    assert s.history[start..][|s.history| - 1 - start] == Current(s);
  }

  /** A call that looks its leader up is in order afterwards. */
  lemma LookupMovedOk(c: Config, s: State, k: nat)
    requires GoodConfig(c) && Enabled(c, s, Move(k)) && CallOkIn(c, s, s.calls[k]) && s.calls[k].pc.Lookup?
    requires CacheAgrees(s.readers, c.conns.Keys, s.leader)
    ensures var s' := Apply(c, s, Move(k)); |s'.calls| == |s.calls| && CallOkIn(c, s', s'.calls[k])
  {
    hide TicketIndex, LeaderDuring, OtherLeaderDuring, NoReaderDuring, NoneBlocks, NoneReads, CacheAgrees, IsRawMap;
    var pc := s.calls[k].pc;
    if pc.why == Nested && pc.cur in c.raw {
      NoReaderMeans(c, s, s.calls[k].start, pc.cur);
    } else if pc.why == Nested {
      NestedErrorMeans(c, s, s.calls[k].start);
    }
  }

  /** The call that moved is in order. */
  lemma UpdaterMovedOk(c: Config, s: State, k: nat)
    requires Enabled(c, s, Move(k)) && CallOkIn(c, s, s.calls[k])
    requires UpdatesLeader(s.calls[k].pc) && !s.calls[k].pc.Lookup?
    ensures var s' := Apply(c, s, Move(k)); |s'.calls| == |s.calls| && CallOkIn(c, s', s'.calls[k])
  {
    hide TicketIndex, LeaderDuring, NoneBlocks, NoneReads, PickOk, TicketPick, WritePick;
    CurrentIsDuring(s, s.calls[k].start);
  }

  lemma IndexBelow(t: nat, l: nat)
    requires l > 0
    ensures TicketIndex(t, l) < l
  {
  }

  lemma ReaderMovedOk(c: Config, s: State, k: nat)
    requires GoodConfig(c) && Enabled(c, s, Move(k)) && CallOkIn(c, s, s.calls[k]) && !UpdatesLeader(s.calls[k].pc)
    requires s.epoch <= s.next && CacheAgrees(s.readers, c.conns.Keys, s.leader)
    ensures var s' := Apply(c, s, Move(k)); |s'.calls| == |s.calls| && CallOkIn(c, s', s'.calls[k])
  {
    hide TicketIndex, LeaderDuring, OtherLeaderDuring, NoneBlocks, NoneReads, CacheAgrees;
    var pc := s.calls[k].pc;
    if pc.Ticketed? {
      IndexInRangeIff(pc.t, pc.l);
      IndexBelow(pc.t, pc.l);
      if TicketIndex(pc.t, pc.l) >= 0 {
        ReaderIsOther(c, s, s.calls[k].start, TicketIndex(pc.t, pc.l));
      }
    }
  }

  /** A move changes no shared state but the counter and the record of tickets served. */
  lemma MoveShares(c: Config, s: State, k: nat)
    requires Enabled(c, s, Move(k))
    ensures var s' := Apply(c, s, Move(k));
      && s'.history == s.history && s'.leader == s.leader && s'.readers == s.readers && s'.epoch == s.epoch
      && s.next <= s'.next
      && |s'.calls| == |s.calls| && forall j :: 0 <= j < |s.calls| && j != k ==> s'.calls[j] == s.calls[j]
  {
    hide TicketIndex, WritePick, NoneBlocks, NoneReads;
  }

  /** A ticket that is served goes where its number says. */
  lemma TicketServed(c: Config, s: State, k: nat)
    requires Enabled(c, s, Move(k)) && s.calls[k].pc.Ticketed? && ServedOk(s)
    requires s.calls[k].pc.l == |s.readers| > 0 && s.epoch <= s.calls[k].pc.t < s.next
    ensures ServedOk(Apply(c, s, Move(k)))
  {
    hide TicketIndex;
    var pc, s' := s.calls[k].pc, Apply(c, s, Move(k));
    var pick := TicketPick(c, s, pc.l, pc.t);
    assert pick.Picked? ==> pick.addr == s.readers[TicketIndex(pc.t, pc.l)].addr;
  }

  lemma MoveServes(c: Config, s: State, k: nat)
    requires Enabled(c, s, Move(k)) && ServedOk(s) && CallOkIn(c, s, s.calls[k])
    ensures ServedOk(Apply(c, s, Move(k)))
  {
    hide TicketIndex, TicketPick, WritePick, NoneBlocks, NoneReads, PickOk, LeaderDuring;
    if s.calls[k].pc.Ticketed? {
      TicketServed(c, s, k);
    } else {
      assert Apply(c, s, Move(k)).served == s.served;
    }
  }

  lemma MovedCallOk(c: Config, s: State, k: nat)
    requires GoodConfig(c) && Inv(c, s) && Enabled(c, s, Move(k))
    ensures var s' := Apply(c, s, Move(k)); |s'.calls| == |s.calls| && CallOkIn(c, s', s'.calls[k])
  {
    hide Apply, GoodConfig, ServedOk, Exclusive, CacheAgrees, CallOk;
    assert CallOkIn(c, s, s.calls[k]);
    if s.calls[k].pc.Lookup? {
      LookupMovedOk(c, s, k);
    } else if UpdatesLeader(s.calls[k].pc) {
      UpdaterMovedOk(c, s, k);
    } else {
      ReaderMovedOk(c, s, k);
    }
  }

  /** What another call knows stays true when the counter moves on. */
  lemma OtherCallOk(c: Config, s: State, s': State, call: Call)
    requires CallOkIn(c, s, call) && s.next <= s'.next
    requires s'.history == s.history && s'.leader == s.leader && s'.readers == s.readers && s'.epoch == s.epoch
    ensures CallOkIn(c, s', call)
  {
    hide LeaderDuring, OtherLeaderDuring, UnreachableDuring, NoReaderDuring;
  }

  lemma MoveOk(c: Config, s: State, k: nat)
    requires GoodConfig(c) && Inv(c, s) && Enabled(c, s, Move(k))
    ensures Inv(c, Apply(c, s, Move(k)))
  {
    hide Apply, GoodConfig, HistoryOk, ServedOk, Exclusive, CacheAgrees, CallOkIn;
    var s' := Apply(c, s, Move(k));
    MoveExclusive(c, s, k);
    MovedCallOk(c, s, k);
    MoveShares(c, s, k);
    MoveServes(c, s, k);
    HistoryStays(c, s, s');
    forall j | 0 <= j < |s'.calls| ensures CallOkIn(c, s', s'.calls[j]) {
      if j != k { OtherCallOk(c, s, s', s.calls[j]); }
    }
  }

  lemma RebuildOk(c: Config, s: State, k: nat, order: seq<Address>)
    requires Inv(c, s) && Enabled(c, s, Rebuild(k, order))
    ensures Inv(c, Apply(c, s, Rebuild(k, order)))
  {
    hide TicketIndex;
    var s' := Apply(c, s, Rebuild(k, order));
    forall j | 0 <= j < |s'.calls| ensures CallOkIn(c, s', s'.calls[j]) {
      assert CallOkIn(c, s, s.calls[j]);
      CurrentIsDuring(s, s.calls[j].start);
      assert j != k ==> !HoldsRead(s.calls[j].pc) && !Blocks(s.calls[j].pc);
    }
  }

  lemma StepOk(c: Config, s: State, l: Label)
    requires GoodConfig(c) && Inv(c, s) && Enabled(c, s, l)
    ensures Inv(c, Apply(c, s, l))
  {
    hide *;
    match l
    case SetLeader(x) => SetLeaderOk(c, s, x);
    case Begin(read) => BeginOk(c, s, read);
    case Move(k) => MoveOk(c, s, k);
    case Rebuild(k, order) => RebuildOk(c, s, k, order);
  }

  lemma StartOk(c: Config)
    requires GoodConfig(c)
    ensures Inv(c, Start(c))
  {
  }

  lemma RunFront(c: Config, run: seq<State>)
    requires IsRun(c, run) && |run| > 1
    ensures IsRun(c, run[..|run| - 1]) && Next(c, run[|run| - 2], run[|run| - 1])
  {
    hide Next;
  }

  lemma ExtendRun(c: Config, run: seq<State>, l: Label)
    requires IsRun(c, run) && Enabled(c, run[|run| - 1], l)
    ensures IsRun(c, run + [Apply(c, run[|run| - 1], l)])
  {
    hide Enabled, Apply;
    var s' := Apply(c, run[|run| - 1], l);
    var run' := run + [s'];
    assert Next(c, run[|run| - 1], s');
    forall k | 0 < k < |run'| ensures Next(c, run'[k - 1], run'[k]) {
      if k < |run| { assert Next(c, run[k - 1], run[k]); }
    }
  }

  lemma {:induction false} RunOk(c: Config, run: seq<State>)
    requires GoodConfig(c) && IsRun(c, run)
    ensures Inv(c, run[|run| - 1])
  {
    hide GoodConfig, Inv, Apply, Enabled, Start;
    if |run| == 1 {
      StartOk(c);
    } else {
      var s, s' := run[|run| - 2], run[|run| - 1];
      RunFront(c, run);
      RunOk(c, run[..|run| - 1]);
      var l :| Enabled(c, s, l) && s' == Apply(c, s, l);
      StepOk(c, s, l);
    }
  }

  // ---------------------------------------------------------------- the results

  /** A finished write went to the connection of an address that was the record's leader at some moment during the
      call; it is an error only if nothing is ready or some leader during the call has no connection. */
  lemma WriteSafety(c: Config, run: seq<State>, k: nat)
    requires GoodConfig(c) && IsRun(c, run) && k < |run[|run| - 1].calls|
    ensures var s := run[|run| - 1];
      var call := s.calls[k];
      !call.read && call.pc.Finished? ==>
        match call.pc.pick
        case NoSubConnAvailable =>
          c.conns == map[] || exists i :: call.start <= i < |s.history| && Address(s.history[i]) !in c.conns
        case IndexOutOfRange => false
        case Picked(sc, a) =>
          && Address(a) in c.conns && sc == c.conns[Address(a)]
          && exists i :: call.start <= i < |s.history| && s.history[i] == a
  {
    RunOk(c, run);
    var s := run[|run| - 1];
    var call := s.calls[k];
    assert CallOkIn(c, s, call);
    hide Inv, IsRun, LeaderDuring;
    if !call.read && call.pc.Finished? && call.pc.pick.Picked? {
      assert c.raw[call.pc.pick.addr] == c.conns[Address(call.pc.pick.addr)];
      DuringIsInHistory(s.history, call.start, call.pc.pick.addr);
    } else if !call.read && call.pc.Finished? && call.pc.pick == NoSubConnAvailable && c.conns != map[] {
      var x :| LeaderDuring(s.history, call.start, x) && x !in c.raw;
      DuringIsInHistory(s.history, call.start, x);
    }
  }

  lemma DuringIsInHistory(history: seq<Bytes>, start: nat, a: Bytes)
    requires LeaderDuring(history, start, a)
    ensures exists i :: start <= i < |history| && history[i] == a
  {
    var i :| 0 <= i < |history[start..]| && history[start..][i] == a;
    assert history[start + i] == a;
  }

  /** A finished read that picked went to a ready address, and with a second address ready not to one that was the
      record's leader throughout the call. It is an error only if nothing is ready, or some leader during the call has
      no connection and at some moment no other address could be read from. It panics only after 2^63 tickets. */
  lemma ReadSafety(c: Config, run: seq<State>, k: nat)
    requires GoodConfig(c) && IsRun(c, run) && k < |run[|run| - 1].calls|
    ensures var s := run[|run| - 1];
      var call := s.calls[k];
      call.read && call.pc.Finished? ==>
        match call.pc.pick
        case NoSubConnAvailable =>
          || c.conns == map[]
          || ((exists i :: call.start <= i < |s.history| && Address(s.history[i]) !in c.conns)
              && exists i :: call.start <= i < |s.history|
                   && (s.history[i] == [] || c.conns.Keys == {Address(s.history[i])}))
        case IndexOutOfRange => s.next > TWO_63
        case Picked(sc, a) =>
          && Address(a) in c.conns && sc == c.conns[Address(a)]
          && (c.conns.Keys == {Address(a)} || exists i :: call.start <= i < |s.history| && s.history[i] != a)
  {
    RunOk(c, run);
    var s := run[|run| - 1];
    var call := s.calls[k];
    assert CallOkIn(c, s, call);
    hide Inv, IsRun, LeaderDuring;
    if call.read && call.pc.Finished? && call.pc.pick.Picked? {
      assert c.raw[call.pc.pick.addr] == c.conns[Address(call.pc.pick.addr)];
    } else if call.read && call.pc.Finished? && call.pc.pick == NoSubConnAvailable && c.conns != map[] {
      var x :| LeaderDuring(s.history, call.start, x) && x !in c.raw;
      DuringIsInHistory(s.history, call.start, x);
      var y :| LeaderDuring(s.history, call.start, y) && (y == [] || c.conns.Keys == {Address(y)});
      DuringIsInHistory(s.history, call.start, y);
    }
  }

  /** In every state the cached leader and the cached readers agree, and the lock keeps writers alone. */
  lemma CacheAgreement(c: Config, run: seq<State>)
    requires GoodConfig(c) && IsRun(c, run)
    ensures var s := run[|run| - 1];
      CacheAgrees(s.readers, c.conns.Keys, s.leader) && Exclusive(s.calls)
  {
    RunOk(c, run);
  }

  /** How many of the `k` tickets from `a` on went to `addr`. */
  function Share(s: State, a: nat, k: nat, addr: Bytes): nat {
    if k == 0 then 0
    else Share(s, a, k - 1, addr) + if a + k - 1 in s.served && s.served[a + k - 1] == addr then 1 else 0
  }

  /** The `k` tickets from `a` on were drawn since the last rebuild, are served, and come before the counter wraps. */
  predicate ServedSinceRebuild(s: State, a: nat, k: nat) {
    s.epoch <= a && a + k <= TWO_63 && forall t :: a <= t < a + k ==> t in s.served
  }

  lemma TicketGoesTo(s: State, t: nat, r: nat)
    requires ServedOk(s) && NoDuplicates(s.readers) && r < |s.readers|
    requires t in s.served && s.epoch <= t < TWO_63
    ensures s.served[t] == s.readers[r].addr <==> t % |s.readers| == r
  {
    hide TicketIndex;
    var i := t % |s.readers|;
    IndexInRangeIff(t, |s.readers|);
    assert ServedAt(s.readers, t, s.served[t]);
    assert s.readers[i].addr == s.readers[r].addr ==> s.readers[i] == s.readers[r];
  }

  lemma {:induction false} ShareIsHits(s: State, a: nat, k: nat, r: nat)
    requires ServedOk(s) && NoDuplicates(s.readers) && r < |s.readers| && ServedSinceRebuild(s, a, k)
    ensures Share(s, a, k, s.readers[r].addr) == Hits(a, k, |s.readers|, r)
  {
    hide ServedOk, NoDuplicates;
    if k > 0 {
      ShareIsHits(s, a, k - 1, r);
      TicketGoesTo(s, a + k - 1, r);
    }
  }

  /** Between two rebuilds of the list, whatever calls run at once, consecutive tickets are spread evenly: of `k` of
      them each of the l readers serves k/l, rounded down or up. */
  lemma ReadsAreFair(c: Config, run: seq<State>, a: nat, k: nat, r: nat)
    requires GoodConfig(c) && IsRun(c, run)
    requires r < |run[|run| - 1].readers| && ServedSinceRebuild(run[|run| - 1], a, k)
    ensures var s, l := run[|run| - 1], |run[|run| - 1].readers|;
      k / l <= Share(s, a, k, s.readers[r].addr) <= (k + l - 1) / l
  {
    hide Share, Hits, CallOkIn, ServedOk, HistoryOk, Exclusive, GoodConfig, ServedSinceRebuild;
    RunOk(c, run);
    assert run[|run| - 1].readers != [] && NoDuplicates(run[|run| - 1].readers);
    ShareIsHits(run[|run| - 1], a, k, r);
    RoundRobinIsFair(a, k, |run[|run| - 1].readers|, r);
  }
}
