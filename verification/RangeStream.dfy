/** The concurrent range stream as a system of interleaved steps: the caller's partition loop, the token pool,
    the group context, one callback and one fetcher a partition, the goroutine that closes the output, and the
    consumer (client/client_stream.go, client/util.go). */
module RangeStream {
  import opened ByteStrings
  import opened Wrappers
  import opened Streams

  /** What the environment will do: whether the partitions can be listed, and each partition's stream. */
  datatype Config = Config(maxConcurrent: int, listErr: Option<Bytes>, streams: seq<Stream>)

  datatype CallerPc = Listing | AtGo(i: nat) | Starting(i: nat) | Releasing(i: nat) | Returned

  datatype CloserPc = NotStarted | Waiting | Waited | Finished

  /** `Got` is after the receive from the input channel, `Sending` after the select, `Failing` after the
      decision to return an error, `Exiting` before the group is told that the callback ended. */
  datatype CallbackPc =
    | NotSpawned | Skipped | Opening | Ranging | Got | Sending | Failing | Exiting(ok: bool) | Done(ok: bool)

  datatype FetcherPc = Absent | Running | Exited

  /** `pushed` and `taken` count the responses put on and taken off the partition's one-slot channel. */
  datatype Partition =
    Partition(cb: CallbackPc, fetcher: FetcherPc, pushed: nat, taken: nat, closed: bool)

  /** `sent` is all that went to the output channel, with the partition it came from (-1 for the listing error);
      the consumer has received the first `received` of it. */
  datatype State = State(
    caller: CallerPc, closer: CloserPc, parts: seq<Partition>, tokens: int, groupDone: bool, cancelled: bool,
    sent: seq<(int, Response)>, received: nat, closed: bool, panicked: bool)

  datatype Label =
    | ListFails | ListOk | TakeToken | SkipDone | GoUnlimited | Spawn | ReturnToken | FinishLoop
    | Open(i: nat) | Push(i: nat) | CloseInput(i: nat)
    | Take(i: nat) | RangeEnds(i: nat) | SeeDone(i: nat) | SeeNotDone(i: nat) | Send(i: nat)
    | CancelGroup(i: nat) | Exit(i: nat)
    | WaitEnds | CloseOutput | Receive | CancelCaller | Propagate

  function Start(c: Config): State {
    State(Listing, NotStarted, seq(|c.streams|, _ => Partition(NotSpawned, Absent, 0, 0, false)),
          if c.maxConcurrent > 0 then c.maxConcurrent else 0, false, false, [], 0, false, false)
  }

  /** Every callback that the group waits for has ended. */
  predicate AllEnded(s: State) {
    forall i :: 0 <= i < |s.parts| ==> s.parts[i].cb.Done? || s.parts[i].cb.Skipped? || s.parts[i].cb.NotSpawned?
  }

  /** The step is a step of partition `i`, which is at `cb`. */
  predicate At(s: State, i: nat, cb: CallbackPc) {
    i < |s.parts| && s.parts[i].cb == cb
  }

  /** When a step can happen. A send on a one-slot channel waits for room, unless the channel is closed: then it
      panics at once. */
  predicate Enabled(c: Config, s: State, l: Label) {
    !s.panicked && |s.parts| == |c.streams| &&
    match l
    case ListFails => s.caller == Listing && c.listErr.Some?
    case ListOk => s.caller == Listing && c.listErr.None?
    case TakeToken => s.caller.AtGo? && s.caller.i < |s.parts| && c.maxConcurrent > 0 && s.tokens > 0
    case SkipDone => s.caller.AtGo? && s.caller.i < |s.parts| && c.maxConcurrent > 0 && s.groupDone
    case GoUnlimited => s.caller.AtGo? && s.caller.i < |s.parts| && c.maxConcurrent <= 0
    case Spawn => s.caller.Starting? && s.caller.i < |s.parts|
    case ReturnToken => s.caller.Releasing? && s.tokens < c.maxConcurrent
    case FinishLoop => s.caller.AtGo? && s.caller.i >= |s.parts|
    case Open(i) => At(s, i, Opening)
    case Push(i) =>
      i < |s.parts| && s.parts[i].fetcher.Running? && s.parts[i].pushed < |Yield(c.streams[i])|
      && (s.parts[i].pushed < s.parts[i].taken + 1 || s.parts[i].closed)
    case CloseInput(i) =>
      i < |s.parts| && s.parts[i].fetcher.Running? && s.parts[i].pushed == |Yield(c.streams[i])|
    case Take(i) => At(s, i, Ranging) && s.parts[i].taken < s.parts[i].pushed
    case RangeEnds(i) => At(s, i, Ranging) && s.parts[i].taken == s.parts[i].pushed && s.parts[i].closed
    case SeeDone(i) => At(s, i, Got) && s.groupDone
    case SeeNotDone(i) => At(s, i, Got) && !s.groupDone
    case Send(i) =>
      At(s, i, Sending) && 0 < s.parts[i].taken <= |Yield(c.streams[i])|
      && (|s.sent| < s.received + 1 || s.closed)
    case CancelGroup(i) => At(s, i, Failing)
    case Exit(i) => i < |s.parts| && s.parts[i].cb.Exiting?
    case WaitEnds => s.closer == Waiting && AllEnded(s)
    case CloseOutput => s.closer == Waited
    case Receive => s.received < |s.sent|
    case CancelCaller => !s.cancelled
    case Propagate => s.cancelled && !s.groupDone
  }

  function SetPart(s: State, i: nat, p: Partition): State
    requires i < |s.parts|
  {
    s.(parts := s.parts[i := p])
  }

  function SetCb(s: State, i: nat, cb: CallbackPc): State
    requires i < |s.parts|
  {
    SetPart(s, i, s.parts[i].(cb := cb))
  }

  function Apply(c: Config, s: State, l: Label): State
    requires Enabled(c, s, l)
  {
    match l
    case ListFails => s.(caller := Returned, sent := s.sent + [(-1, FromRpcErr(c.listErr.value))], closed := true)
    case ListOk => s.(caller := AtGo(0))
    case TakeToken => s.(caller := Starting(s.caller.i), tokens := s.tokens - 1)
    case SkipDone => SetCb(s, s.caller.i, Skipped).(caller := AtGo(s.caller.i + 1))
    case GoUnlimited => SetCb(s, s.caller.i, Opening).(caller := AtGo(s.caller.i + 1))
    case Spawn => SetCb(s, s.caller.i, Opening).(caller := Releasing(s.caller.i))
    case ReturnToken => s.(caller := AtGo(s.caller.i + 1), tokens := s.tokens + 1)
    case FinishLoop => s.(caller := Returned, closer := Waiting)
    case Open(i) =>
      // a stream that cannot be opened leaves its error on a channel that is already closed
      if c.streams[i].OpenFailed?
      then SetPart(s, i, s.parts[i].(cb := Ranging, pushed := s.parts[i].pushed + 1, closed := true))
      else SetPart(s, i, s.parts[i].(cb := Ranging, fetcher := Running))
    case Push(i) =>
      if s.parts[i].closed then s.(panicked := true)
      else SetPart(s, i, s.parts[i].(pushed := s.parts[i].pushed + 1))
    case CloseInput(i) =>
      if s.parts[i].closed then s.(panicked := true)
      else SetPart(s, i, s.parts[i].(fetcher := Exited, closed := true))
    case Take(i) => SetPart(s, i, s.parts[i].(cb := Got, taken := s.parts[i].taken + 1))
    case RangeEnds(i) => SetCb(s, i, Exiting(true))
    case SeeDone(i) => SetCb(s, i, Failing)
    case SeeNotDone(i) => SetCb(s, i, Sending)
    case Send(i) =>
      var r := Yield(c.streams[i])[s.parts[i].taken - 1];
      if s.closed then s.(panicked := true)
      else SetCb(s, i, if r.Failed() then Failing else Ranging).(sent := s.sent + [(i, r)])
    case CancelGroup(i) => SetCb(s, i, Exiting(false)).(groupDone := true)
    case Exit(i) => SetCb(s, i, Done(s.parts[i].cb.ok))
    case WaitEnds => s.(closer := Waited, groupDone := true)
    case CloseOutput => if s.closed then s.(panicked := true) else s.(closer := Finished, closed := true)
    case Receive => s.(received := s.received + 1)
    case CancelCaller => s.(cancelled := true)
    case Propagate => s.(groupDone := true)
  }

  ghost predicate Next(c: Config, s: State, s': State) {
    exists l :: Enabled(c, s, l) && s' == Apply(c, s, l)
  }

  ghost predicate IsRun(c: Config, run: seq<State>) {
    && run != []
    && run[0] == Start(c)
    && forall k :: 0 < k < |run| ==> Next(c, run[k - 1], run[k])
  }

  // ---------------------------------------------------------------- what holds in every state

  /** What reached the output from partition `i`, in order. */
  function From(sent: seq<(int, Response)>, i: int): seq<Response> {
    if sent == [] then []
    else From(sent[..|sent| - 1], i) + if sent[|sent| - 1].0 == i then [sent[|sent| - 1].1] else []
  }

  predicate CleanButLast(rs: seq<Response>) {
    forall i :: 0 <= i < |rs| - 1 ==> !rs[i].Failed()
  }

  predicate AnyFailed(sent: seq<(int, Response)>) {
    sent != [] && (sent[|sent| - 1].1.Failed() || AnyFailed(sent[..|sent| - 1]))
  }

  lemma {:induction false} AnyFailedMeans(sent: seq<(int, Response)>)
    ensures AnyFailed(sent) <==> exists k :: 0 <= k < |sent| && sent[k].1.Failed()
  {
    if sent != [] {
      var front := sent[..|sent| - 1];
      AnyFailedMeans(front);
      assert forall k :: 0 <= k < |front| ==> front[k] == sent[k];
    }
  }

  /** The consumer can see that something went wrong, or cancelled itself. */
  predicate FaultVisible(s: State) {
    s.cancelled || AnyFailed(s.sent)
  }

  /** The state of a partition whose stream yields `y` and from which `d` was delivered. */
  predicate PartOk(y: seq<Response>, p: Partition, d: seq<Response>) {
    && p.taken <= p.pushed <= |y| && p.pushed <= p.taken + 1
    && (p.closed ==> p.pushed == |y| && !p.fetcher.Running?)
    && match p.cb
       case NotSpawned => d == [] && p.pushed == 0 && !p.closed && p.fetcher.Absent?
       case Skipped => d == [] && p.pushed == 0 && !p.closed && p.fetcher.Absent?
       case Opening => d == [] && p.pushed == 0 && !p.closed && p.fetcher.Absent?
       case Ranging => (p.closed || p.fetcher.Running?) && d == y[..p.taken] && Clean(d)
       case Got => (p.closed || p.fetcher.Running?) && p.taken > 0 && d == y[..p.taken - 1] && Clean(d)
       case Sending => (p.closed || p.fetcher.Running?) && p.taken > 0 && d == y[..p.taken - 1] && Clean(d)
       case Failing => d <= y && CleanButLast(d)
       case Exiting(ok) => d <= y && CleanButLast(d) && (ok ==> d == y && Clean(y))
       case Done(ok) => d <= y && CleanButLast(d) && (ok ==> d == y && Clean(y))
  }

  /** The callback was never started, or it returns an error. */
  predicate InTrouble(cb: CallbackPc) {
    cb.Skipped? || cb.Failing? || cb == Exiting(false) || cb == Done(false)
  }

  predicate PartitionOk(c: Config, s: State, i: nat)
    requires i < |s.parts| == |c.streams|
  {
    && PartOk(Yield(c.streams[i]), s.parts[i], From(s.sent, i))
    && (InTrouble(s.parts[i].cb) ==> FaultVisible(s) && (s.groupDone || s.parts[i].cb.Failing?))
  }

  predicate CallerOk(c: Config, s: State) {
    && (s.caller == Listing || (s.caller == Returned && c.listErr.Some?) ==>
          forall i :: 0 <= i < |s.parts| ==> s.parts[i].cb == NotSpawned)
    && (s.caller == Returned && c.listErr.None? ==>
          forall i :: 0 <= i < |s.parts| ==> s.parts[i].cb != NotSpawned)
    && (s.caller.AtGo? || s.caller.Starting? ==>
          forall i :: 0 <= i < |s.parts| ==> (s.parts[i].cb == NotSpawned <==> i >= s.caller.i))
    && (s.caller.Releasing? ==>
          forall i :: 0 <= i < |s.parts| ==> (s.parts[i].cb == NotSpawned <==> i > s.caller.i))
    && (s.caller.AtGo? ==> s.caller.i <= |s.parts|)
    && (s.caller.Starting? || s.caller.Releasing? ==> s.caller.i < |s.parts| && c.maxConcurrent > 0)
    && (s.caller.AtGo? || s.caller.Starting? || s.caller.Releasing? ==> c.listErr.None?)
    && (c.maxConcurrent > 0 ==>
          s.tokens + (if s.caller.Starting? || s.caller.Releasing? then 1 else 0) == c.maxConcurrent)
  }

  predicate CloserOk(c: Config, s: State) {
    && (s.closer.NotStarted? <==> s.caller != Returned || c.listErr.Some?)
    && (s.closer.Waited? || s.closer.Finished? ==> AllEnded(s) && s.groupDone)
    && (s.closed <==> s.closer.Finished? || (s.caller == Returned && c.listErr.Some?))
    && (s.groupDone && !s.closer.Waited? && !s.closer.Finished? ==> FaultVisible(s))
  }

  ghost predicate Inv(c: Config, s: State) {
    && |s.parts| == |c.streams|
    && !s.panicked
    && s.received <= |s.sent| <= s.received + 1
    && (forall i :: 0 <= i < |s.parts| ==> PartitionOk(c, s, i))
    && CallerOk(c, s)
    && CloserOk(c, s)
    && (forall k :: 0 <= k < |s.sent| ==> -1 <= s.sent[k].0 < |s.parts|)
    && (c.listErr.Some? ==> s.sent == if s.caller == Listing then [] else [(-1, FromRpcErr(c.listErr.value))])
    && (c.listErr.None? ==> forall k :: 0 <= k < |s.sent| ==> s.sent[k].0 != -1)
  }

  // ---------------------------------------------------------------- every step keeps it

  lemma StartOk(c: Config)
    ensures Inv(c, Start(c))
  {
  }

  /** A step of the caller's loop that touches no partition. */
  lemma LoopStepOk(c: Config, s: State, l: Label)
    requires Inv(c, s) && Enabled(c, s, l)
    requires l.ListOk? || l.TakeToken? || l.ReturnToken? || l.FinishLoop?
    ensures Inv(c, Apply(c, s, l))
  {
    hide PartOk, Yield, From, AnyFailed;
    var s' := Apply(c, s, l);
    forall i | 0 <= i < |s.parts| ensures PartitionOk(c, s', i) {
      assert PartitionOk(c, s, i);
    }
  }

  lemma StartedPart(y: seq<Response>, p: Partition, d: seq<Response>, cb: CallbackPc)
    requires PartOk(y, p, d) && p.cb == NotSpawned && (cb == Skipped || cb == Opening)
    ensures PartOk(y, p.(cb := cb), d)
  {
  }

  /** A step of the loop that starts or skips a partition. */
  lemma SpawnStepOk(c: Config, s: State, l: Label)
    requires Inv(c, s) && Enabled(c, s, l)
    requires l.SkipDone? || l.GoUnlimited? || l.Spawn?
    ensures Inv(c, Apply(c, s, l))
  {
    hide PartOk, Yield, From, AnyFailed;
    var s', i := Apply(c, s, l), s.caller.i;
    assert PartitionOk(c, s, i);
    StartedPart(Yield(c.streams[i]), s.parts[i], From(s.sent, i), s'.parts[i].cb);
    forall j | 0 <= j < |s.parts| ensures PartitionOk(c, s', j) {
      assert PartitionOk(c, s, j);
    }
  }

  lemma ListFailsOk(c: Config, s: State)
    requires Inv(c, s) && Enabled(c, s, ListFails)
    ensures Inv(c, Apply(c, s, ListFails))
  {
    var s' := Apply(c, s, ListFails);
    SentMore(s.sent, -1, FromRpcErr(c.listErr.value));
    forall i | 0 <= i < |s.parts| ensures PartitionOk(c, s', i) {
      assert PartitionOk(c, s, i);
    }
  }

  /** What a step of partition `i` may do besides changing that partition: send `out`, or cancel the group. */
  ghost predicate OnlyPartition(c: Config, s: State, s': State, i: nat, out: seq<(int, Response)>) {
    && i < |s.parts| == |s'.parts| == |c.streams|
    && s'.parts == s.parts[i := s'.parts[i]]
    && s' == s.(parts := s'.parts, sent := s.sent + out, groupDone := s'.groupDone)
    && (s'.parts[i].cb == NotSpawned <==> s.parts[i].cb == NotSpawned)
    && (s'.parts[i].cb == s.parts[i].cb || !AllEnded(s))
    && (out == [] || (|out| == 1 && out[0].0 == i && |s.sent| == s.received && c.listErr.None?))
    && (s.groupDone ==> s'.groupDone)
    && (s'.groupDone ==> s.groupDone || FaultVisible(s'))
  }

  lemma OnlyPartitionCallerOk(c: Config, s: State, s': State, i: nat, out: seq<(int, Response)>)
    requires CallerOk(c, s) && CloserOk(c, s) && OnlyPartition(c, s, s', i, out)
    requires FaultVisible(s) ==> FaultVisible(s')
    ensures CallerOk(c, s') && CloserOk(c, s')
  {
  }

  lemma OnlyPartitionOk(c: Config, s: State, s': State, i: nat, out: seq<(int, Response)>)
    requires Inv(c, s) && OnlyPartition(c, s, s', i, out) && PartitionOk(c, s', i)
    ensures Inv(c, s')
  {
    hide PartOk, CallerOk, CloserOk, From, AnyFailed, Yield, AllEnded;
    if out == [] {
      assert s.sent + out == s.sent;
    } else {
      assert out == [(i, out[0].1)];
      SentMore(s.sent, i, out[0].1);
    }
    OnlyPartitionCallerOk(c, s, s', i, out);
    forall j | 0 <= j < |s.parts| && j != i ensures PartitionOk(c, s', j) {
      assert PartitionOk(c, s, j);
    }
  }

  lemma SentMore(sent: seq<(int, Response)>, i: int, r: Response)
    ensures forall k :: 0 <= k < |sent| ==> (sent + [(i, r)])[k] == sent[k]
    ensures forall j | j != i :: From(sent + [(i, r)], j) == From(sent, j)
    ensures From(sent + [(i, r)], i) == From(sent, i) + [r]
    ensures AnyFailed(sent + [(i, r)]) <==> r.Failed() || AnyFailed(sent)
  {
    assert (sent + [(i, r)])[..|sent|] == sent;
  }

  lemma FetchedPart(y: seq<Response>, p: Partition, d: seq<Response>)
    requires PartOk(y, p, d) && p.fetcher.Running?
    ensures !p.closed
    ensures p.pushed <= p.taken && p.pushed < |y| ==> PartOk(y, p.(pushed := p.pushed + 1), d)
    ensures p.pushed == |y| ==> PartOk(y, p.(fetcher := Exited, closed := true), d)
  {
    hide Clean, CleanButLast;
  }

  lemma FetcherStepOk(c: Config, s: State, l: Label)
    requires Inv(c, s) && Enabled(c, s, l)
    requires l.Push? || l.CloseInput?
    ensures Inv(c, Apply(c, s, l))
  {
    hide PartOk, CallerOk, CloserOk, From, AllEnded, AnyFailed, Yield;
    assert PartitionOk(c, s, l.i);
    FetchedPart(Yield(c.streams[l.i]), s.parts[l.i], From(s.sent, l.i));
    var s' := Apply(c, s, l);
    assert s'.sent == s.sent + [] == s.sent;
    OnlyPartitionOk(c, s, s', l.i, []);
  }

  lemma OpenedPart(stream: Stream, p: Partition, d: seq<Response>)
    requires PartOk(Yield(stream), p, d) && p.cb == Opening
    ensures if stream.OpenFailed? then
              PartOk(Yield(stream), p.(cb := Ranging, pushed := p.pushed + 1, closed := true), d)
            else PartOk(Yield(stream), p.(cb := Ranging, fetcher := Running), d)
  {
    assert Yield(stream)[..0] == [];
  }

  lemma OpenOk(c: Config, s: State, i: nat)
    requires Inv(c, s) && Enabled(c, s, Open(i))
    ensures Inv(c, Apply(c, s, Open(i)))
  {
    hide PartOk, CallerOk, CloserOk, From, AllEnded, AnyFailed, Yield;
    StillOpen(c, s, i);
    assert PartitionOk(c, s, i);
    OpenedPart(c.streams[i], s.parts[i], From(s.sent, i));
    var s' := Apply(c, s, Open(i));
    assert s'.sent == s.sent + [] == s.sent;
    OnlyPartitionOk(c, s, s', i, []);
  }

  lemma RangedPart(y: seq<Response>, p: Partition, d: seq<Response>)
    requires PartOk(y, p, d) && p.cb == Ranging
    ensures p.taken < p.pushed ==> PartOk(y, p.(cb := Got, taken := p.taken + 1), d)
    ensures p.taken == p.pushed && p.closed ==> PartOk(y, p.(cb := Exiting(true)), d)
  {
    assert p.taken == |y| ==> y[..p.taken] == y;
  }

  lemma RangeStepOk(c: Config, s: State, l: Label)
    requires Inv(c, s) && Enabled(c, s, l)
    requires l.Take? || l.RangeEnds?
    ensures Inv(c, Apply(c, s, l))
  {
    hide PartOk, CallerOk, CloserOk, From, AllEnded, AnyFailed, Yield;
    StillOpen(c, s, l.i);
    assert PartitionOk(c, s, l.i);
    var s' := Apply(c, s, l);
    RangedPart(Yield(c.streams[l.i]), s.parts[l.i], From(s.sent, l.i));
    assert s'.sent == s.sent + [] == s.sent;
    OnlyPartitionOk(c, s, s', l.i, []);
  }

  lemma SelectedPart(y: seq<Response>, p: Partition, d: seq<Response>, cb: CallbackPc)
    requires PartOk(y, p, d)
    requires (p.cb == Got && (cb == Failing || cb == Sending)) || (p.cb == Failing && cb == Exiting(false))
          || (p.cb.Exiting? && cb == Done(p.cb.ok))
    ensures PartOk(y, p.(cb := cb), d)
  {
  }

  lemma SelectStepOk(c: Config, s: State, l: Label)
    requires Inv(c, s) && Enabled(c, s, l)
    requires l.SeeDone? || l.SeeNotDone? || l.CancelGroup? || l.Exit?
    ensures Inv(c, Apply(c, s, l))
  {
    hide PartOk, CallerOk, CloserOk, From, AllEnded, AnyFailed, Yield;
    StillOpen(c, s, l.i);
    assert PartitionOk(c, s, l.i);
    var s' := Apply(c, s, l);
    SelectedPart(Yield(c.streams[l.i]), s.parts[l.i], From(s.sent, l.i), s'.parts[l.i].cb);
    assert s'.sent == s.sent + [] == s.sent;
    OnlyPartitionOk(c, s, s', l.i, []);
  }

  lemma SentPart(y: seq<Response>, p: Partition, d: seq<Response>)
    requires PartOk(y, p, d) && p.cb == Sending
    ensures 0 < p.taken <= |y|
    ensures PartOk(y, p.(cb := if y[p.taken - 1].Failed() then Failing else Ranging), d + [y[p.taken - 1]])
  {
    assert d + [y[p.taken - 1]] == y[..p.taken];
  }

  /** While a callback has not ended, neither has the group, and the output is open. */
  lemma StillOpen(c: Config, s: State, i: nat)
    requires Inv(c, s) && i < |s.parts|
    requires !s.parts[i].cb.NotSpawned? && !s.parts[i].cb.Skipped? && !s.parts[i].cb.Done?
    ensures !AllEnded(s) && !s.closed && c.listErr.None? && (s.groupDone ==> FaultVisible(s))
  {
    hide PartitionOk, FaultVisible;
    assert !AllEnded(s);
  }

  lemma SendOk(c: Config, s: State, i: nat)
    requires Inv(c, s) && Enabled(c, s, Send(i))
    ensures Inv(c, Apply(c, s, Send(i)))
  {
    hide PartOk, CallerOk, CloserOk, From, AllEnded, AnyFailed, Yield;
    StillOpen(c, s, i);
    assert PartitionOk(c, s, i);
    var s' := Apply(c, s, Send(i));
    var r := Yield(c.streams[i])[s.parts[i].taken - 1];
    SentPart(Yield(c.streams[i]), s.parts[i], From(s.sent, i));
    SentMore(s.sent, i, r);
    OnlyPartitionOk(c, s, s', i, [(i, r)]);
  }

  lemma CloserStepOk(c: Config, s: State, l: Label)
    requires Inv(c, s) && Enabled(c, s, l)
    requires l.WaitEnds? || l.CloseOutput? || l.Receive? || l.CancelCaller? || l.Propagate?
    ensures Inv(c, Apply(c, s, l))
  {
    hide PartOk, Yield, From, AnyFailed;
    var s' := Apply(c, s, l);
    forall j | 0 <= j < |s.parts| ensures PartitionOk(c, s', j) {
      assert PartitionOk(c, s, j);
    }
  }

  lemma StepOk(c: Config, s: State, l: Label)
    requires Inv(c, s) && Enabled(c, s, l)
    ensures Inv(c, Apply(c, s, l))
  {
    hide *;
    match l
    case ListFails => ListFailsOk(c, s);
    case ListOk | TakeToken | ReturnToken | FinishLoop => LoopStepOk(c, s, l);
    case SkipDone | GoUnlimited | Spawn => SpawnStepOk(c, s, l);
    case Push(_) | CloseInput(_) => FetcherStepOk(c, s, l);
    case Open(i) => OpenOk(c, s, i);
    case Take(_) | RangeEnds(_) => RangeStepOk(c, s, l);
    case SeeDone(_) | SeeNotDone(_) | CancelGroup(_) | Exit(_) => SelectStepOk(c, s, l);
    case Send(i) => SendOk(c, s, i);
    case WaitEnds | CloseOutput | Receive | CancelCaller | Propagate => CloserStepOk(c, s, l);
  }

  lemma {:induction false} RunOk(c: Config, run: seq<State>)
    requires IsRun(c, run)
    ensures Inv(c, run[|run| - 1])
  {
    if |run| == 1 {
      StartOk(c);
    } else {
      RunOk(c, run[..|run| - 1]);
      var s, s' := run[|run| - 2], run[|run| - 1];
      assert Next(c, s, s');
      var l :| Enabled(c, s, l) && s' == Apply(c, s, l);
      StepOk(c, s, l);
    }
  }

  // ---------------------------------------------------------------- what the consumer may rely on

  lemma DeliveredIsPrefix(c: Config, s: State, i: nat)
    requires Inv(c, s) && i < |c.streams|
    ensures From(s.sent, i) <= Yield(c.streams[i]) && CleanButLast(From(s.sent, i))
  {
    assert PartitionOk(c, s, i);
  }

  /** No run sends on a closed channel or closes one twice. The output closes only after every spawned callback
      has ended, and the group is cancelled by then. A channel holds at most one response. What was delivered from a
      partition is, in order, a prefix of what its stream yielded, and at most its last response is an error. */
  lemma ChannelDiscipline(c: Config, run: seq<State>, i: nat)
    requires IsRun(c, run) && i < |c.streams|
    ensures var s := run[|run| - 1];
      && !s.panicked
      && (s.closed ==> AllEnded(s))
      && (s.closer.Waited? || s.closer.Finished? ==> s.groupDone)
      && i < |s.parts| && s.parts[i].taken <= s.parts[i].pushed <= s.parts[i].taken + 1
      && s.received <= |s.sent| <= s.received + 1
      && From(s.sent, i) <= Yield(c.streams[i])
      && CleanButLast(From(s.sent, i))
  {
    hide Yield, From;
    var s := run[|run| - 1];
    RunOk(c, run);
    DeliveredIsPrefix(c, s, i);
    assert PartitionOk(c, s, i);
  }

  /** While the group is still waited for, it is cancelled only after the consumer was sent an error or cancelled. */
  lemma CancellationIsVisible(c: Config, run: seq<State>)
    requires IsRun(c, run)
    ensures var s := run[|run| - 1];
      s.groupDone && !s.closer.Waited? && !s.closer.Finished? ==>
        s.cancelled || exists k :: 0 <= k < |s.sent| && s.sent[k].1.Failed()
  {
    RunOk(c, run);
    AnyFailedMeans(run[|run| - 1].sent);
  }

  lemma ListErrIsVisible(c: Config, s: State)
    requires Inv(c, s) && s.closed
    ensures c.listErr.Some? ==> AnyFailed(s.sent)
  {
  }

  /** If the output is closed, the caller did not cancel and no failed response was sent, then every partition was
      listed and started, the server ended every stream without reporting an error, and every message was forwarded. */
  lemma NoSilentTruncation(c: Config, run: seq<State>)
    requires IsRun(c, run)
    requires var s := run[|run| - 1];
      s.closed && !s.cancelled && forall k :: 0 <= k < |s.sent| ==> !s.sent[k].1.Failed()
    ensures c.listErr.None? && |run[|run| - 1].parts| == |c.streams|
    ensures forall i :: 0 <= i < |c.streams| ==>
      && run[|run| - 1].parts[i].cb == Done(true)
      && From(run[|run| - 1].sent, i) == Yield(c.streams[i])
      && c.streams[i].Opened? && c.streams[i].end.Eof?
      && |From(run[|run| - 1].sent, i)| == |c.streams[i].messages|
      && forall k :: 0 <= k < |c.streams[i].messages| ==>
           c.streams[i].messages[k].err == []
           && From(run[|run| - 1].sent, i)[k].range == c.streams[i].messages[k].range
  {
    hide From, Yield, Clean;
    var s := run[|run| - 1];
    RunOk(c, run);
    AnyFailedMeans(s.sent);
    ListErrIsVisible(c, s);
    forall i | 0 <= i < |c.streams|
      ensures s.parts[i].cb == Done(true) && From(s.sent, i) == Yield(c.streams[i])
      ensures c.streams[i].Opened? && c.streams[i].end.Eof? && |From(s.sent, i)| == |c.streams[i].messages|
      ensures forall k :: 0 <= k < |c.streams[i].messages| ==>
        c.streams[i].messages[k].err == [] && From(s.sent, i)[k].range == c.streams[i].messages[k].range
    {
      assert PartitionOk(c, s, i) && s.parts[i].cb != NotSpawned;
      CleanIff(c.streams[i]);
      YieldOfOpened(c.streams[i]);
    }
  }

  lemma YieldOfOpened(s: Stream)
    requires s.Opened? && s.end.Eof?
    ensures |Yield(s)| == |s.messages|
    ensures forall k :: 0 <= k < |s.messages| ==> Yield(s)[k].range == s.messages[k].range
  {
  }

  /** When the partitions cannot be listed, the consumer is given exactly that error before the output closes. */
  lemma ListFailureIsReported(c: Config, run: seq<State>)
    requires IsRun(c, run) && c.listErr.Some? && run[|run| - 1].closed
    ensures var s := run[|run| - 1];
      |s.sent| == 1 && s.sent[0].1.range == None && s.sent[0].1.streamErr.Err() == c.listErr
  {
    hide PartitionOk;
    RunOk(c, run);
  }

  /** A callback that returned an error has cancelled the group. */
  lemma FailureCancelsGroup(c: Config, run: seq<State>, i: nat)
    requires IsRun(c, run) && i < |c.streams|
    ensures var s := run[|run| - 1];
      |s.parts| == |c.streams| && (s.parts[i].cb == Done(false) ==> s.groupDone && FaultVisible(s))
  {
    RunOk(c, run);
    assert PartitionOk(c, run[|run| - 1], i);
  }

  /** Responses that partition `i` sent, or can no longer be kept from sending. */
  function Committed(s: State, i: nat): nat
    requires i < |s.parts|
  {
    |From(s.sent, i)| + if s.parts[i].cb == Sending then 1 else 0
  }

  /** A step that sends nothing does not bring a partition to the brink of sending. */
  ghost predicate Silent(s: State, s': State, i: nat)
    requires i < |s.parts|
  {
    && s'.groupDone && |s'.parts| == |s.parts| && s'.sent == s.sent
    && (s'.parts[i].cb == Sending ==> s.parts[i].cb == Sending)
  }

  predicate IsPartitionStep(l: Label) {
    l.Open? || l.Push? || l.CloseInput? || l.Take? || l.RangeEnds? || l.SeeDone? || l.SeeNotDone? || l.CancelGroup?
    || l.Exit?
  }

  lemma PartitionStepIsSilent(c: Config, s: State, l: Label, i: nat)
    requires s.groupDone && Enabled(c, s, l) && i < |s.parts| && IsPartitionStep(l)
    ensures Silent(s, Apply(c, s, l), i)
  {
    hide Yield;
  }

  lemma OtherStepIsSilent(c: Config, s: State, l: Label, i: nat)
    requires s.groupDone && Enabled(c, s, l) && i < |s.parts|
    requires !IsPartitionStep(l) && !l.Send? && !l.ListFails?
    ensures Silent(s, Apply(c, s, l), i)
  {
    hide Yield, At;
  }

  lemma CommittedShrinks(c: Config, s: State, l: Label, i: nat)
    requires s.groupDone && Enabled(c, s, l) && i < |s.parts|
    ensures Apply(c, s, l).groupDone && |Apply(c, s, l).parts| == |s.parts|
    ensures Committed(Apply(c, s, l), i) <= Committed(s, i)
  {
    hide From, Yield, AnyFailed;
    if l.Send? {
      SentMore(s.sent, l.i, Yield(c.streams[l.i])[s.parts[l.i].taken - 1]);
    } else if l.ListFails? {
      SentMore(s.sent, -1, FromRpcErr(c.listErr.value));
    } else if IsPartitionStep(l) {
      PartitionStepIsSilent(c, s, l, i);
    } else {
      OtherStepIsSilent(c, s, l, i);
    }
  }

  lemma PartsLength(c: Config, run: seq<State>, k: nat)
    requires IsRun(c, run) && k < |run|
    ensures |run[k].parts| == |c.streams|
  {
    RunOk(c, run[..k + 1]);
  }

  /** Once the group is cancelled, no partition sends more than the one response it had already decided to send. */
  lemma {:induction false} CancelledGroupWindsDown(c: Config, run: seq<State>, k: nat, i: nat)
    requires IsRun(c, run) && k < |run| && run[k].groupDone && i < |c.streams|
    ensures |run[k].parts| == |run[|run| - 1].parts| == |c.streams|
    ensures run[|run| - 1].groupDone && Committed(run[|run| - 1], i) <= Committed(run[k], i)
    ensures |From(run[|run| - 1].sent, i)| <= |From(run[k].sent, i)| + 1
  {
    hide Enabled, Apply, From;
    PartsLength(c, run, k);
    if k < |run| - 1 {
      CancelledGroupWindsDown(c, run[..|run| - 1], k, i);
      assert Next(c, run[|run| - 2], run[|run| - 1]);
      var l :| Enabled(c, run[|run| - 2], l) && run[|run| - 1] == Apply(c, run[|run| - 2], l);
      CommittedShrinks(c, run[|run| - 2], l, i);
    }
  }
}
