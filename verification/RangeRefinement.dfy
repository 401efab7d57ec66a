/** The concurrent range stream against the single one (client/client_stream.go). */
module RangeRefinement {
  import opened ByteStrings
  import opened MachineInts
  import opened Wrappers
  import opened Rpc
  import opened SnapshotStore
  import opened Streams
  import opened RangeStream

  /** The reply to ListPartition. */
  datatype ListReply = ListFailed(err: Bytes) | Listed(keys: seq<Bytes>, headerRevision: U64)

  /** The request message, whose fields the single stream overwrites. */
  class RequestMessage {
    var key: Bytes
    var end: Bytes
    var limit: nat
    var revision: U64
    var filter: Option<RangeFilter>

    function Value(): RangeRequest
      reads this
    {
      RangeRequest(key, end, limit, revision, filter)
    }

    constructor (v: RangeRequest)
      ensures Value() == v
    {
      key, end, limit, revision, filter := v.key, v.end, v.limit, v.revision, v.filter;
    }
  }

  /** What the channel of the single stream carries before it closes. `open` is what the server does with a
      RangeStream call. */
  function SingleChannel(req: RangeRequest, list: ListReply, open: RangeRequest -> Stream): seq<Response> {
    match list
    case ListFailed(err) => [FromRpcErr(err)]
    case Listed(keys, rev) => if |keys| <= 1 then [] else Yield(open(WholeRequest(req, keys, rev)))
  }

  method SingleRangeStream(req: RequestMessage, list: ListReply, open: RangeRequest -> Stream)
    returns (channel: seq<Response>)
    modifies req
    ensures channel == SingleChannel(old(req.Value()), list, open)
    ensures list.ListFailed? ==>
      |channel| == 1 && channel[0].range == None && channel[0].streamErr.Err() == Some(list.err)
    ensures req.Value() == if list.Listed? && |list.keys| > 1
                           then WholeRequest(old(req.Value()), list.keys, list.headerRevision) else old(req.Value())
    ensures list.Listed? && |list.keys| > 1 ==>
      && req.key == list.keys[0] && req.end == list.keys[|list.keys| - 1]
      && req.limit == old(req.limit) && req.filter == old(req.filter)
      && req.revision == if old(req.revision) != 0 then old(req.revision) else list.headerRevision
  {
    if list.ListFailed? {
      return [FromRpcErr(list.err)];
    } else if |list.keys| <= 1 {
      return [];
    }
    req.key := list.keys[0];
    req.end := list.keys[|list.keys| - 1];
    if req.revision == 0 {
      req.revision := list.headerRevision;
    }
    match open(req.Value())
    case OpenFailed(err) => channel := [FromRpcErr(err)];
    case Opened(ms, end) => channel := FetchStreamRangeResp(ms, end);
  }

  /** The requests that the partition loop makes: each a copy of its own, with the caller's request untouched. */
  method PartitionRequests(req: RequestMessage, keys: seq<Bytes>, headerRevision: U64)
    returns (partitions: seq<RequestMessage>)
    ensures |partitions| == PartitionCount(keys)
    ensures forall i :: 0 <= i < |partitions| ==>
      fresh(partitions[i]) && partitions[i].Value() == PartitionRequest(req.Value(), keys, headerRevision, i)
    ensures forall i :: 0 <= i < |partitions| ==>
      && partitions[i].key == keys[i] && partitions[i].end == keys[i + 1]
      && partitions[i].limit == req.limit && partitions[i].filter == req.filter
      && partitions[i].revision == if req.revision != 0 then req.revision else headerRevision
    ensures forall i, j :: 0 <= i < j < |partitions| ==> partitions[i] != partitions[j]
  {
    partitions := [];
    var pNum := |keys| - 1;
    var i := 0;
    while i < pNum
      invariant 0 <= i <= PartitionCount(keys) == if pNum < 0 then 0 else pNum
      invariant |partitions| == i
      invariant forall k :: 0 <= k < i ==>
        fresh(partitions[k]) && partitions[k].Value() == PartitionRequest(req.Value(), keys, headerRevision, k)
      invariant forall k, l :: 0 <= k < l < i ==> partitions[k] != partitions[l]
    {
      var partitionReq := new RequestMessage(req.Value());
      if partitionReq.revision == 0 {
        partitionReq.revision := headerRevision;
      }
      partitionReq.key := keys[i];
      partitionReq.end := keys[i + 1];
      partitions := partitions + [partitionReq];
      i := i + 1;
    }
  }

  /** The streams of the configuration are honest answers to the partition requests, at one revision. Revision zero
      would let every partition see a newest snapshot of its own (api/v2rpc/rpc.proto). */
  ghost predicate Serves(c: Config, st: Store, req: RangeRequest, keys: seq<Bytes>, headerRevision: U64) {
    && IsSnapshotStore(st) && AscendingKeys(keys)
    && c.listErr.None?
    && |c.streams| == PartitionCount(keys)
    && (|keys| > 1 ==> Resolved(req, headerRevision) != 0)
    && forall i :: 0 <= i < |c.streams| ==>
         Honest(c.streams[i], Answer(st, PartitionRequest(req, keys, headerRevision, i)))
  }

  // ---------------------------------------------------------------- counting what was delivered

  function Responses(sent: seq<(int, Response)>): seq<Response> {
    seq(|sent|, k requires 0 <= k < |sent| => sent[k].1)
  }

  /** The pairs that a consumer takes from the output. */
  function Delivered(s: State): multiset<KeyValue> {
    multiset(PairsOf(Responses(s.sent)))
  }

  /** The pairs delivered from the first `n` partitions. */
  function DeliveredFrom(sent: seq<(int, Response)>, n: nat): multiset<KeyValue> {
    if n == 0 then multiset{} else DeliveredFrom(sent, n - 1) + multiset(PairsOf(From(sent, n - 1)))
  }

  /** What a sent response adds to what partition `i` delivered. */
  lemma FromAppend(sent: seq<(int, Response)>, j: nat, r: Response, i: nat)
    ensures multiset(PairsOf(From(sent + [(j, r)], i)))
         == multiset(PairsOf(From(sent, i))) + if i == j then multiset(r.Pairs()) else multiset{}
  {
    hide PairsOf, From;
    SentMore(sent, j, r);
    if i == j {
      PairsAppend(From(sent, i), r);
    }
  }

  lemma {:induction false} DeliveredFromAppend(sent: seq<(int, Response)>, j: nat, r: Response, n: nat)
    ensures DeliveredFrom(sent + [(j, r)], n)
         == DeliveredFrom(sent, n) + if j < n then multiset(r.Pairs()) else multiset{}
  {
    hide PairsOf, From;
    if n > 0 {
      DeliveredFromAppend(sent, j, r, n - 1);
      FromAppend(sent, j, r, n - 1);
    }
  }

  lemma PairsAppend(d: seq<Response>, r: Response)
    ensures PairsOf(d + [r]) == PairsOf(d) + r.Pairs()
  {
    assert (d + [r])[..|d|] == d;
  }

  lemma {:induction false} NothingFrom(n: nat)
    ensures DeliveredFrom([], n) == multiset{}
  {
    if n > 0 {
      NothingFrom(n - 1);
    }
  }

  lemma ResponsesAppend(sent: seq<(int, Response)>, j: int, r: Response)
    ensures Responses(sent + [(j, r)]) == Responses(sent) + [r]
  {
  }

  /** Grouped by partition, the output loses nothing. */
  lemma {:induction false} DeliveredByPartition(sent: seq<(int, Response)>, n: nat)
    requires forall k :: 0 <= k < |sent| ==> 0 <= sent[k].0 < n
    ensures multiset(PairsOf(Responses(sent))) == DeliveredFrom(sent, n)
  {
    hide PairsOf, DeliveredFrom, From, Responses;
    if sent == [] {
      NothingFrom(n);
      NoResponses();
    } else {
      var front, last := sent[..|sent| - 1], sent[|sent| - 1];
      assert sent == front + [(last.0, last.1)];
      DeliveredByPartition(front, n);
      DeliveredFromAppend(front, last.0, last.1, n);
      ResponsesAppend(front, last.0, last.1);
      PairsAppend(Responses(front), last.1);
    }
  }

  lemma NoResponses()
    ensures PairsOf(Responses([])) == []
  {
  }

  // ---------------------------------------------------------------- the results

  /** Delivered responses of which only the last may have failed carry a front part of the answer. */
  lemma DeliveredPart(stream: Stream, d: seq<Response>, answer: seq<KeyValue>)
    requires Honest(stream, answer) && d <= Yield(stream) && CleanButLast(d)
    ensures PairsOf(d) <= answer
  {
    hide Yield;
    var y := Yield(stream);
    if d == [] {
    } else if d[|d| - 1].Failed() {
      assert y[..|d| - 1] == d[..|d| - 1];
      assert Clean(y[..|d| - 1]) && PairsOf(d) == PairsOf(d[..|d| - 1]) + [];
    } else {
      assert y[..|d|] == d;
      assert Clean(y[..|d|]);
    }
  }

  lemma PrefixIsIncluded(a: seq<KeyValue>, b: seq<KeyValue>)
    requires a <= b
    ensures multiset(a) <= multiset(b)
  {
    assert b == a + b[|a|..];
  }

  lemma OneWithinAnswer(
    c: Config, s: State, st: Store, req: RangeRequest, keys: seq<Bytes>, headerRevision: U64, i: nat)
    requires Serves(c, st, req, keys, headerRevision) && Inv(c, s) && i < |c.streams|
    ensures multiset(PairsOf(From(s.sent, i)))
         <= multiset(Answer(st, PartitionRequest(req, keys, headerRevision, i)))
  {
    hide Honest, Yield, Answer, Inv, PairsOf, From, PartitionRequest;
    var d, answer := From(s.sent, i), Answer(st, PartitionRequest(req, keys, headerRevision, i));
    DeliveredIsPrefix(c, s, i);
    DeliveredPart(c.streams[i], d, answer);
    PrefixIsIncluded(PairsOf(d), answer);
  }

  lemma {:induction false} DeliveredWithinAnswers(
    c: Config, s: State, st: Store, req: RangeRequest, keys: seq<Bytes>, headerRevision: U64, n: nat)
    requires Serves(c, st, req, keys, headerRevision) && Inv(c, s) && n <= |c.streams| == PartitionCount(keys)
    ensures DeliveredFrom(s.sent, n) <= multiset(PartitionAnswers(st, req, keys, headerRevision, n))
  {
    hide Serves, Answer, Inv, PairsOf, From, PartitionRequest;
    if n > 0 {
      DeliveredWithinAnswers(c, s, st, req, keys, headerRevision, n - 1);
      OneWithinAnswer(c, s, st, req, keys, headerRevision, n - 1);
    }
  }

  /** In every run, with faults and cancellation at any point, a consumer is never given a pair that the partitions
      do not hold, nor a pair more often than they hold it. */
  lemma NothingExtra(
    c: Config, run: seq<State>, st: Store, req: RangeRequest, keys: seq<Bytes>, headerRevision: U64)
    requires Serves(c, st, req, keys, headerRevision) && IsRun(c, run)
    ensures Delivered(run[|run| - 1]) <= multiset(PartitionAnswers(st, req, keys, headerRevision, |c.streams|))
    ensures req.limit == 0 && |keys| > 1 ==>
      Delivered(run[|run| - 1]) <= multiset(Answer(st, WholeRequest(req, keys, headerRevision)))
  {
    var s := run[|run| - 1];
    RunOk(c, run);
    DeliveredByPartition(s.sent, |c.streams|);
    DeliveredWithinAnswers(c, s, st, req, keys, headerRevision, |c.streams|);
    if req.limit == 0 && |keys| > 1 {
      PartitionsTileRange(st, req, keys, headerRevision, |c.streams|);
    }
  }

  lemma {:induction false} AllAnswersDelivered(
    c: Config, s: State, st: Store, req: RangeRequest, keys: seq<Bytes>, headerRevision: U64, n: nat)
    requires Serves(c, st, req, keys, headerRevision) && n <= |c.streams|
    requires forall i :: 0 <= i < |c.streams| ==> From(s.sent, i) == Yield(c.streams[i]) && Clean(Yield(c.streams[i]))
    ensures DeliveredFrom(s.sent, n) == multiset(PartitionAnswers(st, req, keys, headerRevision, n))
  {
    hide Yield, Answer, PairsOf, From;
    if n > 0 {
      AllAnswersDelivered(c, s, st, req, keys, headerRevision, n - 1);
      assert Honest(c.streams[n - 1], Answer(st, PartitionRequest(req, keys, headerRevision, n - 1)));
    }
  }

  /** The output is closed, and the consumer has seen no fault and caused none. */
  ghost predicate EndedWithoutFault(s: State) {
    s.closed && !s.cancelled && forall k :: 0 <= k < |s.sent| ==> !s.sent[k].1.Failed()
  }

  lemma EveryPartitionDelivered(
    c: Config, run: seq<State>, st: Store, req: RangeRequest, keys: seq<Bytes>, headerRevision: U64)
    requires Serves(c, st, req, keys, headerRevision) && IsRun(c, run) && EndedWithoutFault(run[|run| - 1])
    ensures Delivered(run[|run| - 1]) == multiset(PartitionAnswers(st, req, keys, headerRevision, |c.streams|))
  {
    var s := run[|run| - 1];
    RunOk(c, run);
    NoSilentTruncation(c, run);
    forall i | 0 <= i < |c.streams| ensures Clean(Yield(c.streams[i])) {
      assert PartitionOk(c, s, i);
    }
    AllAnswersDelivered(c, s, st, req, keys, headerRevision, |c.streams|);
    DeliveredByPartition(s.sent, |c.streams|);
  }

  /** A run that ends without a fault delivers the range from the snapshot that the caller asked for, whatever the
      header revision is; only a caller that names no revision is served from the header's. */
  lemma RequestedSnapshotIsDelivered(
    c: Config, run: seq<State>, st: Store, req: RangeRequest, keys: seq<Bytes>, headerRevision: U64)
    requires Serves(c, st, req, keys, headerRevision) && IsRun(c, run) && EndedWithoutFault(run[|run| - 1])
    requires req.limit == 0 && |keys| > 1
    ensures req.revision != 0 ==>
      Delivered(run[|run| - 1]) == multiset(Between(st.visible(req.revision, req.filter), keys[0], keys[|keys| - 1]))
    ensures req.revision == 0 ==>
      Delivered(run[|run| - 1]) == multiset(Between(st.visible(headerRevision, req.filter), keys[0], keys[|keys| - 1]))
  {
    hide Delivered, Between, EndedWithoutFault, IsRun;
    EveryPartitionDelivered(c, run, st, req, keys, headerRevision);
    PartitionsTileRange(st, req, keys, headerRevision, |c.streams|);
  }

  /** A single stream that ends without a fault, of a server that answers honestly. */
  ghost predicate SingleServed(
    st: Store, req: RangeRequest, keys: seq<Bytes>, headerRevision: U64, open: RangeRequest -> Stream)
  {
    && Clean(SingleChannel(req, Listed(keys, headerRevision), open))
    && (|keys| > 1 ==> Honest(open(WholeRequest(req, keys, headerRevision)),
                              Answer(st, WholeRequest(req, keys, headerRevision))))
  }

  /** The pairs that a consumer takes from the single stream. */
  function SingleDelivered(
    req: RangeRequest, keys: seq<Bytes>, headerRevision: U64, open: RangeRequest -> Stream): multiset<KeyValue>
  {
    multiset(PairsOf(SingleChannel(req, Listed(keys, headerRevision), open)))
  }

  lemma SingleDeliversAnswer(
    st: Store, req: RangeRequest, keys: seq<Bytes>, headerRevision: U64, open: RangeRequest -> Stream)
    requires SingleServed(st, req, keys, headerRevision, open)
    ensures SingleDelivered(req, keys, headerRevision, open)
         == if |keys| <= 1 then multiset{} else multiset(Answer(st, WholeRequest(req, keys, headerRevision)))
  {
    hide Answer;
    if |keys| > 1 {
      CleanIff(open(WholeRequest(req, keys, headerRevision)));
    }
  }

  /** Without a limit, every interleaving that ends without a visible fault delivers the pairs of a fault-free
      single stream over the same partition list, each as often. */
  lemma ConcurrentRefinesSingle(
    c: Config, run: seq<State>, st: Store, req: RangeRequest, keys: seq<Bytes>, headerRevision: U64,
    open: RangeRequest -> Stream)
    requires Serves(c, st, req, keys, headerRevision) && IsRun(c, run) && EndedWithoutFault(run[|run| - 1])
    requires SingleServed(st, req, keys, headerRevision, open) && req.limit == 0
    ensures Delivered(run[|run| - 1]) == SingleDelivered(req, keys, headerRevision, open)
  {
    hide Delivered, SingleDelivered, Answer, SingleServed, EndedWithoutFault, IsRun, PairsOf;
    EveryPartitionDelivered(c, run, st, req, keys, headerRevision);
    SingleDeliversAnswer(st, req, keys, headerRevision, open);
    if |keys| > 1 {
      PartitionsTileRange(st, req, keys, headerRevision, |c.streams|);
    }
  }

  /** The range holds no more than the limit, or one partition holds all of it. */
  ghost predicate LimitFits(st: Store, req: RangeRequest, keys: seq<Bytes>, headerRevision: U64) {
    |keys| <= 1 || FitsLimit(st, req, keys, headerRevision, PartitionCount(keys))
  }

  lemma DeliveredWithinLimitIff(
    c: Config, run: seq<State>, st: Store, req: RangeRequest, keys: seq<Bytes>, headerRevision: U64)
    requires Serves(c, st, req, keys, headerRevision) && IsRun(c, run) && EndedWithoutFault(run[|run| - 1])
    requires req.limit > 0
    ensures |Delivered(run[|run| - 1])| <= req.limit <==> LimitFits(st, req, keys, headerRevision)
    ensures LimitFits(st, req, keys, headerRevision) ==>
      Delivered(run[|run| - 1])
        == if |keys| <= 1 then multiset{} else multiset(Answer(st, WholeRequest(req, keys, headerRevision)))
  {
    hide Delivered, EndedWithoutFault, IsRun, Between, FitsLimit;
    EveryPartitionDelivered(c, run, st, req, keys, headerRevision);
    if |keys| > 1 {
      LimitKeptIff(st, req, keys, headerRevision, |c.streams|);
    }
  }

  /** With a limit, the concurrent stream still delivers every pair of the single stream, and up to the limit from each
      partition. It delivers no more than its limit exactly when the range holds no more or one partition holds all of
      it, and exactly then it delivers what the single stream does. */
  lemma LimitedConcurrentCoversSingle(
    c: Config, run: seq<State>, st: Store, req: RangeRequest, keys: seq<Bytes>, headerRevision: U64,
    open: RangeRequest -> Stream)
    requires Serves(c, st, req, keys, headerRevision) && IsRun(c, run) && EndedWithoutFault(run[|run| - 1])
    requires SingleServed(st, req, keys, headerRevision, open) && req.limit > 0
    ensures SingleDelivered(req, keys, headerRevision, open) <= Delivered(run[|run| - 1])
    ensures |Delivered(run[|run| - 1])| <= req.limit * |c.streams|
    ensures |Delivered(run[|run| - 1])| <= req.limit <==> LimitFits(st, req, keys, headerRevision)
    ensures Delivered(run[|run| - 1]) == SingleDelivered(req, keys, headerRevision, open)
       <==> LimitFits(st, req, keys, headerRevision)
  {
    hide Delivered, SingleDelivered, SingleServed, EndedWithoutFault, IsRun, Between, LimitFits;
    EveryPartitionDelivered(c, run, st, req, keys, headerRevision);
    SingleDeliversAnswer(st, req, keys, headerRevision, open);
    DeliveredWithinLimitIff(c, run, st, req, keys, headerRevision);
    if |keys| > 1 {
      var n := |c.streams|;
      LimitedPartitionsCover(st, req, keys, headerRevision, n);
      PrefixIsIncluded(First(req.limit, WholeRange(st, req, keys, headerRevision, n)),
                       PartitionAnswers(st, req, keys, headerRevision, n));
    }
  }
}
