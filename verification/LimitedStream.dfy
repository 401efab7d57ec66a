/** Limited range streams (client/client_stream.go): every partition is given the whole limit, so the concurrent stream
    can deliver more than the limit, and when it can. */
module LimitedStream {
  import opened ByteStrings
  import opened MachineInts
  import opened Wrappers
  import opened Rpc
  import opened SnapshotStore
  import opened Streams
  import opened RangeStream
  import opened RangeRefinement
  import RangeTermination

  /** If the partitions can be listed and their streams carry no error, some run ends without a fault. */
  lemma SomeRunEndsWithoutFault(c: Config) returns (run: seq<State>)
    requires c.listErr.None? && forall i :: 0 <= i < |c.streams| ==> Clean(Yield(c.streams[i]))
    ensures IsRun(c, run) && EndedWithoutFault(run[|run| - 1])
  {
    hide Yield;
    run := RangeTermination.EveryRunCanFinish(c, [Start(c)]);
    RangeTermination.CleanStreamsSendClean(c, run);
  }

  ghost predicate ExceedsLimit(c: Config, run: seq<State>, limit: nat) {
    IsRun(c, run) && EndedWithoutFault(run[|run| - 1]) && |Delivered(run[|run| - 1])| > limit
  }

  /** Some run without any fault delivers more than the limit, unless the range holds no more or one partition holds
      all of it. */
  lemma LimitExceededIff(
    c: Config, st: Store, req: RangeRequest, keys: seq<Bytes>, headerRevision: U64)
    requires Serves(c, st, req, keys, headerRevision) && req.limit > 0
    requires forall i :: 0 <= i < |c.streams| ==> Clean(Yield(c.streams[i]))
    ensures (exists run :: ExceedsLimit(c, run, req.limit)) <==> !LimitFits(st, req, keys, headerRevision)
  {
    hide Yield, Delivered, LimitFits, EndedWithoutFault;
    hide Honest, IsSnapshotStore, AscendingKeys;
    forall run | IsRun(c, run) && EndedWithoutFault(run[|run| - 1])
      ensures |Delivered(run[|run| - 1])| <= req.limit <==> LimitFits(st, req, keys, headerRevision)
    {
      DeliveredWithinLimitIff(c, run, st, req, keys, headerRevision);
    }
    var run := SomeRunEndsWithoutFault(c);
    assert ExceedsLimit(c, run, req.limit) <==> !LimitFits(st, req, keys, headerRevision);
  }

  // ---------------------------------------------------------------- an input that exceeds its limit

  const A: KeyValue := KeyValue([1], 1, [], [])
  const B: KeyValue := KeyValue([2], 1, [], [])
  const TWO_PAIRS: Store := Store((rev, filter) => [A, B])
  const PARTITION_KEYS: seq<Bytes> := [[1], [2], [3]]
  const FIRST_ONLY: RangeRequest := RangeRequest([1], [3], 1, 1, None)

  function OnePair(kv: KeyValue): Stream {
    Opened([Message(Some(RangeResponse(None, [kv], false, [])), [])], Eof)
  }

  const TWO_STREAMS: Config := Config(2, None, [OnePair(A), OnePair(B)])

  /** The keys 1 and 2 in two partitions, and a request for one pair: the single stream delivers one, the concurrent
      stream both. A maximum other than one is what makes the stream a concurrent one (client/client_stream.go). */
  lemma LimitOneDeliversTwo() returns (c: Config, run: seq<State>)
    ensures c.maxConcurrent != 1 && Serves(c, TWO_PAIRS, FIRST_ONLY, PARTITION_KEYS, 1)
    ensures IsRun(c, run) && EndedWithoutFault(run[|run| - 1])
    ensures Delivered(run[|run| - 1]) == multiset{A, B}
    ensures Answer(TWO_PAIRS, WholeRequest(FIRST_ONLY, PARTITION_KEYS, 1)) == [A]
  {
    c := TWO_STREAMS;
    hide Serves, Delivered, PartitionAnswers, Answer, IsRun, EndedWithoutFault, Yield, Clean;
    TwoStreamsServe();
    PairAnswers();
    run := SomeRunEndsWithoutFault(c);
    EveryPartitionDelivered(c, run, TWO_PAIRS, FIRST_ONLY, PARTITION_KEYS, 1);
    assert multiset([A, B]) == multiset{A, B};
  }

  lemma TwoStreamsServe()
    ensures Serves(TWO_STREAMS, TWO_PAIRS, FIRST_ONLY, PARTITION_KEYS, 1)
    ensures forall i :: 0 <= i < |TWO_STREAMS.streams| ==> Clean(Yield(TWO_STREAMS.streams[i]))
  {
    hide Honest, Yield, Clean, Answer, IsSnapshotStore, AscendingKeys, PartitionRequest;
    PairAnswers();
    OnePairIsHonest(A);
    OnePairIsHonest(B);
  }

  lemma OnePairIsHonest(kv: KeyValue)
    ensures Clean(Yield(OnePair(kv))) && Honest(OnePair(kv), [kv])
  {
    var y := Yield(OnePair(kv));
    assert |y| == 1 && y[0].Pairs() == [kv];
    forall k | 0 <= k <= 1 ensures PairsOf(y[..k]) <= [kv] {
    }
    assert y[..1] == y && y[..0] == [];
  }

  lemma LeOneByte(x: Byte, y: Byte)
    ensures Le([x], [y]) <==> x <= y
    ensures Lt([x], [y]) <==> x < y
  {
    assert [x][1..] == [] && [y][1..] == [];
    assert x == y <==> [x][0] == [y][0];
  }

  /** What of the two pairs lies between two one-byte keys. */
  lemma PairsBetween(lo: Byte, hi: Byte)
    ensures Between([A, B], [lo], [hi]) == (if lo <= 1 < hi then [A] else []) + (if lo <= 2 < hi then [B] else [])
  {
    hide Le, Lt;
    LeOneByte(lo, 1);
    LeOneByte(lo, 2);
    LeOneByte(1, hi);
    LeOneByte(2, hi);
    assert [A, B][1..] == [B] && [B][1..] == [];
    assert Between([B], [lo], [hi]) == if lo <= 2 < hi then [B] else [];
  }

  lemma PairAnswers()
    ensures IsSnapshotStore(TWO_PAIRS) && AscendingKeys(PARTITION_KEYS)
    ensures Answer(TWO_PAIRS, PartitionRequest(FIRST_ONLY, PARTITION_KEYS, 1, 0)) == [A]
    ensures Answer(TWO_PAIRS, PartitionRequest(FIRST_ONLY, PARTITION_KEYS, 1, 1)) == [B]
    ensures Answer(TWO_PAIRS, WholeRequest(FIRST_ONLY, PARTITION_KEYS, 1)) == [A]
    ensures PartitionAnswers(TWO_PAIRS, FIRST_ONLY, PARTITION_KEYS, 1, 2) == [A, B]
  {
    hide Le, Lt, Between;
    PairsBetween(1, 2);
    PairsBetween(2, 3);
    PairsBetween(1, 3);
    LeOneByte(1, 2);
    forall i, j | 0 <= i <= j < 3 ensures Le(PARTITION_KEYS[i], PARTITION_KEYS[j]) {
      LeOneByte(i + 1, j + 1);
    }
    assert PartitionAnswers(TWO_PAIRS, FIRST_ONLY, PARTITION_KEYS, 1, 1) == [] + [A];
  }
}
