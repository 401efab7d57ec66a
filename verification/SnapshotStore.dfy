/** The server as the range stream sees it (api/v2rpc/rpc.proto), and how a range splits into partitions. */
module SnapshotStore {
  import opened ByteStrings
  import opened MachineInts
  import opened Wrappers
  import opened Rpc

  datatype RangeFilter = RangeFilter(hash: nat, trimPrefix: Bytes, shardCount: int, shardIndex: int)

  datatype RangeRequest =
    RangeRequest(key: Bytes, end: Bytes, limit: nat, revision: U64, filter: Option<RangeFilter>)

  /** `visible(rev, f)` lists the pairs of the snapshot at `rev` that pass the filter, in key order. */
  datatype Store = Store(visible: (U64, Option<RangeFilter>) -> seq<KeyValue>)

  ghost predicate Ascending(kvs: seq<KeyValue>) {
    forall i, j :: 0 <= i < j < |kvs| ==> Lt(kvs[i].key, kvs[j].key)
  }

  ghost predicate IsSnapshotStore(st: Store) {
    forall rev, f :: Ascending(st.visible(rev, f))
  }

  predicate InRange(k: Bytes, lo: Bytes, hi: Bytes) {
    Le(lo, k) && Lt(k, hi)
  }

  /** The pairs with a key in the half-open range [lo, hi). */
  function Between(kvs: seq<KeyValue>, lo: Bytes, hi: Bytes): seq<KeyValue> {
    if kvs == [] then []
    else (if InRange(kvs[0].key, lo, hi) then [kvs[0]] else []) + Between(kvs[1..], lo, hi)
  }

  /** The first `limit` pairs; zero is no limit. */
  function First(limit: nat, kvs: seq<KeyValue>): seq<KeyValue> {
    if limit == 0 || |kvs| <= limit then kvs else kvs[..limit]
  }

  /** All pairs that a request asks for. */
  function Answer(st: Store, req: RangeRequest): seq<KeyValue> {
    First(req.limit, Between(st.visible(req.revision, req.filter), req.key, req.end))
  }

  predicate AscendingKeys(keys: seq<Bytes>) {
    forall i, j :: 0 <= i <= j < |keys| ==> Le(keys[i], keys[j])
  }

  /** How many ranges a list of partition keys bounds. */
  function PartitionCount(keys: seq<Bytes>): nat {
    if |keys| <= 1 then 0 else |keys| - 1
  }

  /** The revision at which a request is answered. */
  function Resolved(req: RangeRequest, headerRevision: U64): U64 {
    if req.revision == 0 then headerRevision else req.revision
  }

  /** The request for one partition. The limit is copied whole. */
  function PartitionRequest(req: RangeRequest, keys: seq<Bytes>, headerRevision: U64, i: nat): RangeRequest
    requires i < PartitionCount(keys)
  {
    req.(key := keys[i], end := keys[i + 1],
         revision := Resolved(req, headerRevision))
  }

  /** The request of the single stream, from the first partition key to the last. */
  function WholeRequest(req: RangeRequest, keys: seq<Bytes>, headerRevision: U64): RangeRequest
    requires |keys| > 1
  {
    req.(key := keys[0], end := keys[|keys| - 1],
         revision := Resolved(req, headerRevision))
  }

  /** Every pair of the first `n` partitions, whatever the limit. */
  ghost function WholeRange(st: Store, req: RangeRequest, keys: seq<Bytes>, headerRevision: U64, n: nat): seq<KeyValue>
    requires n < |keys|
  {
    Between(st.visible(Resolved(req, headerRevision), req.filter), keys[0], keys[n])
  }

  /** Every pair of partition `i`, whatever the limit. */
  ghost function PartitionRange(st: Store, req: RangeRequest, keys: seq<Bytes>, headerRevision: U64, i: nat)
    : seq<KeyValue>
    requires i < PartitionCount(keys)
  {
    Between(st.visible(Resolved(req, headerRevision), req.filter), keys[i], keys[i + 1])
  }

  /** What all partitions together are asked for, in partition order, up to partition `n`. */
  ghost function PartitionAnswers(st: Store, req: RangeRequest, keys: seq<Bytes>, headerRevision: U64, n: nat)
    : seq<KeyValue>
    requires n <= PartitionCount(keys)
  {
    if n == 0 then []
    else PartitionAnswers(st, req, keys, headerRevision, n - 1)
         + Answer(st, PartitionRequest(req, keys, headerRevision, n - 1))
  }

  // ---------------------------------------------------------------- tiling

  lemma {:induction false} NoneBelow(kvs: seq<KeyValue>, lo: Bytes, hi: Bytes)
    requires forall i :: 0 <= i < |kvs| ==> Le(hi, kvs[i].key)
    ensures Between(kvs, lo, hi) == []
  {
    if kvs != [] {
      LtIffNotLe(kvs[0].key, hi);
      NoneBelow(kvs[1..], lo, hi);
    }
  }

  /** A key of the whole range is in one of its two parts, not in both. */
  lemma KeySplits(k: Bytes, lo: Bytes, mid: Bytes, hi: Bytes)
    requires Le(lo, mid) && Le(mid, hi)
    ensures InRange(k, lo, hi) <==> InRange(k, lo, mid) || InRange(k, mid, hi)
    ensures !InRange(k, lo, mid) || !InRange(k, mid, hi)
  {
    hide Le;
    LtIffNotLe(k, mid);
    if Lt(k, mid) {
      LtTransitive(k, mid, hi);
    } else {
      LeTransitive(lo, mid, k);
    }
  }

  /** Two adjacent half-open ranges share no key and lose none. */
  lemma {:induction false} BetweenSplits(kvs: seq<KeyValue>, lo: Bytes, mid: Bytes, hi: Bytes)
    requires Ascending(kvs) && Le(lo, mid) && Le(mid, hi)
    ensures Between(kvs, lo, mid) + Between(kvs, mid, hi) == Between(kvs, lo, hi)
  {
    hide Le, Lt;
    if kvs != [] {
      var k, rest := kvs[0].key, kvs[1..];
      KeySplits(k, lo, mid, hi);
      if InRange(k, mid, hi) {
        forall i | 0 <= i < |rest| ensures Le(mid, rest[i].key) {
          LtTransitive(mid, k, rest[i].key);
          LtIsLe(mid, rest[i].key);
        }
        NoneBelow(rest, lo, mid);
      }
      hide InRange;
      BetweenSplits(rest, lo, mid, hi);
    }
  }

  lemma {:induction false} EmptyRange(kvs: seq<KeyValue>, k: Bytes)
    ensures Between(kvs, k, k) == []
  {
    if kvs != [] {
      LtIffNotLe(kvs[0].key, k);
      EmptyRange(kvs[1..], k);
    }
  }

  /** One partition more: what is asked for, and what there is. */
  lemma OnePartitionMore(st: Store, req: RangeRequest, keys: seq<Bytes>, headerRevision: U64, n: nat)
    requires IsSnapshotStore(st) && AscendingKeys(keys) && 0 < n <= PartitionCount(keys)
    ensures WholeRange(st, req, keys, headerRevision, n)
         == WholeRange(st, req, keys, headerRevision, n - 1) + PartitionRange(st, req, keys, headerRevision, n - 1)
    ensures PartitionAnswers(st, req, keys, headerRevision, n)
         == PartitionAnswers(st, req, keys, headerRevision, n - 1)
            + First(req.limit, PartitionRange(st, req, keys, headerRevision, n - 1))
  {
    hide Between, First;
    BetweenSplits(st.visible(Resolved(req, headerRevision), req.filter), keys[0], keys[n - 1], keys[n]);
  }

  lemma NothingBeforeFirst(st: Store, req: RangeRequest, keys: seq<Bytes>, headerRevision: U64)
    requires |keys| > 1
    ensures WholeRange(st, req, keys, headerRevision, 0) == []
    ensures PartitionAnswers(st, req, keys, headerRevision, 0) == []
  {
    EmptyRange(st.visible(Resolved(req, headerRevision), req.filter), keys[0]);
  }

  /** Without a limit, the partitions of an ascending list ask for exactly the whole range, in order. */
  lemma {:induction false} PartitionsTileRange(
    st: Store, req: RangeRequest, keys: seq<Bytes>, headerRevision: U64, n: nat)
    requires IsSnapshotStore(st) && AscendingKeys(keys) && req.limit == 0
    requires |keys| > 1 && n <= PartitionCount(keys)
    ensures PartitionAnswers(st, req, keys, headerRevision, n)
         == Answer(st, WholeRequest(req, keys, headerRevision).(end := keys[n]))
  {
    hide Between, PartitionRange;
    if n == 0 {
      NothingBeforeFirst(st, req, keys, headerRevision);
    } else {
      PartitionsTileRange(st, req, keys, headerRevision, n - 1);
      OnePartitionMore(st, req, keys, headerRevision, n);
    }
  }

  // ---------------------------------------------------------------- limits

  /** The range holds no more than the limit, or one partition holds all of it. */
  ghost predicate FitsLimit(st: Store, req: RangeRequest, keys: seq<Bytes>, headerRevision: U64, n: nat)
    requires |keys| > 1 && n <= PartitionCount(keys)
  {
    || |WholeRange(st, req, keys, headerRevision, n)| <= req.limit
    || exists i: nat | i < n ::
         |PartitionRange(st, req, keys, headerRevision, i)| == |WholeRange(st, req, keys, headerRevision, n)|
  }

  /** When `got` begins with the first pairs of `all`, and is all of it within the limit, then so does what follows. */
  lemma FirstExtends(limit: nat, all: seq<KeyValue>, got: seq<KeyValue>, more: seq<KeyValue>)
    requires limit > 0 && First(limit, all) <= got && (|all| <= limit ==> got == all)
    ensures First(limit, all + more) <= got + First(limit, more)
    ensures |all + more| <= limit ==> got + First(limit, more) == all + more
  {
    if |all| >= limit {
      assert First(limit, all + more) == First(limit, all) + [];
    } else if |all + more| > limit {
      assert (all + more)[..limit] == all + more[..limit - |all|];
    }
  }

  /** With a limit, the partitions together ask for the pairs of the single stream before any others: for no more than
      the limit from each partition, and for nothing twice. */
  lemma {:induction false} LimitedPartitionsCover(
    st: Store, req: RangeRequest, keys: seq<Bytes>, headerRevision: U64, n: nat)
    requires IsSnapshotStore(st) && AscendingKeys(keys) && req.limit > 0
    requires |keys| > 1 && n <= PartitionCount(keys)
    ensures First(req.limit, WholeRange(st, req, keys, headerRevision, n))
         <= PartitionAnswers(st, req, keys, headerRevision, n)
    ensures |WholeRange(st, req, keys, headerRevision, n)| <= req.limit ==>
      PartitionAnswers(st, req, keys, headerRevision, n) == WholeRange(st, req, keys, headerRevision, n)
    ensures |PartitionAnswers(st, req, keys, headerRevision, n)| <= |WholeRange(st, req, keys, headerRevision, n)|
    ensures |PartitionAnswers(st, req, keys, headerRevision, n)| <= req.limit * n
  {
    hide Between, WholeRange, PartitionRange;
    if n == 0 {
      NothingBeforeFirst(st, req, keys, headerRevision);
    } else {
      var all, got := WholeRange(st, req, keys, headerRevision, n - 1),
                      PartitionAnswers(st, req, keys, headerRevision, n - 1);
      LimitedPartitionsCover(st, req, keys, headerRevision, n - 1);
      OnePartitionMore(st, req, keys, headerRevision, n);
      FirstExtends(req.limit, all, got, PartitionRange(st, req, keys, headerRevision, n - 1));
      assert req.limit * n == req.limit * (n - 1) + req.limit;
    }
  }

  /** The partitions together ask for no more than the limit exactly when the range holds no more than that, or one
      partition holds all of it. Then they ask for the same pairs as the single stream. */
  lemma {:induction false} LimitKeptIff(
    st: Store, req: RangeRequest, keys: seq<Bytes>, headerRevision: U64, n: nat)
    requires IsSnapshotStore(st) && AscendingKeys(keys) && req.limit > 0
    requires |keys| > 1 && n <= PartitionCount(keys)
    ensures |PartitionAnswers(st, req, keys, headerRevision, n)| <= req.limit
       <==> FitsLimit(st, req, keys, headerRevision, n)
    ensures FitsLimit(st, req, keys, headerRevision, n) ==>
      PartitionAnswers(st, req, keys, headerRevision, n)
        == First(req.limit, WholeRange(st, req, keys, headerRevision, n))
  {
    hide Between, WholeRange, PartitionRange, PartitionAnswers;
    LimitedPartitionsCover(st, req, keys, headerRevision, n);
    if n == 0 {
      NothingBeforeFirst(st, req, keys, headerRevision);
    } else {
      var all, last := WholeRange(st, req, keys, headerRevision, n),
                       PartitionRange(st, req, keys, headerRevision, n - 1);
      LimitKeptIff(st, req, keys, headerRevision, n - 1);
      LimitedPartitionsCover(st, req, keys, headerRevision, n - 1);
      OnePartitionMore(st, req, keys, headerRevision, n);
      if last != [] && |PartitionAnswers(st, req, keys, headerRevision, n)| <= req.limit < |all| {
        assert WholeRange(st, req, keys, headerRevision, n - 1) == [];
        assert |last| == |all|;
      }
      if i: nat :| i < n && |PartitionRange(st, req, keys, headerRevision, i)| == |all| && i < n - 1 {
        PartitionWithin(st, req, keys, headerRevision, n - 1, i);
      }
    }
  }

  lemma {:induction false} PartitionWithin(
    st: Store, req: RangeRequest, keys: seq<Bytes>, headerRevision: U64, n: nat, i: nat)
    requires IsSnapshotStore(st) && AscendingKeys(keys) && i < n <= PartitionCount(keys)
    ensures |PartitionRange(st, req, keys, headerRevision, i)| <= |WholeRange(st, req, keys, headerRevision, n)|
  {
    hide WholeRange, PartitionRange, PartitionAnswers;
    OnePartitionMore(st, req, keys, headerRevision, n);
    if i < n - 1 {
      PartitionWithin(st, req, keys, headerRevision, n - 1, i);
    }
  }
}
