/** Runs of registrations and unregistrations (client/balancer/picker/leader_ctrl.go) against a plain count. */
module RegistryRuns {
  import opened ByteStrings
  import opened ClusterKey
  import opened Registry

  /** A client that opens (with what its leader check says) or closes. */
  datatype Op = Register(eps: seq<Endpoint>, probed: Bytes) | Unregister(eps: seq<Endpoint>)

  /** The registry after the operations, and whether one of them panicked; a panic is the end. */
  function Run(ops: seq<Op>): (Registry, bool) {
    if ops == [] then (EMPTY, false)
    else
      var (r, panicked) := Run(ops[..|ops| - 1]);
      if panicked then (r, true)
      else match ops[|ops| - 1]
           case Register(eps, probed) => Update(r, eps, 1, probed)
           case Unregister(eps) => Update(r, eps, -1, [])
  }

  /** Registrations of the cluster that are not yet undone: up by one, down by one but not below zero. */
  function Open(ops: seq<Op>, m: multiset<Endpoint>): nat {
    if ops == [] then 0
    else
      var before := Open(ops[..|ops| - 1], m);
      var op := ops[|ops| - 1];
      if multiset(op.eps) != m then before
      else if op.Register? then before + 1
      else if before == 0 then 0 else before - 1
  }

  /** The count as a map of the live clusters. */
  ghost function Counts(ops: seq<Op>): map<multiset<Endpoint>, int> {
    if ops == [] then map[]
    else
      var op := ops[|ops| - 1];
      Count(Counts(ops[..|ops| - 1]), multiset(op.eps), if op.Register? then 1 else -1)
  }

  /** Every list is a cluster, and is one of those that are open at that moment or shares no endpoint with any. */
  ghost predicate GoodOps(ops: seq<Op>) {
    ops == [] || (GoodOps(ops[..|ops| - 1]) && Fits(ops[|ops| - 1].eps, Counts(ops[..|ops| - 1])))
  }

  lemma {:induction false} CountsAreOpen(ops: seq<Op>, m: multiset<Endpoint>)
    ensures m in Counts(ops) <==> Open(ops, m) > 0
    ensures m in Counts(ops) ==> Counts(ops)[m] == Open(ops, m)
  {
    if ops != [] {
      CountsAreOpen(ops[..|ops| - 1], m);
    }
  }

  lemma {:induction false} CountsAreListed(ops: seq<Op>, m: multiset<Endpoint>)
    requires m in Counts(ops)
    ensures exists i :: 0 <= i < |ops| && m == multiset(ops[i].eps)
  {
    if m != multiset(ops[|ops| - 1].eps) {
      var front := ops[..|ops| - 1];
      CountsAreListed(front, m);
      var i :| 0 <= i < |front| && m == multiset(front[i].eps);
      assert ops[i] == front[i];
    }
  }

  lemma {:induction false} RunHolds(ops: seq<Op>)
    requires GoodOps(ops)
    ensures !Run(ops).1 && Holds(Run(ops).0, Counts(ops))
  {
    hide Holds, Update, Fits, Count;
    if ops == [] {
      assert Holds(EMPTY, map[]) by { EmptyHolds(); }
    } else {
      var front, op := ops[..|ops| - 1], ops[|ops| - 1];
      RunHolds(front);
      UpdateRefinesCount(Run(front).0, Counts(front), op.eps, if op.Register? then 1 else -1,
                         if op.Register? then op.probed else []);
    }
  }

  lemma EmptyHolds()
    ensures Holds(EMPTY, map[])
  {
  }

  /** After any run no operation has panicked; a cluster is found under its key, and under each of its endpoints, if
      and only if it is open; all these names then find one record, which is not cancelled and carries the count. */
  lemma RegistryIsACount(ops: seq<Op>, eps: seq<Endpoint>)
    requires GoodOps(ops) && Fits(eps, Counts(ops))
    ensures var (r, panicked), n, key := Run(ops), Open(ops, multiset(eps)), MarshalEndpoints(eps);
      && !panicked
      && (key in r.index <==> n > 0)
      && (forall e :: e in eps ==> (e in r.index <==> n > 0))
      && (n > 0 ==> && r.index[key] < |r.records|
                    && r.records[r.index[key]].amount == n
                    && !r.records[r.index[key]].cancelled
                    && forall e :: e in eps ==> r.index[e] == r.index[key])
  {
    hide Run, Open, Counts, MarshalEndpoints, KeyOf;
    var m, counts, r := multiset(eps), Counts(ops), Run(ops).0;
    RunHolds(ops);
    CountsAreOpen(ops, m);
    KeyOfList(eps);
    KeyIsName(m);
    forall k | Names(k, m)
      ensures k in r.index <==> m in counts
      ensures m in counts ==> KeyOf(m) in r.index && r.index[k] == r.index[KeyOf(m)]
    {
      if m in counts {
        OneRecord(r, counts, m, k);
      } else {
        NothingUnder(r, counts, eps, k);
      }
    }
    if m in counts {
      OneRecord(r, counts, m, KeyOf(m));
    }
    forall e | e in eps ensures Names(e, m) {
    }
  }

  /** The list of an open cluster fits. */
  lemma OpenFits(ops: seq<Op>, eps: seq<Endpoint>)
    requires GoodOps(ops) && GoodList(eps) && Open(ops, multiset(eps)) > 0
    ensures Fits(eps, Counts(ops))
  {
    RunHolds(ops);
    CountsAreOpen(ops, multiset(eps));
  }

  /** A list of the run whose cluster is open under the name `k`. */
  ghost predicate OpenUnder(ops: seq<Op>, k: Bytes, i: nat)
    requires i < |ops|
  {
    Open(ops, multiset(ops[i].eps)) > 0 && (k == MarshalEndpoints(ops[i].eps) || k in ops[i].eps)
  }

  lemma {:induction false} ListsAreGood(ops: seq<Op>, i: nat)
    requires GoodOps(ops) && i < |ops|
    ensures GoodList(ops[i].eps)
  {
    if i < |ops| - 1 {
      ListsAreGood(ops[..|ops| - 1], i);
    }
  }

  lemma IndexedIsOpen(ops: seq<Op>, k: Bytes)
    requires GoodOps(ops) && k in Run(ops).0.index
    ensures exists i :: 0 <= i < |ops| && OpenUnder(ops, k, i)
  {
    hide Run, Open, MarshalEndpoints, KeyOf;
    var r, counts := Run(ops).0, Counts(ops);
    RunHolds(ops);
    assert IndexedOk(r, counts, k);
    var m := ClusterOf(r.records[r.index[k]]);
    CountsAreListed(ops, m);
    CountsAreOpen(ops, m);
    var i :| 0 <= i < |ops| && m == multiset(ops[i].eps);
    ListsAreGood(ops, i);
    KeyOfList(ops[i].eps);
    assert OpenUnder(ops, k, i);
  }

  /** The index holds the names of open clusters and nothing else. */
  lemma IndexDomain(ops: seq<Op>, k: Bytes)
    requires GoodOps(ops)
    ensures k in Run(ops).0.index <==> exists i :: 0 <= i < |ops| && OpenUnder(ops, k, i)
  {
    hide Run, Open, MarshalEndpoints;
    if k in Run(ops).0.index {
      IndexedIsOpen(ops, k);
    }
    if i :| 0 <= i < |ops| && OpenUnder(ops, k, i) {
      ListsAreGood(ops, i);
      OpenFits(ops, ops[i].eps);
      RegistryIsACount(ops, ops[i].eps);
    }
  }

  /** Of all records ever made, exactly the indexed ones are not cancelled. */
  lemma IndexedAreUncancelled(ops: seq<Op>, id: nat)
    requires GoodOps(ops) && id < |Run(ops).0.records|
    ensures !Run(ops).0.records[id].cancelled <==> id in Run(ops).0.index.Values
  {
    hide Run;
    var r, counts := Run(ops).0, Counts(ops);
    RunHolds(ops);
    if !r.records[id].cancelled {
      assert RecordOk(r, counts, id);
    }
    if id in r.index.Values {
      var k :| k in r.index && r.index[k] == id;
      assert IndexedOk(r, counts, k);
    }
  }

  /** What a picker finds when it looks a record up by one of its addresses; without an entry, a detached record. */
  predicate Finds(r: Registry, address: Bytes, id: nat) {
    address in r.index && r.index[address] == id
  }

  /** Whichever address of an open cluster a picker happens to keep, it finds the same record. */
  lemma KeyIndependence(ops: seq<Op>, eps: seq<Endpoint>, ready: set<Bytes>, a: Bytes, b: Bytes)
    requires GoodOps(ops) && GoodList(eps) && Open(ops, multiset(eps)) > 0
    requires ready <= (set e | e in eps) && a in ready && b in ready
    ensures exists id :: Finds(Run(ops).0, a, id) && Finds(Run(ops).0, b, id)
                         && Finds(Run(ops).0, MarshalEndpoints(eps), id)
  {
    hide Run, Open, MarshalEndpoints, GoodOps, Fits;
    OpenFits(ops, eps);
    RegistryIsACount(ops, eps);
    var id := Run(ops).0.index[MarshalEndpoints(eps)];
    assert a in eps && b in eps;
    assert Finds(Run(ops).0, a, id) && Finds(Run(ops).0, b, id);
  }

  lemma RunTwo(a: Op, b: Op)
    requires a.Register? && b.Register?
    ensures var (r, panicked) := Update(EMPTY, a.eps, 1, a.probed);
      Run([a, b]) == if panicked then (r, true) else Update(r, b.eps, 1, b.probed)
  {
    hide Update;
    assert [a, b][..1] == [a] && [a][..0] == [];
    assert Run([a]) == Update(EMPTY, a.eps, 1, a.probed);
  }

  const S1: Endpoint := [49]
  const S2: Endpoint := [50]
  const S3: Endpoint := [51]

  lemma PairIsGood(a: Endpoint, b: Endpoint)
    requires a != b && CommaFree(a) && CommaFree(b)
    ensures GoodList([a, b])
  {
  }

  /** The first cluster of the two examples, {s1, s2}, and the names of its record. */
  lemma FirstOfTwo()
    ensures var (r, panicked) := Update(EMPTY, [S1, S2], 1, []);
      && !panicked && |r.records| == 1 && r.records[0].amount == 1
      && S1 in r.index && S2 in r.index && r.index[S1] == 0
      && MarshalEndpoints([S2, S3]) !in r.index
  {
    hide MarshalEndpoints, KeyOf, Update, IsCluster;
    PairIsGood(S1, S2);
    PairIsGood(S2, S3);
    NewIndex(EMPTY, [S1, S2], 1, []);
    var r, m := Update(EMPTY, [S1, S2], 1, []).0, multiset([S1, S2]);
    assert Names(S1, m) && Names(S2, m);
    KeyOfList([S1, S2]);
    CanonicalKey([S1, S2], [S2, S3]);
    KeyAndEndpoints([S2, S3]);
    assert S3 in multiset([S2, S3]) && S3 !in m;
    assert !Names(MarshalEndpoints([S2, S3]), m);
  }

  /** Two ways to get the count wrong: {s1} after {s1, s2} is counted as another user of that cluster, and {s2, s3}
      after {s1, s2} panics. */
  lemma OverlappingClusters()
    ensures var (r, panicked) := Run([Register([S1, S2], []), Register([S1], [])]);
      !panicked && S1 in r.index && r.index[S1] < |r.records| && r.records[r.index[S1]].amount == 2
    ensures Run([Register([S1, S2], []), Register([S2, S3], [])]).1
  {
    hide Update, MarshalEndpoints, Run;
    var r := Update(EMPTY, [S1, S2], 1, []).0;
    FirstOfTwo();
    KeyAndEndpoints([S1]);
    assert Taken(r.index, [S2, S3], 0);
    PanicsIff(r, [S2, S3], 1, []);
    RunTwo(Register([S1, S2], []), Register([S1], []));
    RunTwo(Register([S1, S2], []), Register([S2, S3], []));
    KnownUpdate(r, [S1], 1, []);
  }
}
