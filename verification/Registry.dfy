/** The reference-counted index of cluster records (client/balancer/picker/leader_ctrl.go) on values: what one update
    does, and why any run of updates is a plain count per cluster. */
module Registry {
  import opened ByteStrings
  import opened ClusterKey

  /** A leader record. `endpoints` are those it was created for, which its callback probes. */
  datatype Record = Record(amount: int, leader: Bytes, cancelled: bool, endpoints: seq<Endpoint>)

  /** `index` finds records by cluster key and by endpoint; `records` is every record ever made. */
  datatype Registry = Registry(index: map<Bytes, nat>, records: seq<Record>)

  const EMPTY: Registry := Registry(map[], [])

  /** Points each endpoint at the record until one is taken already. */
  function AddAliases(index: map<Bytes, nat>, eps: seq<Endpoint>, id: nat): (map<Bytes, nat>, bool)
    decreases |eps|
  {
    if eps == [] then (index, false)
    else if eps[0] in index then (index, true)
    else AddAliases(index[eps[0] := id], eps[1..], id)
  }

  /** `updateClusterAmount`: the new registry, and whether it panicked. `probed` is what the callback returns to a
      new record. */
  function Update(r: Registry, eps: seq<Endpoint>, amount: int, probed: Bytes): (Registry, bool) {
    var key := MarshalEndpoints(eps);
    if key !in r.index then
      if amount <= 0 then (r, false)
      else
        var id := |r.records|;
        var made := Record(1, probed, false, eps);
        if |eps| == 1 then (Registry(r.index[key := id], r.records + [made]), false)
        else
          var (index, taken) := AddAliases(r.index[key := id], eps, id);
          (Registry(index, r.records + [made.(cancelled := taken)]), taken)
    else if r.index[key] >= |r.records| then (r, false)
    else
      var id := r.index[key];
      var record := r.records[id];
      var left := record.amount + amount;
      if left > 0 then (r.(records := r.records[id := record.(amount := left)]), false)
      else (Registry(r.index - {key} - (set e | e in eps),
                     r.records[id := record.(amount := left, cancelled := true)]), false)
  }

  /** getLeaderAddr: "" when the key is unknown. */
  function LeaderUnder(r: Registry, key: Bytes): Bytes {
    if key in r.index && r.index[key] < |r.records| then r.records[r.index[key]].leader else []
  }

  function SetLeader(r: Registry, id: nat, addr: Bytes): Registry
    requires id < |r.records|
  {
    r.(records := r.records[id := r.records[id].(leader := addr)])
  }

  // ---------------------------------------------------------------- the error case

  predicate Repeats(eps: seq<Endpoint>, i: nat)
    requires i < |eps|
  {
    exists j :: 0 <= j < i && eps[j] == eps[i]
  }

  /** Endpoint `i` is indexed already, or stands in the list before. */
  predicate Taken(index: map<Bytes, nat>, eps: seq<Endpoint>, i: nat)
    requires i < |eps|
  {
    eps[i] in index || Repeats(eps, i)
  }

  /** With the first endpoint indexed, the others are taken as they were. */
  lemma TakenByFirst(index: map<Bytes, nat>, eps: seq<Endpoint>, id: nat, i: nat)
    requires i + 1 < |eps|
    ensures Taken(index[eps[0] := id], eps[1..], i) <==> Taken(index, eps, i + 1)
  {
    var rest := eps[1..];
    if Repeats(rest, i) {
      var j :| 0 <= j < i && rest[j] == rest[i];
      assert eps[j + 1] == eps[i + 1];
    } else if rest[i] == eps[0] {
      assert eps[0] == eps[i + 1];
    }
    if Repeats(eps, i + 1) {
      var j :| 0 <= j < i + 1 && eps[j] == eps[i + 1];
      assert j > 0 ==> rest[j - 1] == rest[i];
    }
  }

  lemma FirstTaken(index: map<Bytes, nat>, eps: seq<Endpoint>)
    requires eps != []
    ensures Taken(index, eps, 0) <==> eps[0] in index
  {
  }

  lemma {:induction false} AddAliasesPanics(index: map<Bytes, nat>, eps: seq<Endpoint>, id: nat)
    decreases |eps|
    ensures AddAliases(index, eps, id).1 <==> exists i :: 0 <= i < |eps| && Taken(index, eps, i)
  {
    hide Taken;
    if eps != [] {
      FirstTaken(index, eps);
      if eps[0] !in index {
        var index', rest := index[eps[0] := id], eps[1..];
        AddAliasesPanics(index', rest, id);
        if i :| 0 <= i < |rest| && Taken(index', rest, i) {
          TakenByFirst(index, eps, id, i);
        }
        if i :| 0 <= i < |eps| && Taken(index, eps, i) {
          TakenByFirst(index, eps, id, i - 1);
        }
      }
    }
  }

  lemma TakenByKey(index: map<Bytes, nat>, key: Bytes, id: nat, eps: seq<Endpoint>, i: nat)
    requires i < |eps|
    ensures Taken(index[key := id], eps, i) <==> Taken(index, eps, i) || eps[i] == key
  {
  }

  /** Exactly when registering panics: the list is new, has not exactly one endpoint, and one of its endpoints is
      indexed already, is repeated in the list or equals the list's own key. */
  lemma PanicsIff(r: Registry, eps: seq<Endpoint>, amount: int, probed: Bytes)
    ensures var key := MarshalEndpoints(eps);
      Update(r, eps, amount, probed).1 <==>
        && key !in r.index && amount > 0 && |eps| != 1
        && exists i :: 0 <= i < |eps| && (Taken(r.index, eps, i) || eps[i] == key)
  {
    hide MarshalEndpoints, AddAliases, Taken;
    var key, id := MarshalEndpoints(eps), |r.records|;
    var index := r.index[key := id];
    AddAliasesPanics(index, eps, id);
    if i :| 0 <= i < |eps| && Taken(index, eps, i) {
      TakenByKey(r.index, key, id, eps, i);
    }
    if i :| 0 <= i < |eps| && (Taken(r.index, eps, i) || eps[i] == key) {
      TakenByKey(r.index, key, id, eps, i);
    }
  }

  /** Whether one of the first `n` endpoints is taken. */
  predicate TakenBefore(index: map<Bytes, nat>, eps: seq<Endpoint>, n: nat)
    requires n <= |eps|
  {
    exists i: nat :: i < n && Taken(index, eps, i)
  }

  lemma {:induction false} AliasesUpTo(index: map<Bytes, nat>, eps: seq<Endpoint>, id: nat, n: nat)
    requires n < |eps| && Taken(index, eps, n) && !TakenBefore(index, eps, n)
    decreases |eps|
    ensures AddAliases(index, eps, id).1
    ensures var index' := AddAliases(index, eps, id).0;
      && (forall k :: k in index' <==> k in index || k in eps[..n])
      && (forall k | k in index' :: index'[k] == if k in eps[..n] then id else index[k])
  {
    hide Taken;
    FirstTaken(index, eps);
    if n > 0 {
      var index', rest := index[eps[0] := id], eps[1..];
      assert !Taken(index, eps, 0);
      TakenByFirst(index, eps, id, n - 1);
      forall i: nat | i < n - 1 ensures !Taken(index', rest, i) {
        TakenByFirst(index, eps, id, i);
      }
      AliasesUpTo(index', rest, id, n - 1);
      assert eps[..n] == [eps[0]] + rest[..n - 1];
      FirstAlias(index, eps, id, n);
    }
  }

  lemma FirstAlias(index: map<Bytes, nat>, eps: seq<Endpoint>, id: nat, n: nat)
    requires 0 < n < |eps| && !TakenBefore(index, eps, n)
    ensures eps[0] !in index && forall i :: 0 < i < n ==> eps[i] !in index && eps[i] != eps[0]
  {
    assert !Taken(index, eps, 0);
    forall i: nat | 0 < i < n ensures eps[i] !in index && eps[i] != eps[0] {
      assert !Taken(index, eps, i);
    }
  }

  /** What a panic leaves behind: a cancelled record, indexed under the key and the endpoints before the first one
      taken; everything else is as it was. */
  lemma PanicLeaves(r: Registry, eps: seq<Endpoint>, amount: int, probed: Bytes, n: nat)
    requires Update(r, eps, amount, probed).1
    requires n < |eps|
    requires var index := r.index[MarshalEndpoints(eps) := |r.records|];
      Taken(index, eps, n) && !TakenBefore(index, eps, n)
    ensures var r', key, id := Update(r, eps, amount, probed).0, MarshalEndpoints(eps), |r.records|;
      && r'.records == r.records + [Record(1, probed, true, eps)]
      && (forall k :: k in r'.index <==> k in r.index || k == key || k in eps[..n])
      && (forall k | k in r'.index :: r'.index[k] == if k == key || k in eps[..n] then id else r.index[k])
  {
    hide MarshalEndpoints, AddAliases, Taken, TakenBefore;
    AliasesUpTo(r.index[MarshalEndpoints(eps) := |r.records|], eps, |r.records|, n);
  }

  // ---------------------------------------------------------------- clusters and their names

  /** A cluster: distinct, comma-free endpoints, at least one. */
  predicate IsCluster(m: multiset<Endpoint>) {
    m != multiset{} && forall e | e in m :: m[e] == 1 && CommaFree(e)
  }

  ghost function AsList(m: multiset<Endpoint>): (s: seq<Endpoint>)
    ensures multiset(s) == m
  {
    if m == multiset{} then []
    else
      var e :| e in m;
      var s := AsList(m - multiset{e});
      [e] + s
  }

  /** The key that every listing of the cluster has. */
  ghost function KeyOf(m: multiset<Endpoint>): Bytes {
    MarshalEndpoints(AsList(m))
  }

  /** A name under which a cluster's record is found. */
  ghost predicate Names(k: Bytes, m: multiset<Endpoint>) {
    k == KeyOf(m) || k in m
  }

  predicate GoodList(eps: seq<Endpoint>) {
    IsCluster(multiset(eps))
  }

  predicate SameOrDisjoint(m: multiset<Endpoint>, n: multiset<Endpoint>) {
    m == n || m !! n
  }

  lemma KeyOfList(eps: seq<Endpoint>)
    requires GoodList(eps)
    ensures MarshalEndpoints(eps) == KeyOf(multiset(eps))
  {
    ClusterList(eps);
    ClusterList(AsList(multiset(eps)));
    CanonicalKey(eps, AsList(multiset(eps)));
  }

  lemma ClusterList(eps: seq<Endpoint>)
    requires GoodList(eps)
    ensures eps != [] && AllCommaFree(eps) && |multiset(eps)| == |eps|
    ensures forall i, j :: 0 <= i < j < |eps| ==> eps[i] != eps[j]
  {
    forall i | 0 <= i < |eps| ensures CommaFree(eps[i]) {
      assert eps[i] in multiset(eps);
    }
    forall i, j | 0 <= i < j < |eps| ensures eps[i] != eps[j] {
      assert eps == eps[..j] + eps[j..];
      assert eps[i] in eps[..j] && eps[j] in eps[j..];
      assert multiset(eps)[eps[i]] == multiset(eps[..j])[eps[i]] + multiset(eps[j..])[eps[i]];
      assert eps[i] in multiset(eps) && multiset(eps)[eps[i]] == 1;
    }
  }

  /** A name belongs to one cluster only. */
  lemma NamesOneCluster(k: Bytes, m: multiset<Endpoint>, n: multiset<Endpoint>)
    requires IsCluster(m) && IsCluster(n) && SameOrDisjoint(m, n)
    requires Names(k, m) && Names(k, n)
    ensures m == n
  {
    var a, b := AsList(m), AsList(n);
    ClusterList(a);
    ClusterList(b);
    CanonicalKey(a, b);
    KeyAndEndpoints(a);
    KeyAndEndpoints(b);
    if k in m || k in n {
      assert CommaFree(k);
      assert k == KeyOf(m) ==> k in m by {
        if k == KeyOf(m) { assert |a| == 1 && a[0] in multiset(a); }
      }
      assert k == KeyOf(n) ==> k in n by {
        if k == KeyOf(n) { assert |b| == 1 && b[0] in multiset(b); }
      }
      assert k in m && k in n;
    }
  }

  // ---------------------------------------------------------------- the index is a count per cluster

  function ClusterOf(record: Record): multiset<Endpoint> {
    multiset(record.endpoints)
  }

  /** What is found under `k` is the uncancelled record of a live cluster that has this name; it carries the count. */
  ghost predicate IndexedOk(r: Registry, counts: map<multiset<Endpoint>, int>, k: Bytes)
    requires k in r.index
  {
    var id := r.index[k];
    id < |r.records| &&
    var record := r.records[id];
    var m := ClusterOf(record);
    m in counts && Names(k, m) && record.amount == counts[m] && !record.cancelled
  }

  /** The name `k` of cluster `m` finds that cluster's record. */
  ghost predicate NamedOk(r: Registry, m: multiset<Endpoint>, k: Bytes) {
    k in r.index && r.index[k] < |r.records| && ClusterOf(r.records[r.index[k]]) == m
  }

  /** An uncancelled record belongs to a live cluster and is the one that its key finds. */
  ghost predicate RecordOk(r: Registry, counts: map<multiset<Endpoint>, int>, id: nat)
    requires id < |r.records|
  {
    !r.records[id].cancelled ==>
      var m := ClusterOf(r.records[id]);
      m in counts && KeyOf(m) in r.index && r.index[KeyOf(m)] == id
  }

  ghost predicate AllClusters(counts: map<multiset<Endpoint>, int>) {
    && (forall m | m in counts :: IsCluster(m) && counts[m] > 0)
    && (forall m, n | m in counts && n in counts :: SameOrDisjoint(m, n))
  }

  /** The registry holds the live clusters of `counts` and nothing else. */
  ghost predicate Holds(r: Registry, counts: map<multiset<Endpoint>, int>) {
    && AllClusters(counts)
    && (forall k | k in r.index :: IndexedOk(r, counts, k))
    && (forall m, k | m in counts && Names(k, m) :: NamedOk(r, m, k))
    && (forall id | 0 <= id < |r.records| :: RecordOk(r, counts, id))
  }

  lemma CountKeepsClusters(counts: map<multiset<Endpoint>, int>, eps: seq<Endpoint>, amount: int)
    requires AllClusters(counts) && Fits(eps, counts)
    ensures AllClusters(Count(counts, multiset(eps), amount))
  {
    hide IsCluster, SameOrDisjoint;
    var m, counts' := multiset(eps), Count(counts, multiset(eps), amount);
    SameAsItself(m);
    forall n, p | n in counts' && p in counts' ensures SameOrDisjoint(n, p) {
      if n in counts && p !in counts { SameOrDisjointBack(m, n); }
    }
  }

  lemma SameAsItself(m: multiset<Endpoint>)
    ensures SameOrDisjoint(m, m)
  {
  }

  lemma SameOrDisjointBack(m: multiset<Endpoint>, n: multiset<Endpoint>)
    ensures SameOrDisjoint(m, n) <==> SameOrDisjoint(n, m)
  {
  }

  /** Two live clusters do not share a name. */
  lemma NamesLiveCluster(counts: map<multiset<Endpoint>, int>, k: Bytes, m: multiset<Endpoint>, n: multiset<Endpoint>)
    requires AllClusters(counts) && m in counts && n in counts && Names(k, m) && Names(k, n)
    ensures m == n
  {
    hide KeyOf;
    NamesOneCluster(k, m, n);
  }

  /** All names of a cluster find one record. */
  lemma OneRecord(r: Registry, counts: map<multiset<Endpoint>, int>, m: multiset<Endpoint>, k: Bytes)
    requires Holds(r, counts) && m in counts && Names(k, m)
    ensures k in r.index && KeyOf(m) in r.index && r.index[k] == r.index[KeyOf(m)] < |r.records|
    ensures ClusterOf(r.records[r.index[k]]) == m
    ensures r.records[r.index[k]].amount == counts[m] && !r.records[r.index[k]].cancelled
  {
    assert NamedOk(r, m, k);
    assert IndexedOk(r, counts, k);
    assert RecordOk(r, counts, r.index[k]);
  }

  /** The plain map that the registry refines: up by the amount, from nothing to one, gone when used up. */
  function Count(counts: map<multiset<Endpoint>, int>, m: multiset<Endpoint>, amount: int)
    : map<multiset<Endpoint>, int>
  {
    if m !in counts then if amount > 0 then counts[m := 1] else counts
    else if counts[m] + amount > 0 then counts[m := counts[m] + amount]
    else counts - {m}
  }

  ghost predicate Fits(eps: seq<Endpoint>, counts: map<multiset<Endpoint>, int>) {
    GoodList(eps) && forall m | m in counts :: SameOrDisjoint(multiset(eps), m)
  }

  lemma {:induction false} AddAliasesFresh(index: map<Bytes, nat>, eps: seq<Endpoint>, id: nat)
    requires forall i :: 0 <= i < |eps| ==> eps[i] !in index
    requires forall i, j :: 0 <= i < j < |eps| ==> eps[i] != eps[j]
    decreases |eps|
    ensures var (index', taken) := AddAliases(index, eps, id);
      && !taken
      && (forall k :: k in index' <==> k in index || k in eps)
      && (forall k | k in index' :: index'[k] == if k in eps then id else index[k])
  {
    if eps != [] {
      var rest := eps[1..];
      AddAliasesFresh(index[eps[0] := id], rest, id);
      assert forall k :: k in eps <==> k == eps[0] || k in rest;
    }
  }

  /** A list that names no live cluster finds nothing in the index. */
  lemma NothingUnder(r: Registry, counts: map<multiset<Endpoint>, int>, eps: seq<Endpoint>, k: Bytes)
    requires Holds(r, counts) && Fits(eps, counts) && multiset(eps) !in counts
    requires Names(k, multiset(eps))
    ensures k !in r.index
  {
    hide KeyOf;
    if k in r.index {
      assert IndexedOk(r, counts, k);
      NamesOneCluster(k, multiset(eps), ClusterOf(r.records[r.index[k]]));
    }
  }

  /** `index'` is `index` with `id` under every name of `m`. */
  ghost predicate Renamed(index: map<Bytes, nat>, index': map<Bytes, nat>, m: multiset<Endpoint>, id: nat) {
    && (forall k :: k in index' <==> k in index || Names(k, m))
    && (forall k | k in index' :: index'[k] == if Names(k, m) then id else index[k])
  }

  /** The first registration of a cluster puts one new record under all its names and moves nothing else. */
  lemma NewIndex(r: Registry, eps: seq<Endpoint>, amount: int, probed: Bytes)
    requires GoodList(eps) && amount > 0
    requires forall k | Names(k, multiset(eps)) :: k !in r.index
    ensures var (r', panicked) := Update(r, eps, amount, probed);
      && !panicked
      && r'.records == r.records + [Record(1, probed, false, eps)]
      && Renamed(r.index, r'.index, multiset(eps), |r.records|)
  {
    hide MarshalEndpoints, KeyOf, IsCluster;
    var m, key, id := multiset(eps), MarshalEndpoints(eps), |r.records|;
    ClusterList(eps);
    KeyOfList(eps);
    KeyAndEndpoints(eps);
    if |eps| == 1 {
      assert forall k :: k in m <==> k == eps[0];
    } else {
      forall i | 0 <= i < |eps| ensures eps[i] !in r.index[key := id] {
        assert CommaFree(eps[i]) && Names(eps[i], m);
      }
      AddAliasesFresh(r.index[key := id], eps, id);
    }
  }

  /** With a new record under all names of a new cluster, the registry holds one cluster more. */
  lemma HoldsOneMore(
    r: Registry, r': Registry, counts: map<multiset<Endpoint>, int>, m: multiset<Endpoint>, made: Record)
    requires Holds(r, counts) && m !in counts && AllClusters(counts[m := 1])
    requires r'.records == r.records + [made] && ClusterOf(made) == m && made.amount == 1 && !made.cancelled
    requires Renamed(r.index, r'.index, m, |r.records|)
    requires forall k | Names(k, m) :: k !in r.index
    requires Names(KeyOf(m), m)
    ensures Holds(r', counts[m := 1])
  {
    hide KeyOf, AllClusters, Names;
    var counts' := counts[m := 1];
    forall k | k in r'.index ensures IndexedOk(r', counts', k) {
      if !Names(k, m) { assert IndexedOk(r, counts, k); }
    }
    forall n, k | n in counts' && Names(k, n) ensures NamedOk(r', n, k) {
      if n != m { assert NamedOk(r, n, k); }
    }
    forall id | 0 <= id < |r'.records| ensures RecordOk(r', counts', id) {
      if id < |r.records| { assert RecordOk(r, counts, id); }
    }
  }

  lemma NewCluster(r: Registry, counts: map<multiset<Endpoint>, int>, eps: seq<Endpoint>, amount: int, probed: Bytes)
    requires Holds(r, counts) && Fits(eps, counts) && multiset(eps) !in counts && amount > 0
    ensures var (r', panicked) := Update(r, eps, amount, probed);
      !panicked && Holds(r', Count(counts, multiset(eps), amount))
  {
    hide Update, KeyOf, Names, MarshalEndpoints, Renamed;
    var m := multiset(eps);
    KeyIsName(m);
    forall k | Names(k, m) ensures k !in r.index {
      NothingUnder(r, counts, eps, k);
    }
    NewIndex(r, eps, amount, probed);
    CountKeepsClusters(counts, eps, amount);
    HoldsOneMore(r, Update(r, eps, amount, probed).0, counts, m, Record(1, probed, false, eps));
  }

  lemma KeyIsName(m: multiset<Endpoint>)
    ensures Names(KeyOf(m), m)
  {
    hide KeyOf;
  }

  /** With another amount in the record of a live cluster, the registry holds the cluster with that count. */
  lemma HoldsChanged(r: Registry, counts: map<multiset<Endpoint>, int>, m: multiset<Endpoint>, left: int)
    requires Holds(r, counts) && m in counts && NamedOk(r, m, KeyOf(m)) && AllClusters(counts[m := left])
    ensures var id := r.index[KeyOf(m)];
      Holds(r.(records := r.records[id := r.records[id].(amount := left)]), counts[m := left])
  {
    hide KeyOf, AllClusters, Names;
    var id, counts' := r.index[KeyOf(m)], counts[m := left];
    var r' := r.(records := r.records[id := r.records[id].(amount := left)]);
    forall k | k in r'.index ensures IndexedOk(r', counts', k) {
      assert IndexedOk(r, counts, k);
      OneRecord(r, counts, ClusterOf(r.records[r.index[k]]), k);
    }
    forall n, k | n in counts' && Names(k, n) ensures NamedOk(r', n, k) {
      assert NamedOk(r, n, k);
    }
    forall i | 0 <= i < |r'.records| ensures RecordOk(r', counts', i) {
      assert RecordOk(r, counts, i);
    }
  }

  /** An update of a known key that leaves users only moves the amount. */
  lemma KnownUpdate(r: Registry, eps: seq<Endpoint>, amount: int, probed: Bytes)
    requires MarshalEndpoints(eps) in r.index && r.index[MarshalEndpoints(eps)] < |r.records|
    requires r.records[r.index[MarshalEndpoints(eps)]].amount + amount > 0
    ensures var id := r.index[MarshalEndpoints(eps)];
      Update(r, eps, amount, probed)
        == (r.(records := r.records[id := r.records[id].(amount := r.records[id].amount + amount)]), false)
  {
    hide MarshalEndpoints;
  }

  /** What an update of a live cluster starts from. */
  lemma LiveCluster(r: Registry, counts: map<multiset<Endpoint>, int>, eps: seq<Endpoint>, amount: int)
    requires Holds(r, counts) && Fits(eps, counts) && multiset(eps) in counts
    ensures GoodList(eps) && MarshalEndpoints(eps) == KeyOf(multiset(eps))
    ensures NamedOk(r, multiset(eps), KeyOf(multiset(eps)))
    ensures KeyOf(multiset(eps)) in r.index && r.index[KeyOf(multiset(eps))] < |r.records|
    ensures r.records[r.index[KeyOf(multiset(eps))]].amount == counts[multiset(eps)]
    ensures AllClusters(Count(counts, multiset(eps), amount))
  {
    hide KeyOf, MarshalEndpoints, IsCluster, SameOrDisjoint;
    CountKeepsClusters(counts, eps, amount);
    KeyOfList(eps);
    KeyIsName(multiset(eps));
    OneRecord(r, counts, multiset(eps), KeyOf(multiset(eps)));
  }

  /** A cluster that stays registered: only its record's amount moves. */
  lemma CountChanged(r: Registry, counts: map<multiset<Endpoint>, int>, eps: seq<Endpoint>, amount: int, probed: Bytes)
    requires Holds(r, counts) && Fits(eps, counts)
    requires multiset(eps) in counts && counts[multiset(eps)] + amount > 0
    ensures var (r', panicked) := Update(r, eps, amount, probed);
      !panicked && Holds(r', Count(counts, multiset(eps), amount))
  {
    hide *;
    var m, left := multiset(eps), counts[multiset(eps)] + amount;
    LiveCluster(r, counts, eps, amount);
    CountStays(counts, m, amount);
    KnownUpdate(r, eps, amount, probed);
    HoldsChanged(r, counts, m, left);
  }

  lemma CountStays(counts: map<multiset<Endpoint>, int>, m: multiset<Endpoint>, amount: int)
    requires m in counts && counts[m] + amount > 0
    ensures Count(counts, m, amount) == counts[m := counts[m] + amount]
  {
  }

  /** `r'` is `r` without the names of `m` and with record `id` cancelled. */
  ghost predicate Unnamed(r: Registry, r': Registry, m: multiset<Endpoint>, id: nat, left: int)
    requires id < |r.records|
  {
    && (forall k :: k in r'.index <==> k in r.index && !Names(k, m))
    && (forall k | k in r'.index :: r'.index[k] == r.index[k])
    && r'.records == r.records[id := r.records[id].(amount := left, cancelled := true)]
  }

  /** The registry after the last user of a list is gone: its names deleted, its record cancelled. */
  function Removed(r: Registry, eps: seq<Endpoint>, id: nat, left: int): Registry
    requires id < |r.records|
  {
    Registry(r.index - {MarshalEndpoints(eps)} - (set e | e in eps),
             r.records[id := r.records[id].(amount := left, cancelled := true)])
  }

  lemma GoneUpdate(r: Registry, eps: seq<Endpoint>, amount: int, probed: Bytes)
    requires MarshalEndpoints(eps) in r.index && r.index[MarshalEndpoints(eps)] < |r.records|
    requires r.records[r.index[MarshalEndpoints(eps)]].amount + amount <= 0
    ensures var id := r.index[MarshalEndpoints(eps)];
      Update(r, eps, amount, probed) == (Removed(r, eps, id, r.records[id].amount + amount), false)
  {
    hide MarshalEndpoints;
  }

  lemma RemovedIsUnnamed(r: Registry, eps: seq<Endpoint>, id: nat, left: int)
    requires GoodList(eps) && id < |r.records|
    ensures Unnamed(r, Removed(r, eps, id, left), multiset(eps), id, left)
  {
    hide MarshalEndpoints, KeyOf, IsCluster;
    KeyOfList(eps);
  }

  /** `counts'` counts the same clusters as `counts`, but not `m`. */
  ghost predicate OneLess(
    counts: map<multiset<Endpoint>, int>, counts': map<multiset<Endpoint>, int>, m: multiset<Endpoint>)
  {
    && (forall n :: n in counts' <==> n in counts && n != m)
    && (forall n | n in counts' :: counts'[n] == counts[n])
  }

  lemma SameRecords(r: Registry, r': Registry, m: multiset<Endpoint>, id: nat, left: int)
    requires id < |r.records| && Unnamed(r, r', m, id, left)
    ensures |r'.records| == |r.records|
  {
  }

  /** What is still indexed is another cluster's record. */
  lemma StillIndexed(
    r: Registry, r': Registry, counts: map<multiset<Endpoint>, int>, counts': map<multiset<Endpoint>, int>,
    m: multiset<Endpoint>, left: int, k: Bytes)
    requires Holds(r, counts) && m in counts && NamedOk(r, m, KeyOf(m))
    requires OneLess(counts, counts', m)
    requires Unnamed(r, r', m, r.index[KeyOf(m)], left) && k in r'.index
    ensures IndexedOk(r', counts', k)
  {
    hide KeyOf, Names, AllClusters;
    assert IndexedOk(r, counts, k);
    OneRecord(r, counts, ClusterOf(r.records[r.index[k]]), k);
  }

  /** Other clusters keep their names. */
  lemma NamesStay(
    r: Registry, r': Registry, counts: map<multiset<Endpoint>, int>, m: multiset<Endpoint>, left: int,
    n: multiset<Endpoint>, k: Bytes)
    requires AllClusters(counts) && m in counts && n in counts && n != m && Names(k, n) && NamedOk(r, n, k)
    requires NamedOk(r, m, KeyOf(m)) && Unnamed(r, r', m, r.index[KeyOf(m)], left)
    ensures NamedOk(r', n, k)
  {
    hide KeyOf, Names, AllClusters;
    if Names(k, m) { NamesLiveCluster(counts, k, m, n); }
  }

  /** An uncancelled record is still found by its key. */
  lemma StillNamed(
    r: Registry, r': Registry, counts: map<multiset<Endpoint>, int>, counts': map<multiset<Endpoint>, int>,
    m: multiset<Endpoint>, left: int, id: nat)
    requires AllClusters(counts) && m in counts && NamedOk(r, m, KeyOf(m))
    requires id < |r.records| && RecordOk(r, counts, id)
    requires OneLess(counts, counts', m)
    requires Unnamed(r, r', m, r.index[KeyOf(m)], left)
    ensures RecordOk(r', counts', id)
  {
    hide KeyOf, Names, AllClusters;
    var n := ClusterOf(r.records[id]);
    KeyIsName(n);
    if Names(KeyOf(n), m) && n in counts {
      NamesLiveCluster(counts, KeyOf(n), m, n);
    }
  }

  /** Without the names of a live cluster, and with its record cancelled, the registry holds one cluster less. */
  lemma HoldsOneLess(
    r: Registry, r': Registry, counts: map<multiset<Endpoint>, int>, counts': map<multiset<Endpoint>, int>,
    m: multiset<Endpoint>, left: int)
    requires Holds(r, counts) && m in counts && NamedOk(r, m, KeyOf(m)) && KeyOf(m) in r.index
    requires OneLess(counts, counts', m) && AllClusters(counts')
    requires r.index[KeyOf(m)] < |r.records| && Unnamed(r, r', m, r.index[KeyOf(m)], left)
    ensures Holds(r', counts')
  {
    hide KeyOf, Names, AllClusters, IndexedOk, NamedOk, RecordOk, Unnamed;
    SameRecords(r, r', m, r.index[KeyOf(m)], left);
    forall k | k in r'.index ensures IndexedOk(r', counts', k) {
      StillIndexed(r, r', counts, counts', m, left, k);
    }
    forall n, k | n in counts' && Names(k, n) ensures NamedOk(r', n, k) {
      NamesStay(r, r', counts, m, left, n, k);
    }
    forall id | 0 <= id < |r'.records| ensures RecordOk(r', counts', id) {
      StillNamed(r, r', counts, counts', m, left, id);
    }
  }

  lemma CountOneLess(counts: map<multiset<Endpoint>, int>, m: multiset<Endpoint>, amount: int)
    requires m in counts && counts[m] + amount <= 0
    ensures OneLess(counts, Count(counts, m, amount), m)
  {
  }

  /** The last unregistration of a cluster takes away all its names and cancels its record. */
  lemma LastGone(r: Registry, counts: map<multiset<Endpoint>, int>, eps: seq<Endpoint>, amount: int, probed: Bytes)
    requires Holds(r, counts) && Fits(eps, counts)
    requires multiset(eps) in counts && counts[multiset(eps)] + amount <= 0
    ensures var (r', panicked) := Update(r, eps, amount, probed);
      !panicked && Holds(r', Count(counts, multiset(eps), amount))
  {
    hide *;
    var m, left := multiset(eps), counts[multiset(eps)] + amount;
    LiveCluster(r, counts, eps, amount);
    CountOneLess(counts, m, amount);
    var id := r.index[KeyOf(m)];
    GoneUpdate(r, eps, amount, probed);
    RemovedIsUnnamed(r, eps, id, left);
    HoldsOneLess(r, Removed(r, eps, id, left), counts, Count(counts, m, amount), m, left);
  }

  /** One update keeps the correspondence; nothing panics. */
  lemma UpdateRefinesCount(
    r: Registry, counts: map<multiset<Endpoint>, int>, eps: seq<Endpoint>, amount: int, probed: Bytes)
    requires Holds(r, counts) && Fits(eps, counts)
    ensures var (r', panicked) := Update(r, eps, amount, probed);
      !panicked && Holds(r', Count(counts, multiset(eps), amount))
  {
    hide KeyOf, Holds;
    var m := multiset(eps);
    if m in counts {
      if counts[m] + amount > 0 {
        CountChanged(r, counts, eps, amount, probed);
      } else {
        LastGone(r, counts, eps, amount, probed);
      }
    } else if amount > 0 {
      NewCluster(r, counts, eps, amount, probed);
    } else {
      KeyOfList(eps);
      NothingUnder(r, counts, eps, KeyOf(m));
    }
  }

  /** The count that is found under a list's key. */
  predicate CountsRight(r: Registry, eps: seq<Endpoint>, n: int) {
    var key := MarshalEndpoints(eps);
    key in r.index && r.index[key] < |r.records| && r.records[r.index[key]].amount == n
  }

  /** The condition on endpoint lists is needed. In any state that holds the live clusters, registering a list succeeds
      and finds its right count exactly when it fits them: it is one of them, or shares no endpoint with any.
      Otherwise it panics, or is counted as another cluster. */
  lemma RegistrationRightIff(r: Registry, counts: map<multiset<Endpoint>, int>, eps: seq<Endpoint>, probed: Bytes)
    requires Holds(r, counts) && GoodList(eps)
    ensures var (r', panicked), m := Update(r, eps, 1, probed), multiset(eps);
      !panicked && CountsRight(r', eps, if m in counts then counts[m] + 1 else 1) <==> Fits(eps, counts)
  {
    hide Update, Holds, CountsRight, Fits;
    if Fits(eps, counts) {
      FittingIsRight(r, counts, eps, probed);
    } else {
      OverlapGoesWrong(r, counts, eps, probed);
    }
  }

  lemma FittingIsRight(r: Registry, counts: map<multiset<Endpoint>, int>, eps: seq<Endpoint>, probed: Bytes)
    requires Holds(r, counts) && Fits(eps, counts)
    ensures var (r', panicked), m := Update(r, eps, 1, probed), multiset(eps);
      !panicked && CountsRight(r', eps, if m in counts then counts[m] + 1 else 1)
  {
    var m := multiset(eps);
    assert m in counts ==> counts[m] > 0;
    hide Update, Holds, KeyOf, MarshalEndpoints;
    UpdateRefinesCount(r, counts, eps, 1, probed);
    KeyOfList(eps);
    KeyIsName(m);
    OneRecord(Update(r, eps, 1, probed).0, Count(counts, m, 1), m, KeyOf(m));
  }

  lemma OverlapGoesWrong(r: Registry, counts: map<multiset<Endpoint>, int>, eps: seq<Endpoint>, probed: Bytes)
    requires Holds(r, counts) && GoodList(eps) && !Fits(eps, counts)
    ensures var (r', panicked), m := Update(r, eps, 1, probed), multiset(eps);
      m !in counts && (panicked || !CountsRight(r', eps, 1))
  {
    hide MarshalEndpoints, KeyOf, IsCluster, AddAliases;
    var m, key := multiset(eps), MarshalEndpoints(eps);
    var n :| n in counts && !SameOrDisjoint(m, n);
    if key in r.index {
      assert IndexedOk(r, counts, key);
    } else {
      var e :| e in m && e in n;
      assert NamedOk(r, n, e);
      ClusterList(eps);
      KeyAndEndpoints(eps);
      var i :| 0 <= i < |eps| && eps[i] == e;
      assert Taken(r.index, eps, i);
      PanicsIff(r, eps, 1, probed);
    }
  }

  /** The same for taking a list out: the registry still holds the live clusters unless the list is the lone endpoint
      of a larger one, whose user is then taken out instead. */
  lemma RemovalRightIff(r: Registry, counts: map<multiset<Endpoint>, int>, eps: seq<Endpoint>)
    requires Holds(r, counts) && GoodList(eps)
    ensures Holds(Update(r, eps, -1, []).0, Count(counts, multiset(eps), -1))
       <==> Fits(eps, counts) || MarshalEndpoints(eps) !in r.index
  {
    hide MarshalEndpoints, KeyOf, IsCluster, Names, SameOrDisjoint;
    var m, key := multiset(eps), MarshalEndpoints(eps);
    if Fits(eps, counts) {
      UpdateRefinesCount(r, counts, eps, -1, []);
    } else if key in r.index {
      assert IndexedOk(r, counts, key);
      var n, r' := ClusterOf(r.records[r.index[key]]), Update(r, eps, -1, []).0;
      assert if key in r'.index then !IndexedOk(r', counts, key) else !NamedOk(r', n, key);
    }
  }

  /** A leader that is set under one name of a live cluster is read back under every name of it, and what is read under
      any other key does not change. */
  lemma LeaderReadsBack(
    r: Registry, counts: map<multiset<Endpoint>, int>, m: multiset<Endpoint>, k: Bytes, other: Bytes, addr: Bytes)
    requires Holds(r, counts) && m in counts && Names(k, m)
    ensures k in r.index && r.index[k] < |r.records|
    ensures LeaderUnder(SetLeader(r, r.index[k], addr), other)
         == if Names(other, m) then addr else LeaderUnder(r, other)
  {
    hide KeyOf, IsCluster, SameOrDisjoint, AllClusters;
    OneRecord(r, counts, m, k);
    if Names(other, m) {
      OneRecord(r, counts, m, other);
    } else if other in r.index {
      assert IndexedOk(r, counts, other);
    }
  }
}
