/** How the registry's side and the pickers' side fit together: whatever becomes of a record's leader in a run of
    registrations, health checkers and updates, it is a history that a picker over the record's cluster allows for
    (client/balancer/picker/leader_ctrl.go, client/balancer/picker/rw_separated.go). */
module LeaderHistory {
  import opened ByteStrings
  import opened ClusterKey
  import opened Registry
  import opened Picker
  import L = Leadership
  import P = PickerSteps

  /** Record `id` exists from state `k` on. */
  predicate ExistsFrom(run: seq<L.State>, k: nat, id: nat) {
    k < |run| && forall j :: k <= j < |run| ==> id < |run[j].reg.records|
  }

  /** Every leader the record has had from state `k` on, each change once. */
  function History(run: seq<L.State>, k: nat, id: nat): (h: seq<Bytes>)
    requires ExistsFrom(run, k, id)
    ensures h != [] && h[|h| - 1] == run[|run| - 1].reg.records[id].leader
  {
    var leader := run[|run| - 1].reg.records[id].leader;
    if |run| == k + 1 then [leader]
    else
      var before := History(run[..|run| - 1], k, id);
      if before[|before| - 1] == leader then before else before + [leader]
  }

  lemma StaysThere(all: set<multiset<Endpoint>>, run: seq<L.State>, k: nat, id: nat)
    requires L.GoodUniverse(all) && L.IsRun(all, run) && k < |run| && id < |run[k].reg.records|
    ensures ExistsFrom(run, k, id)
  {
    hide L.GoodUniverse, L.Next, L.Inv;
    forall j | k <= j < |run| ensures id < |run[j].reg.records| {
      L.LeaderSticks(all, run[..j + 1], k, id);
    }
  }

  /** What a picker takes its cluster to be: its ready connections and the endpoints of the record it found. */
  function ConfigOf(record: Record, conns: map<Address, SubConn>, raw: map<Bytes, SubConn>): P.Config {
    P.Config(conns, raw, (set e | e in record.endpoints), record.leader)
  }

  lemma ConfigIsGood(
    all: set<multiset<Endpoint>>, run: seq<L.State>, id: nat, conns: map<Address, SubConn>, raw: map<Bytes, SubConn>)
    requires L.GoodUniverse(all) && L.IsRun(all, run) && id < |run[|run| - 1].reg.records|
    requires IsRawMap(raw, conns) && forall a :: a in raw ==> a in run[|run| - 1].reg.records[id].endpoints
    ensures P.GoodConfig(ConfigOf(run[|run| - 1].reg.records[id], conns, raw))
  {
    hide L.RegistryOk, L.CheckerOk, L.UpdaterOk, SameOrDisjoint, IsRawMap;
    L.RunOk(all, run);
    var record := run[|run| - 1].reg.records[id];
    var m := ClusterOf(record);
    assert m in all && L.LeaderOk(record);
    assert IsCluster(m) && [] !in m;
    assert [] in record.endpoints ==> [] in m;
    var e :| e in m;
    assert e in record.endpoints && e in ConfigOf(record, conns, raw).endpoints;
  }

  /** A leader that changes becomes an endpoint of the record. */
  lemma ChangeIsEndpoint(all: set<multiset<Endpoint>>, run: seq<L.State>, k: nat, id: nat)
    requires L.GoodUniverse(all) && L.IsRun(all, run) && k < |run| - 1 && id < |run[k].reg.records|
    ensures id < |run[|run| - 2].reg.records| && id < |run[|run| - 1].reg.records|
    ensures var before, after := run[|run| - 2].reg.records[id], run[|run| - 1].reg.records[id];
      after.leader != before.leader ==> after.leader in run[k].reg.records[id].endpoints
  {
    hide L.GoodUniverse, L.Next, L.Inv;
    L.LeaderSticks(all, run[..|run| - 1], k, id);
    L.LeaderSticks(all, run, |run| - 2, id);
  }

  /** Whatever a record's leader does from the moment a picker finds the record, some run of the picker's model sees
      exactly that. */
  lemma {:induction false} LeadersAreAllowed(
    all: set<multiset<Endpoint>>, run: seq<L.State>, k: nat, id: nat,
    conns: map<Address, SubConn>, raw: map<Bytes, SubConn>)
    returns (picks: seq<P.State>)
    requires L.GoodUniverse(all) && L.IsRun(all, run) && k < |run| && id < |run[k].reg.records|
    requires IsRawMap(raw, conns) && forall a :: a in raw ==> a in run[k].reg.records[id].endpoints
    ensures ExistsFrom(run, k, id)
    ensures var c := ConfigOf(run[k].reg.records[id], conns, raw);
      && P.GoodConfig(c) && P.IsRun(c, picks)
      && picks[|picks| - 1].history == History(run, k, id)
      && P.HistoryOk(c, picks[|picks| - 1])
    decreases |run|
  {
    hide L.GoodUniverse, L.Next, L.Inv, P.GoodConfig, P.Next, P.HistoryOk, IsRawMap;
    StaysThere(all, run, k, id);
    var c := ConfigOf(run[k].reg.records[id], conns, raw);
    if k == |run| - 1 {
      ConfigIsGood(all, run, id, conns, raw);
      picks := [P.Start(c)];
    } else {
      var front := run[..|run| - 1];
      picks := LeadersAreAllowed(all, front, k, id, conns, raw);
      ChangeIsEndpoint(all, run, k, id);
      var leader := run[|run| - 1].reg.records[id].leader;
      if leader != front[|front| - 1].reg.records[id].leader {
        P.ExtendRun(c, picks, P.SetLeader(leader));
        picks := picks + [P.Apply(c, picks[|picks| - 1], P.SetLeader(leader))];
      }
    }
    HistoryIsOk(c, picks);
  }

  lemma HistoryIsOk(c: P.Config, picks: seq<P.State>)
    requires P.GoodConfig(c) && P.IsRun(c, picks)
    ensures P.HistoryOk(c, picks[|picks| - 1])
  {
    P.RunOk(c, picks);
  }
}
