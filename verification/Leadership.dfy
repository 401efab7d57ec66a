/** Who writes a record's leader: its health checker, once a second, and first-time updates of its cluster, in any
    interleaving with registrations and unregistrations (client/balancer/picker/leader_ctrl.go). */
module Leadership {
  import opened ByteStrings
  import opened Wrappers
  import opened ClusterKey
  import opened Registry
  import LeaderProbe

  /** The loop of `healthCheck`: `Got` is after a probe without error, `Writing` after setLeader has seen another
      leader. */
  datatype CheckerPc = Idle | Probing | Got(addr: Bytes) | Writing(addr: Bytes) | Stopped

  /** A first-time update: it reads the leader, probes, finds the record under the key, compares, writes. */
  datatype UpdaterPc =
    | Reading | Asking | Answered(addr: Bytes) | Found(id: nat, addr: Bytes) | Setting(id: nat, addr: Bytes) | Ended

  datatype Updater = Updater(eps: seq<Endpoint>, pc: UpdaterPc)

  /** `checkers[id]` is the health checker of record `id`. */
  datatype State = State(reg: Registry, checkers: seq<CheckerPc>, updaters: seq<Updater>)

  datatype Label =
    | Register(eps: seq<Endpoint>, probed: Bytes) | Unregister(eps: seq<Endpoint>)
    | Tick(id: nat) | Stop(id: nat) | Probed(id: nat, result: Option<Bytes>) | Compare(id: nat) | Write(id: nat)
    | StartUpdate(eps: seq<Endpoint>) | ReadLeader(u: nat) | Answer(u: nat, result: Option<Bytes>)
    | Find(u: nat) | CompareFound(u: nat) | SetFound(u: nat)

  /** The clusters of this process: pairwise disjoint, with non-empty addresses. */
  ghost predicate GoodUniverse(all: set<multiset<Endpoint>>) {
    && (forall m | m in all :: IsCluster(m) && [] !in m)
    && (forall m, n | m in all && n in all :: SameOrDisjoint(m, n))
  }

  predicate CheckerAt(s: State, id: nat, pc: CheckerPc) {
    id < |s.checkers| && id < |s.reg.records| && s.checkers[id] == pc
  }

  /** What `checkLeader` promises: no error only with one of the endpoints it checks. */
  predicate IsVerdict(result: Option<Bytes>, eps: seq<Endpoint>) {
    result.Some? ==> result.value in eps
  }

  ghost predicate Enabled(all: set<multiset<Endpoint>>, s: State, l: Label) {
    match l
    case Register(eps, probed) => multiset(eps) in all && (probed == [] || probed in eps)
    case Unregister(eps) => multiset(eps) in all
    case Tick(id) => CheckerAt(s, id, Idle)
    case Stop(id) => CheckerAt(s, id, Idle) && s.reg.records[id].cancelled
    case Probed(id, result) => CheckerAt(s, id, Probing) && IsVerdict(result, s.reg.records[id].endpoints)
    case Compare(id) => id < |s.checkers| && id < |s.reg.records| && s.checkers[id].Got?
    case Write(id) => id < |s.checkers| && id < |s.reg.records| && s.checkers[id].Writing?
    case StartUpdate(eps) => multiset(eps) in all
    case ReadLeader(u) => u < |s.updaters| && s.updaters[u].pc == Reading
    case Answer(u, result) => u < |s.updaters| && s.updaters[u].pc == Asking && IsVerdict(result, s.updaters[u].eps)
    case Find(u) => u < |s.updaters| && s.updaters[u].pc.Answered?
    case CompareFound(u) => u < |s.updaters| && s.updaters[u].pc.Found? && s.updaters[u].pc.id < |s.reg.records|
    case SetFound(u) => u < |s.updaters| && s.updaters[u].pc.Setting? && s.updaters[u].pc.id < |s.reg.records|
  }

  function SetChecker(s: State, id: nat, pc: CheckerPc): State
    requires id < |s.checkers|
  {
    s.(checkers := s.checkers[id := pc])
  }

  function SetUpdater(s: State, u: nat, pc: UpdaterPc): State
    requires u < |s.updaters|
  {
    s.(updaters := s.updaters[u := s.updaters[u].(pc := pc)])
  }

  /** The registry after an update of the count; every new record starts a checker. */
  function AfterUpdate(s: State, r: Registry): State {
    s.(reg := r, checkers := if |r.records| > |s.reg.records| then s.checkers + [Idle] else s.checkers)
  }

  ghost function Apply(all: set<multiset<Endpoint>>, s: State, l: Label): State
    requires Enabled(all, s, l)
  {
    match l
    case Register(eps, probed) => AfterUpdate(s, Update(s.reg, eps, 1, probed).0)
    case Unregister(eps) => AfterUpdate(s, Update(s.reg, eps, -1, []).0)
    case Tick(id) => SetChecker(s, id, Probing)
    case Stop(id) => SetChecker(s, id, Stopped)
    case Probed(id, result) => SetChecker(s, id, if result.Some? then Got(result.value) else Idle)
    case Compare(id) =>
      SetChecker(s, id, if s.reg.records[id].leader == s.checkers[id].addr then Idle else Writing(s.checkers[id].addr))
    case Write(id) => SetChecker(s, id, Idle).(reg := SetLeader(s.reg, id, s.checkers[id].addr))
    case StartUpdate(eps) => s.(updaters := s.updaters + [Updater(eps, Reading)])
    case ReadLeader(u) =>
      SetUpdater(s, u, if LeaderUnder(s.reg, MarshalEndpoints(s.updaters[u].eps)) != [] then Ended else Asking)
    case Answer(u, result) => SetUpdater(s, u, if result.Some? then Answered(result.value) else Ended)
    case Find(u) =>
      var key := MarshalEndpoints(s.updaters[u].eps);
      SetUpdater(s, u, if key in s.reg.index then Found(s.reg.index[key], s.updaters[u].pc.addr) else Ended)
    case CompareFound(u) =>
      var pc := s.updaters[u].pc;
      SetUpdater(s, u, if s.reg.records[pc.id].leader == pc.addr then Ended else Setting(pc.id, pc.addr))
    case SetFound(u) => SetUpdater(s, u, Ended).(reg := SetLeader(s.reg, s.updaters[u].pc.id, s.updaters[u].pc.addr))
  }

  ghost predicate Next(all: set<multiset<Endpoint>>, s: State, s': State) {
    exists l :: Enabled(all, s, l) && s' == Apply(all, s, l)
  }

  ghost predicate IsRun(all: set<multiset<Endpoint>>, run: seq<State>) {
    && run != []
    && run[0] == State(EMPTY, [], [])
    && forall k :: 0 < k < |run| ==> Next(all, run[k - 1], run[k])
  }

  // ---------------------------------------------------------------- what holds in every state

  predicate LeaderOk(record: Record) {
    record.leader == [] || record.leader in record.endpoints
  }

  predicate CheckerOk(record: Record, pc: CheckerPc) {
    pc.Got? || pc.Writing? ==> pc.addr in record.endpoints
  }

  predicate UpdaterOk(records: seq<Record>, u: Updater) {
    match u.pc
    case Answered(addr) => addr in u.eps
    case Found(id, addr) => id < |records| && addr in records[id].endpoints
    case Setting(id, addr) => id < |records| && addr in records[id].endpoints
    case _ => true
  }

  ghost predicate RegistryOk(all: set<multiset<Endpoint>>, r: Registry) {
    exists counts: map<multiset<Endpoint>, int> :: Holds(r, counts) && counts.Keys <= all
  }

  ghost predicate Inv(all: set<multiset<Endpoint>>, s: State) {
    && RegistryOk(all, s.reg)
    && |s.checkers| == |s.reg.records|
    && (forall id :: 0 <= id < |s.reg.records| ==>
          && ClusterOf(s.reg.records[id]) in all
          && LeaderOk(s.reg.records[id])
          && CheckerOk(s.reg.records[id], s.checkers[id]))
    && (forall u :: 0 <= u < |s.updaters| ==>
          multiset(s.updaters[u].eps) in all && UpdaterOk(s.reg.records, s.updaters[u]))
  }

  /** Records keep their endpoints, and a leader once found is not lost. */
  ghost predicate Keeps(r: Registry, r': Registry) {
    |r.records| <= |r'.records| &&
    forall id :: 0 <= id < |r.records| ==>
      && r'.records[id].endpoints == r.records[id].endpoints
      && (r.records[id].leader != [] ==> r'.records[id].leader != [])
  }

  /** What an update does to the records: it keeps all their endpoints and leaders, and may add one record. */
  lemma UpdateRecords(r: Registry, eps: seq<Endpoint>, amount: int, probed: Bytes)
    ensures var r' := Update(r, eps, amount, probed).0;
      && |r.records| <= |r'.records| <= |r.records| + 1
      && (forall id :: 0 <= id < |r.records| ==>
            r'.records[id].endpoints == r.records[id].endpoints && r'.records[id].leader == r.records[id].leader)
      && (|r'.records| > |r.records| ==>
            r'.records[|r.records|].endpoints == eps && r'.records[|r.records|].leader == probed)
  {
    hide MarshalEndpoints, AddAliases;
  }

  lemma UpdateKeepsRegistryOk(all: set<multiset<Endpoint>>, r: Registry, eps: seq<Endpoint>, amount: int, probed: Bytes)
    requires GoodUniverse(all) && RegistryOk(all, r) && multiset(eps) in all
    ensures RegistryOk(all, Update(r, eps, amount, probed).0)
  {
    hide Update, Holds, IsCluster, SameOrDisjoint;
    var counts: map<multiset<Endpoint>, int> :| Holds(r, counts) && counts.Keys <= all;
    assert Fits(eps, counts);
    UpdateRefinesCount(r, counts, eps, amount, probed);
    assert Count(counts, multiset(eps), amount).Keys <= all;
  }

  lemma LeaderKeepsRegistryOk(all: set<multiset<Endpoint>>, r: Registry, id: nat, addr: Bytes)
    requires RegistryOk(all, r) && id < |r.records|
    ensures RegistryOk(all, SetLeader(r, id, addr))
  {
    hide KeyOf, AllClusters, Names;
    var counts: map<multiset<Endpoint>, int> :| Holds(r, counts) && counts.Keys <= all;
    var r' := SetLeader(r, id, addr);
    forall k | k in r'.index ensures IndexedOk(r', counts, k) {
      assert IndexedOk(r, counts, k);
    }
    forall m, k | m in counts && Names(k, m) ensures NamedOk(r', m, k) {
      assert NamedOk(r, m, k);
    }
    forall i | 0 <= i < |r'.records| ensures RecordOk(r', counts, i) {
      assert RecordOk(r, counts, i);
    }
    assert Holds(r', counts);
  }

  /** What a first-time update finds under the key of its list is a record of the same cluster. */
  lemma FindsOwnCluster(all: set<multiset<Endpoint>>, r: Registry, eps: seq<Endpoint>)
    requires GoodUniverse(all) && RegistryOk(all, r) && multiset(eps) in all
    ensures var key := MarshalEndpoints(eps);
      key in r.index ==> r.index[key] < |r.records| && ClusterOf(r.records[r.index[key]]) == multiset(eps)
  {
    hide MarshalEndpoints, KeyOf, IsCluster, SameOrDisjoint;
    var counts: map<multiset<Endpoint>, int> :| Holds(r, counts) && counts.Keys <= all;
    var key := MarshalEndpoints(eps);
    KeyOfList(eps);
    if key in r.index {
      assert IndexedOk(r, counts, key);
      NamesOneCluster(key, multiset(eps), ClusterOf(r.records[r.index[key]]));
    }
  }

  lemma SameCluster(eps: seq<Endpoint>, other: seq<Endpoint>, addr: Bytes)
    requires multiset(eps) == multiset(other) && addr in eps
    ensures addr in other
  {
    assert addr in multiset(eps);
  }

  // ---------------------------------------------------------------- every step keeps it

  /** Appending at most one well-formed record keeps the records in order. */
  lemma GrownRecordsOk(all: set<multiset<Endpoint>>, s: State, r: Registry, eps: seq<Endpoint>)
    requires Inv(all, s) && RegistryOk(all, r) && multiset(eps) in all
    requires |s.reg.records| <= |r.records| <= |s.reg.records| + 1
    requires forall id :: 0 <= id < |s.reg.records| ==>
      r.records[id].endpoints == s.reg.records[id].endpoints && r.records[id].leader == s.reg.records[id].leader
    requires |r.records| > |s.reg.records| ==>
      r.records[|s.reg.records|].endpoints == eps && LeaderOk(r.records[|s.reg.records|])
    ensures Inv(all, AfterUpdate(s, r))
  {
    hide RegistryOk;
    var s' := AfterUpdate(s, r);
    forall id | 0 <= id < |r.records|
      ensures ClusterOf(r.records[id]) in all && LeaderOk(r.records[id]) && CheckerOk(r.records[id], s'.checkers[id])
    {
      if id < |s.reg.records| {
        assert ClusterOf(s.reg.records[id]) in all && LeaderOk(s.reg.records[id])
            && CheckerOk(s.reg.records[id], s.checkers[id]);
      }
    }
    forall u | 0 <= u < |s.updaters| ensures UpdaterOk(r.records, s.updaters[u]) {
      assert UpdaterOk(s.reg.records, s.updaters[u]);
    }
  }

  lemma UpdateStepOk(all: set<multiset<Endpoint>>, s: State, l: Label)
    requires GoodUniverse(all) && Inv(all, s) && Enabled(all, s, l) && (l.Register? || l.Unregister?)
    ensures Inv(all, Apply(all, s, l)) && Keeps(s.reg, Apply(all, s, l).reg)
  {
    hide Update, RegistryOk, GoodUniverse;
    var amount, probed := if l.Register? then 1 else -1, if l.Register? then l.probed else [];
    UpdateRecords(s.reg, l.eps, amount, probed);
    UpdateKeepsRegistryOk(all, s.reg, l.eps, amount, probed);
    GrownRecordsOk(all, s, Update(s.reg, l.eps, amount, probed).0, l.eps);
  }

  lemma CheckerSet(all: set<multiset<Endpoint>>, s: State, id: nat, pc: CheckerPc)
    requires Inv(all, s) && id < |s.checkers| && CheckerOk(s.reg.records[id], pc)
    ensures Inv(all, SetChecker(s, id, pc))
  {
    hide RegistryOk, UpdaterOk, LeaderOk, ClusterOf, CheckerOk;
  }

  lemma UpdaterSet(all: set<multiset<Endpoint>>, s: State, u: nat, pc: UpdaterPc)
    requires Inv(all, s) && u < |s.updaters| && UpdaterOk(s.reg.records, s.updaters[u].(pc := pc))
    ensures Inv(all, SetUpdater(s, u, pc))
  {
    hide RegistryOk, UpdaterOk, LeaderOk, ClusterOf, CheckerOk;
  }

  lemma UpdatersStay(records: seq<Record>, records': seq<Record>, u: Updater)
    requires UpdaterOk(records, u) && |records'| == |records|
    requires forall i :: 0 <= i < |records| ==> records'[i].endpoints == records[i].endpoints
    ensures UpdaterOk(records', u)
  {
  }

  /** Another endpoint of its cluster as the leader of a record. */
  lemma LeaderSet(all: set<multiset<Endpoint>>, s: State, id: nat, addr: Bytes)
    requires Inv(all, s) && id < |s.reg.records| && addr in s.reg.records[id].endpoints
    ensures Inv(all, s.(reg := SetLeader(s.reg, id, addr)))
  {
    hide RegistryOk, UpdaterOk;
    var s' := s.(reg := SetLeader(s.reg, id, addr));
    LeaderKeepsRegistryOk(all, s.reg, id, addr);
    forall u | 0 <= u < |s.updaters| ensures UpdaterOk(s'.reg.records, s.updaters[u]) {
      UpdatersStay(s.reg.records, s'.reg.records, s.updaters[u]);
    }
  }

  lemma LeaderKeeps(all: set<multiset<Endpoint>>, s: State, id: nat, addr: Bytes)
    requires GoodUniverse(all) && Inv(all, s) && id < |s.reg.records| && addr in s.reg.records[id].endpoints
    ensures Keeps(s.reg, SetLeader(s.reg, id, addr))
  {
    hide RegistryOk, UpdaterOk, CheckerOk, SameOrDisjoint, IsCluster;
    assert addr in ClusterOf(s.reg.records[id]);
  }

  lemma CheckerStepOk(all: set<multiset<Endpoint>>, s: State, l: Label)
    requires Inv(all, s) && Enabled(all, s, l)
    requires l.Tick? || l.Stop? || l.Probed? || l.Compare?
    ensures Inv(all, Apply(all, s, l)) && Keeps(s.reg, Apply(all, s, l).reg)
  {
    hide RegistryOk, UpdaterOk, LeaderOk, ClusterOf;
    assert CheckerOk(s.reg.records[l.id], s.checkers[l.id]);
    CheckerSet(all, s, l.id, Apply(all, s, l).checkers[l.id]);
  }

  lemma WriteOk(all: set<multiset<Endpoint>>, s: State, id: nat)
    requires GoodUniverse(all) && Inv(all, s) && Enabled(all, s, Write(id))
    ensures Inv(all, Apply(all, s, Write(id))) && Keeps(s.reg, Apply(all, s, Write(id)).reg)
  {
    hide RegistryOk, UpdaterOk, LeaderOk, ClusterOf, GoodUniverse, Keeps;
    var addr := s.checkers[id].addr;
    assert CheckerOk(s.reg.records[id], s.checkers[id]);
    LeaderSet(all, s, id, addr);
    LeaderKeeps(all, s, id, addr);
    CheckerSet(all, s.(reg := SetLeader(s.reg, id, addr)), id, Idle);
  }

  lemma UpdaterStepOk(all: set<multiset<Endpoint>>, s: State, l: Label)
    requires GoodUniverse(all) && Inv(all, s) && Enabled(all, s, l)
    requires l.ReadLeader? || l.Answer? || l.Find? || l.CompareFound?
    ensures Inv(all, Apply(all, s, l)) && Keeps(s.reg, Apply(all, s, l).reg)
  {
    hide RegistryOk, MarshalEndpoints, GoodUniverse, LeaderOk, CheckerOk;
    var u := s.updaters[l.u];
    assert UpdaterOk(s.reg.records, u);
    if l.Find? {
      FindsOwnCluster(all, s.reg, u.eps);
      var key := MarshalEndpoints(u.eps);
      if key in s.reg.index {
        SameCluster(u.eps, s.reg.records[s.reg.index[key]].endpoints, u.pc.addr);
      }
    }
    UpdaterSet(all, s, l.u, Apply(all, s, l).updaters[l.u].pc);
  }

  lemma StartUpdateOk(all: set<multiset<Endpoint>>, s: State, eps: seq<Endpoint>)
    requires Inv(all, s) && Enabled(all, s, StartUpdate(eps))
    ensures Inv(all, Apply(all, s, StartUpdate(eps))) && Keeps(s.reg, Apply(all, s, StartUpdate(eps)).reg)
  {
    hide RegistryOk, LeaderOk, CheckerOk, ClusterOf;
  }

  lemma SetFoundOk(all: set<multiset<Endpoint>>, s: State, u: nat)
    requires GoodUniverse(all) && Inv(all, s) && Enabled(all, s, SetFound(u))
    ensures Inv(all, Apply(all, s, SetFound(u))) && Keeps(s.reg, Apply(all, s, SetFound(u)).reg)
  {
    hide RegistryOk, LeaderOk, CheckerOk, ClusterOf, GoodUniverse, Keeps;
    var pc := s.updaters[u].pc;
    assert UpdaterOk(s.reg.records, s.updaters[u]);
    LeaderSet(all, s, pc.id, pc.addr);
    LeaderKeeps(all, s, pc.id, pc.addr);
    UpdaterSet(all, s.(reg := SetLeader(s.reg, pc.id, pc.addr)), u, Ended);
  }

  lemma StepOk(all: set<multiset<Endpoint>>, s: State, l: Label)
    requires GoodUniverse(all) && Inv(all, s) && Enabled(all, s, l)
    ensures Inv(all, Apply(all, s, l)) && Keeps(s.reg, Apply(all, s, l).reg)
  {
    hide Inv, Apply, GoodUniverse, Keeps;
    match l
    case Register(_, _) | Unregister(_) => UpdateStepOk(all, s, l);
    case Tick(_) | Stop(_) | Probed(_, _) | Compare(_) => CheckerStepOk(all, s, l);
    case Write(id) => WriteOk(all, s, id);
    case StartUpdate(eps) => StartUpdateOk(all, s, eps);
    case ReadLeader(_) | Answer(_, _) | Find(_) | CompareFound(_) => UpdaterStepOk(all, s, l);
    case SetFound(u) => SetFoundOk(all, s, u);
  }

  lemma StartOk(all: set<multiset<Endpoint>>)
    ensures Inv(all, State(EMPTY, [], []))
  {
    assert Holds(EMPTY, map[]);
  }

  lemma {:induction false} RunOk(all: set<multiset<Endpoint>>, run: seq<State>)
    requires GoodUniverse(all) && IsRun(all, run)
    ensures Inv(all, run[|run| - 1])
  {
    hide GoodUniverse, Inv, Enabled, Apply;
    if |run| == 1 {
      StartOk(all);
    } else {
      RunOk(all, run[..|run| - 1]);
      assert Next(all, run[|run| - 2], run[|run| - 1]);
      var l :| Enabled(all, run[|run| - 2], l) && run[|run| - 1] == Apply(all, run[|run| - 2], l);
      StepOk(all, run[|run| - 2], l);
    }
  }

  // ---------------------------------------------------------------- the result

  /** The promise is kept by `checkLeader`: whatever it returns without error is one of the endpoints it checks. */
  lemma CheckLeaderKeepsPromise(eps: seq<Endpoint>, run: seq<LeaderProbe.State>)
    requires LeaderProbe.IsRun(eps, run) && run[|run| - 1].main.Returned?
    ensures var outcome := run[|run| - 1].main.outcome;
      IsVerdict(if outcome.Leader? then Some(outcome.addr) else None, eps)
  {
    LeaderProbe.ProbeSoundness(eps, run);
  }

  lemma {:induction false} KeepsToTheEnd(all: set<multiset<Endpoint>>, run: seq<State>, k: nat)
    requires GoodUniverse(all) && IsRun(all, run) && k < |run|
    ensures Keeps(run[k].reg, run[|run| - 1].reg)
  {
    hide GoodUniverse, Inv, Enabled, Apply;
    if k < |run| - 1 {
      var front := run[..|run| - 1];
      KeepsToTheEnd(all, front, k);
      RunOk(all, front);
      assert Next(all, run[|run| - 2], run[|run| - 1]);
      var l :| Enabled(all, run[|run| - 2], l) && run[|run| - 1] == Apply(all, run[|run| - 2], l);
      StepOk(all, run[|run| - 2], l);
    }
  }

  /** Under any interleaving, a record's leader is "" or one of its cluster's endpoints, and from the moment it is set
      it never becomes "" again. */
  lemma LeaderSticks(all: set<multiset<Endpoint>>, run: seq<State>, k: nat, id: nat)
    requires GoodUniverse(all) && IsRun(all, run) && k < |run| && id < |run[k].reg.records|
    ensures id < |run[|run| - 1].reg.records|
    ensures var before, after := run[k].reg.records[id], run[|run| - 1].reg.records[id];
      && after.endpoints == before.endpoints
      && (after.leader == [] || after.leader in before.endpoints)
      && (before.leader != [] ==> after.leader != [])
  {
    RunOk(all, run);
    KeepsToTheEnd(all, run, k);
    assert LeaderOk(run[|run| - 1].reg.records[id]);
  }
}
