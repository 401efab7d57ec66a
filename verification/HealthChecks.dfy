/** A cluster that is registered is looked after: its record's health checker runs on, and a verdict that a checker, a
    registration or a first-time update is given can be made to count by its own steps alone
    (client/balancer/picker/leader_ctrl.go). */
module HealthChecks {
  import opened ByteStrings
  import opened Wrappers
  import opened ClusterKey
  import opened Registry
  import opened Leadership

  // ---------------------------------------------------------------- a checker stops only with its record

  predicate StopsWithRecord(record: Record, pc: CheckerPc) {
    pc == Stopped ==> record.cancelled
  }

  predicate StopsOk(s: State) {
    |s.checkers| == |s.reg.records|
    && forall id :: 0 <= id < |s.reg.records| ==> StopsWithRecord(s.reg.records[id], s.checkers[id])
  }

  /** No update takes a cancellation back. */
  lemma StaysCancelled(r: Registry, eps: seq<Endpoint>, amount: int, probed: Bytes)
    ensures var r' := Update(r, eps, amount, probed).0;
      && |r.records| <= |r'.records| <= |r.records| + 1
      && forall id :: 0 <= id < |r.records| ==> (r.records[id].cancelled ==> r'.records[id].cancelled)
  {
    hide MarshalEndpoints, AddAliases;
  }

  lemma StopsStep(all: set<multiset<Endpoint>>, s: State, l: Label)
    requires StopsOk(s) && Enabled(all, s, l)
    ensures StopsOk(Apply(all, s, l))
  {
    hide Update, MarshalEndpoints, LeaderUnder;
    if l.Register? {
      StaysCancelled(s.reg, l.eps, 1, l.probed);
    } else if l.Unregister? {
      StaysCancelled(s.reg, l.eps, -1, []);
    }
  }

  lemma RunFront(all: set<multiset<Endpoint>>, run: seq<State>)
    requires IsRun(all, run) && |run| > 1
    ensures IsRun(all, run[..|run| - 1]) && Next(all, run[|run| - 2], run[|run| - 1])
  {
    hide Next;
  }

  lemma {:induction false} RunStopsOk(all: set<multiset<Endpoint>>, run: seq<State>)
    requires IsRun(all, run)
    ensures StopsOk(run[|run| - 1])
  {
    hide Enabled, Apply, StopsWithRecord;
    if |run| > 1 {
      var s := run[|run| - 2];
      RunFront(all, run);
      RunStopsOk(all, run[..|run| - 1]);
      var l :| Enabled(all, s, l) && run[|run| - 1] == Apply(all, s, l);
      StopsStep(all, s, l);
    }
  }

  /** The record of a registered cluster is not cancelled. */
  lemma RegisteredIsAlive(all: set<multiset<Endpoint>>, run: seq<State>, key: Bytes)
    requires GoodUniverse(all) && IsRun(all, run) && key in run[|run| - 1].reg.index
    ensures var r := run[|run| - 1].reg; r.index[key] < |r.records| && !r.records[r.index[key]].cancelled
  {
    hide GoodUniverse, KeyOf, Names, AllClusters, Next;
    RunOk(all, run);
    var r := run[|run| - 1].reg;
    var counts: map<multiset<Endpoint>, int> :| Holds(r, counts) && counts.Keys <= all;
    assert IndexedOk(r, counts, key);
  }

  /** In every run a checker has stopped only if its record is cancelled; so whatever record is found under a key or an
      endpoint has a checker that still runs. */
  lemma RegisteredIsChecked(all: set<multiset<Endpoint>>, run: seq<State>, id: nat)
    requires GoodUniverse(all) && IsRun(all, run) && id < |run[|run| - 1].reg.records|
    ensures var s := run[|run| - 1];
      && |s.checkers| == |s.reg.records|
      && (s.checkers[id] == Stopped ==> s.reg.records[id].cancelled)
      && forall key | key in s.reg.index && s.reg.index[key] == id :: s.checkers[id] != Stopped
  {
    hide GoodUniverse, RegistryOk, CheckerOk, UpdaterOk, LeaderOk;
    var s := run[|run| - 1];
    RunOk(all, run);
    RunStopsOk(all, run);
    assert StopsWithRecord(s.reg.records[id], s.checkers[id]);
    forall key | key in s.reg.index && s.reg.index[key] == id ensures s.checkers[id] != Stopped {
      RegisteredIsAlive(all, run, key);
    }
  }

  // ---------------------------------------------------------------- a verdict can be made to count

  lemma ExtendRun(all: set<multiset<Endpoint>>, run: seq<State>, l: Label)
    requires IsRun(all, run) && Enabled(all, run[|run| - 1], l)
    ensures IsRun(all, run + [Apply(all, run[|run| - 1], l)])
  {
    hide Enabled, Apply;
    var s' := Apply(all, run[|run| - 1], l);
    var run' := run + [s'];
    assert Next(all, run[|run| - 1], s');
    forall k | 0 < k < |run'| ensures Next(all, run'[k - 1], run'[k]) {
      if k < |run| { assert Next(all, run[k - 1], run[k]); }
    }
  }

  /** Takes the step `l`, whose effect is known. */
  lemma Step(all: set<multiset<Endpoint>>, run: seq<State>, l: Label, s': State) returns (longer: seq<State>)
    requires IsRun(all, run) && Enabled(all, run[|run| - 1], l) && Apply(all, run[|run| - 1], l) == s'
    ensures IsRun(all, longer) && run <= longer && longer[|longer| - 1] == s'
  {
    hide Enabled, Apply, Next;
    ExtendRun(all, run, l);
    longer := run + [s'];
  }

  /** `s` but for checker `id` and its record's leader. */
  function WithChecker(s: State, id: nat, pc: CheckerPc, leader: Bytes): State
    requires id < |s.checkers| && id < |s.reg.records|
  {
    s.(checkers := s.checkers[id := pc], reg := SetLeader(s.reg, id, leader))
  }

  lemma LeaderAsItWas(s: State, id: nat, pc: CheckerPc)
    requires id < |s.checkers| && id < |s.reg.records|
    ensures SetChecker(s, id, pc) == WithChecker(s, id, pc, s.reg.records[id].leader)
    ensures s.checkers[id] == pc ==> s == WithChecker(s, id, pc, s.reg.records[id].leader)
  {
  }

  /** A checker with a verdict makes it count and goes back to waiting. */
  lemma CheckerDelivers(all: set<multiset<Endpoint>>, run: seq<State>, id: nat) returns (whole: seq<State>)
    requires IsRun(all, run)
    requires var s := run[|run| - 1];
      id < |s.checkers| == |s.reg.records| && (s.checkers[id].Got? || s.checkers[id].Writing?)
    ensures IsRun(all, whole) && run <= whole
    ensures whole[|whole| - 1] == WithChecker(run[|run| - 1], id, Idle, run[|run| - 1].checkers[id].addr)
  {
    hide Next;
    var s := run[|run| - 1];
    var addr := s.checkers[id].addr;
    whole := run;
    if s.checkers[id].Got? {
      if s.reg.records[id].leader == addr {
        LeaderAsItWas(s, id, Idle);
        whole := Step(all, whole, Compare(id), WithChecker(s, id, Idle, addr));
        return;
      }
      whole := Step(all, whole, Compare(id), SetChecker(s, id, Writing(addr)));
    }
    whole := Step(all, whole, Write(id), WithChecker(s, id, Idle, addr));
  }

  /** From a wait, a checker can be told any endpoint of its cluster and make it the leader. */
  lemma IdleCheckerDelivers(all: set<multiset<Endpoint>>, run: seq<State>, id: nat, addr: Bytes)
    returns (whole: seq<State>)
    requires IsRun(all, run)
    requires var s := run[|run| - 1];
      && id < |s.checkers| == |s.reg.records| && (s.checkers[id] == Idle || s.checkers[id] == Probing)
      && addr in s.reg.records[id].endpoints
    ensures IsRun(all, whole) && run <= whole
    ensures whole[|whole| - 1] == WithChecker(run[|run| - 1], id, Idle, addr)
  {
    hide Next;
    var s := run[|run| - 1];
    whole := run;
    if s.checkers[id] == Idle {
      whole := Step(all, whole, Tick(id), SetChecker(s, id, Probing));
    }
    whole := Step(all, whole, Probed(id, Some(addr)), SetChecker(s, id, Got(addr)));
    whole := CheckerDelivers(all, whole, id);
  }

  lemma InvRegistry(all: set<multiset<Endpoint>>, s: State)
    requires Inv(all, s)
    ensures RegistryOk(all, s.reg) && |s.checkers| == |s.reg.records|
  {
    hide RegistryOk;
  }

  lemma LaterCheckerCounts(s: State, id: nat, first: Bytes, second: Bytes)
    requires id < |s.checkers| && id < |s.reg.records|
    ensures var s' := WithChecker(s, id, Idle, first);
      && id < |s'.checkers| && |s'.checkers| == |s.checkers| && |s'.reg.records| == |s.reg.records|
      && s'.checkers[id] == Idle && s'.reg.records[id].endpoints == s.reg.records[id].endpoints
      && WithChecker(s', id, Idle, second) == WithChecker(s, id, Idle, second)
  {
  }

  /** A checker that has not stopped can make any endpoint of its cluster the leader. */
  lemma RunningCheckerDelivers(all: set<multiset<Endpoint>>, run: seq<State>, id: nat, addr: Bytes)
    returns (whole: seq<State>)
    requires IsRun(all, run)
    requires var s := run[|run| - 1];
      && id < |s.checkers| == |s.reg.records| && s.checkers[id] != Stopped && addr in s.reg.records[id].endpoints
    ensures IsRun(all, whole) && run <= whole
    ensures whole[|whole| - 1] == WithChecker(run[|run| - 1], id, Idle, addr)
  {
    hide Next, WithChecker;
    var s := run[|run| - 1];
    if s.checkers[id].Got? || s.checkers[id].Writing? {
      LaterCheckerCounts(s, id, s.checkers[id].addr, addr);
      var first := CheckerDelivers(all, run, id);
      whole := IdleCheckerDelivers(all, first, id, addr);
    } else {
      whole := IdleCheckerDelivers(all, run, id, addr);
    }
  }

  /** From any state, the steps of the checker of a registered cluster alone can make any endpoint of the cluster its
      leader: nothing else changes. */
  lemma CheckerCanSetLeader(all: set<multiset<Endpoint>>, run: seq<State>, key: Bytes, addr: Bytes)
    returns (whole: seq<State>)
    requires GoodUniverse(all) && IsRun(all, run) && key in run[|run| - 1].reg.index
    ensures var s := run[|run| - 1]; s.reg.index[key] < |s.reg.records| == |s.checkers|
    ensures var s, id := run[|run| - 1], run[|run| - 1].reg.index[key];
      addr in s.reg.records[id].endpoints ==>
        IsRun(all, whole) && run <= whole && whole[|whole| - 1] == WithChecker(s, id, Idle, addr)
  {
    hide GoodUniverse, Inv, Next, WithChecker, RegistryOk;
    var s := run[|run| - 1];
    RunOk(all, run);
    InvRegistry(all, s);
    RegisteredIsAlive(all, run, key);
    var id := s.reg.index[key];
    RegisteredIsChecked(all, run, id);
    whole := run;
    if addr in s.reg.records[id].endpoints {
      whole := RunningCheckerDelivers(all, run, id, addr);
    }
  }

  /** `s` with one more first-time update, which is at `pc`. */
  function WithUpdater(s: State, eps: seq<Endpoint>, pc: UpdaterPc): State {
    s.(updaters := s.updaters + [Updater(eps, pc)])
  }

  lemma UpdaterAtWork(s: State, eps: seq<Endpoint>, pc: UpdaterPc, pc': UpdaterPc)
    ensures SetUpdater(WithUpdater(s, eps, pc), |s.updaters|, pc') == WithUpdater(s, eps, pc')
    ensures WithUpdater(s, eps, pc).updaters[|s.updaters|] == Updater(eps, pc)
  {
  }

  /** A first-time update that was told an address makes it the leader of the record that it finds. */
  lemma AnsweredUpdateDelivers(
    all: set<multiset<Endpoint>>, run: seq<State>, s: State, eps: seq<Endpoint>, addr: Bytes)
    returns (whole: seq<State>)
    requires IsRun(all, run) && run[|run| - 1] == WithUpdater(s, eps, Answered(addr))
    requires MarshalEndpoints(eps) in s.reg.index && s.reg.index[MarshalEndpoints(eps)] < |s.reg.records|
    requires s.reg.records[s.reg.index[MarshalEndpoints(eps)]].leader != addr
    ensures IsRun(all, whole) && run <= whole
    ensures whole[|whole| - 1]
         == WithUpdater(s, eps, Ended).(reg := SetLeader(s.reg, s.reg.index[MarshalEndpoints(eps)], addr))
  {
    hide Next, MarshalEndpoints;
    var u, id := |s.updaters|, s.reg.index[MarshalEndpoints(eps)];
    UpdaterAtWork(s, eps, Answered(addr), Found(id, addr));
    whole := Step(all, run, Find(u), WithUpdater(s, eps, Found(id, addr)));
    UpdaterAtWork(s, eps, Found(id, addr), Setting(id, addr));
    whole := Step(all, whole, CompareFound(u), WithUpdater(s, eps, Setting(id, addr)));
    UpdaterAtWork(s, eps, Setting(id, addr), Ended);
    whole := Step(all, whole, SetFound(u), WithUpdater(s, eps, Ended).(reg := SetLeader(s.reg, id, addr)));
  }

  /** A new first-time update of a cluster without a leader is told an address. */
  lemma NewUpdateIsAnswered(
    all: set<multiset<Endpoint>>, run: seq<State>, s: State, eps: seq<Endpoint>, addr: Bytes)
    returns (whole: seq<State>)
    requires IsRun(all, run) && run[|run| - 1] == s && multiset(eps) in all && addr in eps
    requires LeaderUnder(s.reg, MarshalEndpoints(eps)) == []
    ensures IsRun(all, whole) && run <= whole && whole[|whole| - 1] == WithUpdater(s, eps, Answered(addr))
  {
    hide Next, MarshalEndpoints, LeaderUnder;
    var u := |s.updaters|;
    whole := Step(all, run, StartUpdate(eps), WithUpdater(s, eps, Reading));
    UpdaterAtWork(s, eps, Reading, Asking);
    whole := Step(all, whole, ReadLeader(u), WithUpdater(s, eps, Asking));
    UpdaterAtWork(s, eps, Asking, Answered(addr));
    whole := Step(all, whole, Answer(u, Some(addr)), WithUpdater(s, eps, Answered(addr)));
  }

  /** From any state in which a cluster is registered and has no leader, the steps of a new first-time update alone can
      make any endpoint of it the leader. */
  lemma UpdateCanSetLeader(all: set<multiset<Endpoint>>, run: seq<State>, eps: seq<Endpoint>, addr: Bytes)
    returns (whole: seq<State>)
    requires GoodUniverse(all) && IsRun(all, run) && multiset(eps) in all && addr in eps
    requires MarshalEndpoints(eps) in run[|run| - 1].reg.index
    requires LeaderUnder(run[|run| - 1].reg, MarshalEndpoints(eps)) == []
    ensures var r := run[|run| - 1].reg; r.index[MarshalEndpoints(eps)] < |r.records|
    ensures IsRun(all, whole) && run <= whole
    ensures var s := run[|run| - 1];
      whole[|whole| - 1]
        == WithUpdater(s, eps, Ended).(reg := SetLeader(s.reg, s.reg.index[MarshalEndpoints(eps)], addr))
  {
    hide Next, MarshalEndpoints, Inv, GoodUniverse, RegistryOk, WithUpdater;
    var s := run[|run| - 1];
    RunOk(all, run);
    InvRegistry(all, s);
    RegisteredIsAlive(all, run, MarshalEndpoints(eps));
    AddressIsNotEmpty(all, eps, addr);
    var answered := NewUpdateIsAnswered(all, run, s, eps, addr);
    whole := AnsweredUpdateDelivers(all, answered, s, eps, addr);
  }

  lemma AddressIsNotEmpty(all: set<multiset<Endpoint>>, eps: seq<Endpoint>, addr: Bytes)
    requires GoodUniverse(all) && multiset(eps) in all && addr in eps
    ensures addr != []
  {
    hide IsCluster, SameOrDisjoint;
    assert addr in multiset(eps);
  }

  /** From any state in which a cluster is not registered, a registration can find any endpoint of it, or none, to be
      the leader; that is then what every one of its names says. */
  lemma RegistrationCanSetLeader(
    all: set<multiset<Endpoint>>, run: seq<State>, eps: seq<Endpoint>, probed: Bytes, name: Bytes)
    returns (whole: seq<State>)
    requires GoodUniverse(all) && IsRun(all, run) && multiset(eps) in all && (probed == [] || probed in eps)
    requires MarshalEndpoints(eps) !in run[|run| - 1].reg.index && Names(name, multiset(eps))
    ensures IsRun(all, whole) && |whole| == |run| + 1 && run <= whole
    ensures name in whole[|whole| - 1].reg.index && LeaderUnder(whole[|whole| - 1].reg, name) == probed
  {
    hide Next, MarshalEndpoints, Inv, Update;
    var s := run[|run| - 1];
    RunOk(all, run);
    InvRegistry(all, s);
    RegisteredUnderAll(all, s.reg, eps, probed, name);
    var s' := AfterUpdate(s, Update(s.reg, eps, 1, probed).0);
    ExtendRun(all, run, Register(eps, probed));
    whole := run + [s'];
  }

  lemma RegisteredUnderAll(all: set<multiset<Endpoint>>, r: Registry, eps: seq<Endpoint>, probed: Bytes, name: Bytes)
    requires GoodUniverse(all) && RegistryOk(all, r) && multiset(eps) in all
    requires MarshalEndpoints(eps) !in r.index && Names(name, multiset(eps))
    ensures var r' := Update(r, eps, 1, probed).0;
      name in r'.index && LeaderUnder(r', name) == probed
  {
    hide MarshalEndpoints, KeyOf, Update, Names, IsCluster, AllClusters;
    var counts: map<multiset<Endpoint>, int> :| Holds(r, counts) && counts.Keys <= all;
    var m := multiset(eps);
    KeyOfList(eps);
    KeyIsName(m);
    if m in counts {
      OneRecord(r, counts, m, KeyOf(m));
    }
    forall k | Names(k, m) ensures k !in r.index {
      NothingUnder(r, counts, eps, k);
    }
    NewIndex(r, eps, 1, probed);
  }

  /** A cancelled record's checker can stop. */
  lemma CancelledCheckerStops(all: set<multiset<Endpoint>>, run: seq<State>, id: nat) returns (whole: seq<State>)
    requires GoodUniverse(all) && IsRun(all, run) && id < |run[|run| - 1].reg.records|
    requires run[|run| - 1].reg.records[id].cancelled
    ensures IsRun(all, whole) && run <= whole && id < |whole[|whole| - 1].checkers|
    ensures whole[|whole| - 1].checkers[id] == Stopped && whole[|whole| - 1].reg.index == run[|run| - 1].reg.index
  {
    hide GoodUniverse, Inv, Next;
    whole := run;
    RunOk(all, run);
    InvRegistry(all, run[|run| - 1]);
    if whole[|whole| - 1].checkers[id] == Stopped {
      return;
    }
    if whole[|whole| - 1].checkers[id].Got? || whole[|whole| - 1].checkers[id].Writing? {
      whole := CheckerDelivers(all, whole, id);
    }
    if whole[|whole| - 1].checkers[id] == Probing {
      whole := Step(all, whole, Probed(id, None), SetChecker(whole[|whole| - 1], id, Idle));
    }
    whole := Step(all, whole, Stop(id), SetChecker(whole[|whole| - 1], id, Stopped));
  }

  /** Any client can open or close at any moment; the registry is then updated as `Update` says. */
  lemma ClientsComeAndGo(all: set<multiset<Endpoint>>, run: seq<State>, eps: seq<Endpoint>, probed: Bytes)
    requires IsRun(all, run) && multiset(eps) in all && (probed == [] || probed in eps)
    ensures var s := run[|run| - 1];
      && IsRun(all, run + [AfterUpdate(s, Update(s.reg, eps, 1, probed).0)])
      && IsRun(all, run + [AfterUpdate(s, Update(s.reg, eps, -1, []).0)])
  {
    hide Next, Update;
    ExtendRun(all, run, Register(eps, probed));
    ExtendRun(all, run, Unregister(eps));
  }

  /** When the last user of a cluster leaves, its record is cancelled and its checker can end. */
  lemma LastUserLeaves(all: set<multiset<Endpoint>>, run: seq<State>, eps: seq<Endpoint>) returns (whole: seq<State>)
    requires GoodUniverse(all) && IsRun(all, run) && multiset(eps) in all
    requires MarshalEndpoints(eps) in run[|run| - 1].reg.index
    requires var r := run[|run| - 1].reg;
      r.index[MarshalEndpoints(eps)] < |r.records| ==> r.records[r.index[MarshalEndpoints(eps)]].amount == 1
    ensures IsRun(all, whole) && run <= whole && MarshalEndpoints(eps) !in whole[|whole| - 1].reg.index
    ensures var id := run[|run| - 1].reg.index[MarshalEndpoints(eps)];
      id < |whole[|whole| - 1].checkers| && whole[|whole| - 1].checkers[id] == Stopped
  {
    hide Next, MarshalEndpoints, Inv, GoodUniverse, RegistryOk, Update;
    var s := run[|run| - 1];
    RunOk(all, run);
    InvRegistry(all, s);
    RegisteredIsAlive(all, run, MarshalEndpoints(eps));
    GoneUpdate(s.reg, eps, -1, []);
    ClientsComeAndGo(all, run, eps, []);
    var gone := run + [AfterUpdate(s, Update(s.reg, eps, -1, []).0)];
    whole := CancelledCheckerStops(all, gone, s.reg.index[MarshalEndpoints(eps)]);
  }
}
