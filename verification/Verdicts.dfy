/** Where a record's leader comes from and what becomes of a verdict, over whole runs of registrations, health checkers
    and first-time updates (client/balancer/picker/leader_ctrl.go). */
module Verdicts {
  import opened ByteStrings
  import opened Wrappers
  import opened ClusterKey
  import opened Registry
  import opened Leadership

  type Cluster = multiset<Endpoint>

  ghost predicate Took(all: set<Cluster>, s: State, l: Label, s': State) {
    Enabled(all, s, l) && s' == Apply(all, s, l)
  }

  /** A run with the step that was taken between each state and the next. */
  ghost predicate IsTrace(all: set<Cluster>, run: seq<State>, steps: seq<Label>) {
    && |run| == |steps| + 1
    && run[0] == State(EMPTY, [], [])
    && forall k :: 0 <= k < |steps| ==> Took(all, run[k], steps[k], run[k + 1])
  }

  lemma TraceIsRun(all: set<Cluster>, run: seq<State>, steps: seq<Label>)
    requires IsTrace(all, run, steps)
    ensures IsRun(all, run)
  {
    hide Enabled, Apply;
    forall k | 0 < k < |run| ensures Next(all, run[k - 1], run[k]) {
      assert Took(all, run[k - 1], steps[k - 1], run[k]);
    }
  }

  /** Every run is the run of a trace. */
  lemma {:induction false} RunHasTrace(all: set<Cluster>, run: seq<State>) returns (steps: seq<Label>)
    requires IsRun(all, run)
    ensures IsTrace(all, run, steps)
  {
    hide Enabled, Apply;
    if |run| == 1 {
      steps := [];
    } else {
      var front := run[..|run| - 1];
      steps := RunHasTrace(all, front);
      assert Next(all, run[|run| - 2], run[|run| - 1]);
      var l :| Enabled(all, run[|run| - 2], l) && run[|run| - 1] == Apply(all, run[|run| - 2], l);
      forall k | 0 <= k < |steps| + 1 ensures Took(all, run[k], (steps + [l])[k], run[k + 1]) {
        if k < |steps| { assert Took(all, front[k], steps[k], front[k + 1]); }
      }
      steps := steps + [l];
    }
  }

  lemma TraceFront(all: set<Cluster>, run: seq<State>, steps: seq<Label>)
    requires IsTrace(all, run, steps) && steps != []
    ensures IsTrace(all, run[..|run| - 1], steps[..|steps| - 1])
    ensures Took(all, run[|run| - 2], steps[|steps| - 1], run[|run| - 1])
  {
    hide Took;
    var run', steps' := run[..|run| - 1], steps[..|steps| - 1];
    assert run[|steps|] == run[|run| - 1];
    forall k | 0 <= k < |steps'| ensures Took(all, run'[k], steps'[k], run'[k + 1]) {
      assert Took(all, run[k], steps[k], run[k + 1]);
    }
  }

  lemma TraceOk(all: set<Cluster>, run: seq<State>, steps: seq<Label>)
    requires GoodUniverse(all) && IsTrace(all, run, steps)
    ensures Inv(all, run[|run| - 1])
  {
    hide GoodUniverse, Inv;
    TraceIsRun(all, run, steps);
    RunOk(all, run);
  }

  // ---------------------------------------------------------------- every leader was a verdict

  /** The verdict that a step brings in: which address was found to lead which cluster. A registration checks only when
      it makes a record. */
  ghost function VerdictOf(s: State, l: Label): set<(Cluster, Bytes)> {
    match l
    case Register(eps, probed) => if MarshalEndpoints(eps) !in s.reg.index then {(multiset(eps), probed)} else {}
    case Probed(id, result) =>
      if id < |s.reg.records| && result.Some? then {(ClusterOf(s.reg.records[id]), result.value)} else {}
    case Answer(u, result) =>
      if u < |s.updaters| && result.Some? then {(multiset(s.updaters[u].eps), result.value)} else {}
    case _ => {}
  }

  /** All verdicts that the steps brought in. */
  ghost function Verdicts(run: seq<State>, steps: seq<Label>): set<(Cluster, Bytes)>
    requires |run| == |steps| + 1
  {
    if steps == [] then {}
    else Verdicts(run[..|run| - 1], steps[..|steps| - 1]) + VerdictOf(run[|steps| - 1], steps[|steps| - 1])
  }

  lemma {:induction false} VerdictsAre(run: seq<State>, steps: seq<Label>, verdict: (Cluster, Bytes))
    requires |run| == |steps| + 1 && verdict in Verdicts(run, steps)
    ensures exists j :: 0 <= j < |steps| && verdict in VerdictOf(run[j], steps[j])
  {
    hide VerdictOf;
    if verdict !in VerdictOf(run[|steps| - 1], steps[|steps| - 1]) {
      var run', steps' := run[..|run| - 1], steps[..|steps| - 1];
      VerdictsAre(run', steps', verdict);
      var j :| 0 <= j < |steps'| && verdict in VerdictOf(run'[j], steps'[j]);
      assert verdict in VerdictOf(run[j], steps[j]);
    }
  }

  predicate RecordSourced(known: set<(Cluster, Bytes)>, record: Record, pc: CheckerPc) {
    && (ClusterOf(record), record.leader) in known
    && (pc.Got? || pc.Writing? ==> (ClusterOf(record), pc.addr) in known)
  }

  predicate UpdaterSourced(known: set<(Cluster, Bytes)>, records: seq<Record>, u: Updater) {
    match u.pc
    case Answered(addr) => (multiset(u.eps), addr) in known
    case Found(id, addr) => id < |records| && (ClusterOf(records[id]), addr) in known
    case Setting(id, addr) => id < |records| && (ClusterOf(records[id]), addr) in known
    case _ => true
  }

  /** Every address that is or is about to become a leader was a verdict on that cluster. */
  predicate Sourced(known: set<(Cluster, Bytes)>, s: State) {
    && |s.checkers| == |s.reg.records|
    && (forall id :: 0 <= id < |s.reg.records| ==> RecordSourced(known, s.reg.records[id], s.checkers[id]))
    && (forall u :: 0 <= u < |s.updaters| ==> UpdaterSourced(known, s.reg.records, s.updaters[u]))
  }

  lemma RegistrationSourced(all: set<Cluster>, s: State, l: Label, known: set<(Cluster, Bytes)>)
    requires Sourced(known, s) && Enabled(all, s, l) && (l.Register? || l.Unregister?)
    ensures Sourced(known + VerdictOf(s, l), Apply(all, s, l))
  {
    hide Update, RecordSourced, UpdaterSourced, MarshalEndpoints;
    var s', known' := Apply(all, s, l), known + VerdictOf(s, l);
    var amount, probed := if l.Register? then 1 else -1, if l.Register? then l.probed else [];
    UpdateRecords(s.reg, l.eps, amount, probed);
    RegisterWrites(s.reg, l.eps, probed);
    UnregisterAddsNothing(s.reg, l.eps);
    forall id | 0 <= id < |s'.reg.records| ensures RecordSourced(known', s'.reg.records[id], s'.checkers[id]) {
      if id < |s.reg.records| {
        assert RecordSourced(known, s.reg.records[id], s.checkers[id]);
        RecordStaysSourced(known, known', s.reg.records[id], s'.reg.records[id], s.checkers[id]);
      } else {
        NewRecordSourced(known', s'.reg.records[id]);
      }
    }
    forall u | 0 <= u < |s'.updaters| ensures UpdaterSourced(known', s'.reg.records, s'.updaters[u]) {
      UpdaterStaysSourced(known, known', s.reg.records, s'.reg.records, s.updaters[u]);
    }
  }

  lemma UpdaterStaysSourced(
    known: set<(Cluster, Bytes)>, known': set<(Cluster, Bytes)>, records: seq<Record>, records': seq<Record>,
    u: Updater)
    requires UpdaterSourced(known, records, u) && known <= known' && |records| <= |records'|
    requires forall i :: 0 <= i < |records| ==> records'[i].endpoints == records[i].endpoints
    ensures UpdaterSourced(known', records', u)
  {
  }

  lemma RecordStaysSourced(
    known: set<(Cluster, Bytes)>, known': set<(Cluster, Bytes)>, record: Record, record': Record, pc: CheckerPc)
    requires RecordSourced(known, record, pc) && known <= known'
    requires record'.endpoints == record.endpoints && record'.leader == record.leader
    ensures RecordSourced(known', record', pc)
  {
  }

  lemma NewRecordSourced(known: set<(Cluster, Bytes)>, record: Record)
    requires (ClusterOf(record), record.leader) in known
    ensures RecordSourced(known, record, Idle)
  {
  }

  lemma RegisterWrites(r: Registry, eps: seq<Endpoint>, probed: Bytes)
    ensures var r' := Update(r, eps, 1, probed).0;
      |r'.records| > |r.records| <==> MarshalEndpoints(eps) !in r.index
  {
    hide MarshalEndpoints, AddAliases;
  }

  lemma UnregisterAddsNothing(r: Registry, eps: seq<Endpoint>)
    ensures |Update(r, eps, -1, []).0.records| == |r.records|
  {
    hide MarshalEndpoints, AddAliases;
  }

  lemma SourcedMore(known: set<(Cluster, Bytes)>, known': set<(Cluster, Bytes)>, s: State)
    requires Sourced(known, s) && known <= known'
    ensures Sourced(known', s)
  {
  }

  lemma CheckerSetSourced(known: set<(Cluster, Bytes)>, s: State, id: nat, pc: CheckerPc)
    requires Sourced(known, s) && id < |s.checkers| && RecordSourced(known, s.reg.records[id], pc)
    ensures Sourced(known, SetChecker(s, id, pc))
  {
    hide RecordSourced, UpdaterSourced;
  }

  lemma UpdaterSetSourced(known: set<(Cluster, Bytes)>, s: State, u: nat, pc: UpdaterPc)
    requires Sourced(known, s) && u < |s.updaters|
    requires UpdaterSourced(known, s.reg.records, s.updaters[u].(pc := pc))
    ensures Sourced(known, SetUpdater(s, u, pc))
  {
    hide RecordSourced, UpdaterSourced;
  }

  lemma LeaderSetSourced(known: set<(Cluster, Bytes)>, s: State, id: nat, addr: Bytes)
    requires Sourced(known, s) && id < |s.reg.records| && (ClusterOf(s.reg.records[id]), addr) in known
    ensures Sourced(known, s.(reg := SetLeader(s.reg, id, addr)))
  {
    var s' := s.(reg := SetLeader(s.reg, id, addr));
    forall u | 0 <= u < |s'.updaters| ensures UpdaterSourced(known, s'.reg.records, s'.updaters[u]) {
      assert UpdaterSourced(known, s.reg.records, s.updaters[u]);
    }
  }

  lemma CheckerSourced(all: set<Cluster>, s: State, l: Label, known: set<(Cluster, Bytes)>)
    requires Sourced(known, s) && Enabled(all, s, l)
    requires l.Tick? || l.Stop? || l.Probed? || l.Compare? || l.Write?
    ensures Sourced(known + VerdictOf(s, l), Apply(all, s, l))
  {
    hide UpdaterSourced;
    var known' := known + VerdictOf(s, l);
    assert RecordSourced(known, s.reg.records[l.id], s.checkers[l.id]);
    SourcedMore(known, known', s);
    if l.Write? {
      LeaderSetSourced(known', s, l.id, s.checkers[l.id].addr);
      CheckerSetSourced(known', s.(reg := SetLeader(s.reg, l.id, s.checkers[l.id].addr)), l.id, Idle);
    } else {
      CheckerSetSourced(known', s, l.id, Apply(all, s, l).checkers[l.id]);
    }
  }

  lemma UpdaterStepSourced(all: set<Cluster>, s: State, l: Label, known: set<(Cluster, Bytes)>)
    requires GoodUniverse(all) && Inv(all, s) && Sourced(known, s) && Enabled(all, s, l)
    requires l.ReadLeader? || l.Answer? || l.Find? || l.CompareFound? || l.SetFound?
    ensures Sourced(known + VerdictOf(s, l), Apply(all, s, l))
  {
    hide MarshalEndpoints, RegistryOk, GoodUniverse, RecordSourced, LeaderOk, CheckerOk, UpdaterOk;
    var known', pc := known + VerdictOf(s, l), s.updaters[l.u].pc;
    assert UpdaterSourced(known, s.reg.records, s.updaters[l.u]);
    SourcedMore(known, known', s);
    if l.SetFound? {
      LeaderSetSourced(known', s, pc.id, pc.addr);
      UpdaterSetSourced(known', s.(reg := SetLeader(s.reg, pc.id, pc.addr)), l.u, Ended);
    } else {
      if l.Find? {
        FindsOwnCluster(all, s.reg, s.updaters[l.u].eps);
      }
      UpdaterSetSourced(known', s, l.u, Apply(all, s, l).updaters[l.u].pc);
    }
  }

  lemma StartUpdateSourced(all: set<Cluster>, s: State, eps: seq<Endpoint>, known: set<(Cluster, Bytes)>)
    requires Sourced(known, s) && Enabled(all, s, StartUpdate(eps))
    ensures Sourced(known + VerdictOf(s, StartUpdate(eps)), Apply(all, s, StartUpdate(eps)))
  {
    hide RecordSourced;
    SourcedMore(known, known + VerdictOf(s, StartUpdate(eps)), s);
  }

  lemma {:induction false} TraceSourced(all: set<Cluster>, run: seq<State>, steps: seq<Label>)
    requires GoodUniverse(all) && IsTrace(all, run, steps)
    ensures Sourced(Verdicts(run, steps), run[|run| - 1])
  {
    hide GoodUniverse, Inv, Enabled, Apply, Sourced, VerdictOf;
    if steps == [] {
      NothingSourced();
    } else {
      TraceFront(all, run, steps);
      var s, l, known := run[|run| - 2], steps[|steps| - 1], Verdicts(run[..|run| - 1], steps[..|steps| - 1]);
      TraceSourced(all, run[..|run| - 1], steps[..|steps| - 1]);
      TraceOk(all, run[..|run| - 1], steps[..|steps| - 1]);
      match l
      case Register(_, _) | Unregister(_) => RegistrationSourced(all, s, l, known);
      case Tick(_) | Stop(_) | Probed(_, _) | Compare(_) | Write(_) => CheckerSourced(all, s, l, known);
      case StartUpdate(eps) => StartUpdateSourced(all, s, eps, known);
      case _ => UpdaterStepSourced(all, s, l, known);
    }
  }

  lemma NothingSourced()
    ensures Sourced({}, State(EMPTY, [], []))
  {
  }

  /** Every value that a record's leader ever has was returned earlier in the run by a leader check of its own cluster:
      at its registration, by its health checker, or by a first-time update. */
  lemma LeadersWereReturned(all: set<Cluster>, run: seq<State>, steps: seq<Label>, id: nat)
    requires GoodUniverse(all) && IsTrace(all, run, steps) && id < |run[|run| - 1].reg.records|
    ensures var record := run[|run| - 1].reg.records[id];
      exists j :: 0 <= j < |steps| && (ClusterOf(record), record.leader) in VerdictOf(run[j], steps[j])
  {
    var s := run[|run| - 1];
    TraceSourced(all, run, steps);
    assert RecordSourced(Verdicts(run, steps), s.reg.records[id], s.checkers[id]);
    VerdictsAre(run, steps, (ClusterOf(s.reg.records[id]), s.reg.records[id].leader));
  }

  // ---------------------------------------------------------------- the last write decides

  /** The step writes `addr` as the leader of record `id`: its registration, its checker or a first-time update. */
  predicate Writes(s: State, l: Label, id: nat, addr: Bytes) {
    match l
    case Register(eps, probed) =>
      MarshalEndpoints(eps) !in s.reg.index && id == |s.reg.records| && addr == probed
    case Write(i) => i == id && id < |s.checkers| && s.checkers[id] == Writing(addr)
    case SetFound(u) => u < |s.updaters| && s.updaters[u].pc == Setting(id, addr)
    case _ => false
  }

  lemma WriteDecides(all: set<Cluster>, s: State, l: Label, id: nat)
    requires Enabled(all, s, l) && id < |Apply(all, s, l).reg.records|
    ensures forall addr :: Writes(s, l, id, addr) ==> Apply(all, s, l).reg.records[id].leader == addr
    ensures (forall addr :: !Writes(s, l, id, addr)) ==>
      id < |s.reg.records| && Apply(all, s, l).reg.records[id].leader == s.reg.records[id].leader
  {
    hide MarshalEndpoints, Update;
    if l.Register? {
      UpdateRecords(s.reg, l.eps, 1, l.probed);
      RegisterWrites(s.reg, l.eps, l.probed);
      assert id >= |s.reg.records| ==> Writes(s, l, id, l.probed);
    } else if l.Unregister? {
      UpdateRecords(s.reg, l.eps, -1, []);
      UnregisterAddsNothing(s.reg, l.eps);
    } else if l.Write? {
      assert l.id == id ==> Writes(s, l, id, s.checkers[id].addr);
    } else if l.SetFound? {
      assert s.updaters[l.u].pc.id == id ==> Writes(s, l, id, s.updaters[l.u].pc.addr);
    }
  }

  /** A record's leader is what the last write to it wrote; no other step changes it. */
  lemma {:induction false} LastWriteWins(all: set<Cluster>, run: seq<State>, steps: seq<Label>, id: nat)
    returns (j: nat)
    requires IsTrace(all, run, steps) && id < |run[|run| - 1].reg.records|
    ensures j < |steps| && Writes(run[j], steps[j], id, run[|run| - 1].reg.records[id].leader)
    ensures forall k, addr :: j < k < |steps| ==> !Writes(run[k], steps[k], id, addr)
  {
    hide Enabled, Apply, Writes;
    if steps == [] {
      assert false;
    } else {
      var s, l := run[|run| - 2], steps[|steps| - 1];
      TraceFront(all, run, steps);
      WriteDecides(all, s, l, id);
      if addr :| Writes(s, l, id, addr) {
        j := |steps| - 1;
      } else {
        j := LastWriteWins(all, run[..|run| - 1], steps[..|steps| - 1], id);
        forall k, addr | j < k < |steps| ensures !Writes(run[k], steps[k], id, addr) {
          if k < |steps| - 1 {
            assert !Writes(run[..|run| - 1][k], steps[..|steps| - 1][k], id, addr);
          }
        }
      }
    }
  }

  // ---------------------------------------------------------------- no verdict is lost

  predicate LeaderIs(s: State, id: nat, addr: Bytes) {
    id < |s.reg.records| && s.reg.records[id].leader == addr
  }

  /** The checker still carries its verdict. */
  predicate Carries(s: State, id: nat, addr: Bytes) {
    id < |s.checkers| && (s.checkers[id] == Got(addr) || s.checkers[id] == Writing(addr))
  }

  lemma CarriedOn(all: set<Cluster>, s: State, l: Label, id: nat, addr: Bytes)
    requires Enabled(all, s, l) && Carries(s, id, addr)
    ensures Carries(Apply(all, s, l), id, addr) || LeaderIs(Apply(all, s, l), id, addr)
  {
    hide Update, MarshalEndpoints;
  }

  /** A health checker does not lose a verdict: before it sleeps again, the address it was told leads its record. */
  lemma {:induction false} CheckerVerdictTakesEffect(
    all: set<Cluster>, run: seq<State>, steps: seq<Label>, j: nat, id: nat, addr: Bytes)
    requires IsTrace(all, run, steps) && j < |steps| && steps[j] == Probed(id, Some(addr))
    ensures Carries(run[|run| - 1], id, addr) || exists i :: j < i < |run| && LeaderIs(run[i], id, addr)
  {
    hide Enabled, Apply, Carries, LeaderIs;
    TraceFront(all, run, steps);
    var s, l := run[|run| - 2], steps[|steps| - 1];
    if j == |steps| - 1 {
      VerdictIsCarried(all, s, id, addr);
    } else {
      var front := run[..|run| - 1];
      CheckerVerdictTakesEffect(all, front, steps[..|steps| - 1], j, id, addr);
      if Carries(s, id, addr) {
        CarriedOn(all, s, l, id, addr);
      } else {
        var i :| j < i < |front| && LeaderIs(front[i], id, addr);
        assert LeaderIs(run[i], id, addr);
      }
    }
  }

  lemma VerdictIsCarried(all: set<Cluster>, s: State, id: nat, addr: Bytes)
    requires Enabled(all, s, Probed(id, Some(addr)))
    ensures Carries(Apply(all, s, Probed(id, Some(addr))), id, addr)
  {
  }

  /** What a first-time update can achieve for its cluster: `addr` leads a record of it, or the cluster is not
      registered. */
  predicate ServedWith(s: State, eps: seq<Endpoint>, addr: Bytes) {
    || MarshalEndpoints(eps) !in s.reg.index
    || exists id :: 0 <= id < |s.reg.records| && ClusterOf(s.reg.records[id]) == multiset(eps) && LeaderIs(s, id, addr)
  }

  /** The update still carries its verdict to a record of its cluster. */
  predicate UpdateCarries(s: State, u: nat, eps: seq<Endpoint>, addr: Bytes) {
    u < |s.updaters| && s.updaters[u].eps == eps &&
    match s.updaters[u].pc
    case Answered(a) => a == addr
    case Found(id, a) => a == addr && id < |s.reg.records| && ClusterOf(s.reg.records[id]) == multiset(eps)
    case Setting(id, a) => a == addr && id < |s.reg.records| && ClusterOf(s.reg.records[id]) == multiset(eps)
    case _ => false
  }

  /** The step is the next one of updater `u`. */
  predicate StepOf(l: Label, u: nat) {
    l == ReadLeader(u) || (l.Answer? && l.u == u) || l == Find(u) || l == CompareFound(u) || l == SetFound(u)
  }

  lemma UpdaterFrame(all: set<Cluster>, s: State, l: Label, u: nat)
    requires Enabled(all, s, l) && u < |s.updaters|
    ensures |s.updaters| <= |Apply(all, s, l).updaters| && Apply(all, s, l).updaters[u].eps == s.updaters[u].eps
    ensures !StepOf(l, u) ==> Apply(all, s, l).updaters[u] == s.updaters[u]
  {
    hide Update, MarshalEndpoints, LeaderUnder;
  }

  lemma CarriesStays(s: State, s': State, u: nat, eps: seq<Endpoint>, addr: Bytes)
    requires UpdateCarries(s, u, eps, addr) && Keeps(s.reg, s'.reg)
    requires u < |s'.updaters| && s'.updaters[u] == s.updaters[u]
    ensures UpdateCarries(s', u, eps, addr)
  {
  }

  /** The update's own step hands the verdict on, finds its cluster unregistered, or makes or finds it the leader. */
  lemma UpdateHandsOn(all: set<Cluster>, s: State, l: Label, u: nat, eps: seq<Endpoint>, addr: Bytes)
    requires GoodUniverse(all) && Inv(all, s) && Enabled(all, s, l) && UpdateCarries(s, u, eps, addr) && StepOf(l, u)
    ensures var s' := Apply(all, s, l); UpdateCarries(s', u, eps, addr) || ServedWith(s', eps, addr)
  {
    hide MarshalEndpoints, RegistryOk, GoodUniverse, LeaderOk, CheckerOk, UpdaterOk;
    if l == Find(u) {
      FindsOwnCluster(all, s.reg, eps);
    } else {
      var id := s.updaters[u].pc.id;
      assert UpdateCarries(Apply(all, s, l), u, eps, addr) || LeaderIs(Apply(all, s, l), id, addr);
    }
  }

  lemma UpdateCarriedOn(all: set<Cluster>, s: State, l: Label, u: nat, eps: seq<Endpoint>, addr: Bytes)
    requires GoodUniverse(all) && Inv(all, s) && Enabled(all, s, l) && UpdateCarries(s, u, eps, addr)
    ensures var s' := Apply(all, s, l); UpdateCarries(s', u, eps, addr) || ServedWith(s', eps, addr)
  {
    hide Apply, Enabled, Inv, GoodUniverse, Keeps, ServedWith, StepOf;
    if StepOf(l, u) {
      UpdateHandsOn(all, s, l, u, eps, addr);
    } else {
      UpdaterFrame(all, s, l, u);
      StepOk(all, s, l);
      CarriesStays(s, Apply(all, s, l), u, eps, addr);
    }
  }

  /** A first-time update does not lose a verdict either: when it ends, the address it was told has led a record of
      its cluster since, or the cluster was not registered at some moment. */
  lemma {:induction false} UpdateVerdictTakesEffect(
    all: set<Cluster>, run: seq<State>, steps: seq<Label>, j: nat, u: nat, addr: Bytes)
    requires GoodUniverse(all) && IsTrace(all, run, steps) && j < |steps| && steps[j] == Answer(u, Some(addr))
    ensures u < |run[j].updaters|
    ensures var eps := run[j].updaters[u].eps;
      || UpdateCarries(run[|run| - 1], u, eps, addr)
      || exists i :: j < i < |run| && ServedWith(run[i], eps, addr)
  {
    hide Enabled, Apply, UpdateCarries, ServedWith, GoodUniverse, Inv;
    TraceFront(all, run, steps);
    var s, l := run[|run| - 2], steps[|steps| - 1];
    if j == |steps| - 1 {
      AnswerIsCarried(all, s, u, addr);
    } else {
      var front := run[..|run| - 1];
      UpdateVerdictTakesEffect(all, front, steps[..|steps| - 1], j, u, addr);
      TraceOk(all, front, steps[..|steps| - 1]);
      var eps := run[j].updaters[u].eps;
      if UpdateCarries(s, u, eps, addr) {
        UpdateCarriedOn(all, s, l, u, eps, addr);
      } else {
        var i :| j < i < |front| && ServedWith(front[i], eps, addr);
        assert ServedWith(run[i], eps, addr);
      }
    }
  }

  lemma AnswerIsCarried(all: set<Cluster>, s: State, u: nat, addr: Bytes)
    requires Enabled(all, s, Answer(u, Some(addr)))
    ensures u < |s.updaters| && UpdateCarries(Apply(all, s, Answer(u, Some(addr))), u, s.updaters[u].eps, addr)
  {
  }

  /** The cluster has had a leader, or is not registered. */
  ghost predicate Served(s: State, eps: seq<Endpoint>) {
    exists addr :: addr != [] && ServedWith(s, eps, addr)
  }

  ghost predicate Underway(s: State, u: nat, eps: seq<Endpoint>) {
    && u < |s.updaters| && s.updaters[u].eps == eps
    && (s.updaters[u].pc == Reading || s.updaters[u].pc == Asking
        || exists addr :: addr != [] && UpdateCarries(s, u, eps, addr))
  }

  lemma UnderwayStep(all: set<Cluster>, s: State, l: Label, u: nat, eps: seq<Endpoint>)
    requires GoodUniverse(all) && Inv(all, s) && Enabled(all, s, l) && Underway(s, u, eps)
    ensures var s' := Apply(all, s, l);
      l == Answer(u, None) || Underway(s', u, eps) || Served(s', eps)
  {
    hide Apply, Inv, GoodUniverse, UpdateCarries, ServedWith;
    UpdaterFrame(all, s, l, u);
    if addr :| addr != [] && UpdateCarries(s, u, eps, addr) {
      UpdateCarriedOn(all, s, l, u, eps, addr);
    } else if l == ReadLeader(u) {
      ReadIsServed(all, s, u);
    } else if l.Answer? && l.u == u && l.result.Some? {
      AnswerIsCarried(all, s, u, l.result.value);
      AnswerIsNotEmpty(all, s, u, l.result.value);
    } else if l == Find(u) || l == CompareFound(u) || l == SetFound(u) {
      assert false;
    }
  }

  lemma AnswerIsNotEmpty(all: set<Cluster>, s: State, u: nat, addr: Bytes)
    requires GoodUniverse(all) && Inv(all, s) && Enabled(all, s, Answer(u, Some(addr)))
    ensures addr != []
  {
    hide RegistryOk, IsCluster, SameOrDisjoint;
    assert addr in multiset(s.updaters[u].eps);
  }

  lemma ReadIsServed(all: set<Cluster>, s: State, u: nat)
    requires GoodUniverse(all) && Inv(all, s) && Enabled(all, s, ReadLeader(u))
    ensures var s', eps := Apply(all, s, ReadLeader(u)), s.updaters[u].eps;
      |s'.updaters| == |s.updaters| && (s'.updaters[u].pc == Asking || Served(s', eps))
  {
    hide MarshalEndpoints, RegistryOk, GoodUniverse;
    var eps, s' := s.updaters[u].eps, Apply(all, s, ReadLeader(u));
    var key := MarshalEndpoints(eps);
    FindsOwnCluster(all, s.reg, eps);
    if s'.updaters[u].pc != Asking {
      assert LeaderIs(s', s.reg.index[key], LeaderUnder(s.reg, key));
      assert ServedWith(s', eps, LeaderUnder(s.reg, key));
    }
  }

  /** A first-time update ends only when its cluster has had a leader meanwhile, was not registered at some moment, or
      the update's own leader check failed. */
  lemma {:induction false} UpdateEndsForReason(
    all: set<Cluster>, run: seq<State>, steps: seq<Label>, j: nat, eps: seq<Endpoint>)
    requires GoodUniverse(all) && IsTrace(all, run, steps) && j < |steps| && steps[j] == StartUpdate(eps)
    ensures var u := |run[j].updaters|;
      || Underway(run[|run| - 1], u, eps)
      || (exists i :: j < i < |run| && Served(run[i], eps))
      || exists i :: j < i < |steps| && steps[i] == Answer(u, None)
  {
    hide Enabled, Apply, Underway, Served, GoodUniverse, Inv;
    TraceFront(all, run, steps);
    var s, l, u := run[|run| - 2], steps[|steps| - 1], |run[j].updaters|;
    if j == |steps| - 1 {
      StartIsUnderway(all, s, eps);
    } else {
      var front, steps' := run[..|run| - 1], steps[..|steps| - 1];
      UpdateEndsForReason(all, front, steps', j, eps);
      TraceOk(all, front, steps');
      if Underway(s, u, eps) {
        UnderwayStep(all, s, l, u, eps);
        assert l == steps[|steps| - 1];
      } else if i :| j < i < |front| && Served(front[i], eps) {
        assert Served(run[i], eps);
      } else {
        var i :| j < i < |steps'| && steps'[i] == Answer(u, None);
        assert steps[i] == Answer(u, None);
      }
    }
  }

  lemma StartIsUnderway(all: set<Cluster>, s: State, eps: seq<Endpoint>)
    requires Enabled(all, s, StartUpdate(eps))
    ensures Underway(Apply(all, s, StartUpdate(eps)), |s.updaters|, eps)
  {
  }
}
