/** The shared index of leader records, updated in place (client/balancer/picker/leader_ctrl.go). Each method is one
    critical section of the index's lock. */
module LeaderCtrl {
  import opened ByteStrings
  import opened ClusterKey
  import opened Registry

  class LeaderRecord {
    var amount: int
    var leader: Bytes
    var cancelled: bool
    ghost const id: nat
    ghost const endpoints: seq<Endpoint>

    /** A new record counts one user; its leader is what its callback says at once. */
    constructor (probed: Bytes, ghost endpoints: seq<Endpoint>, ghost id: nat)
      ensures amount == 1 && leader == probed && !cancelled && this.endpoints == endpoints && this.id == id
    {
      this.amount, this.leader, this.cancelled := 1, probed, false;
      this.endpoints, this.id := endpoints, id;
    }

    /** A record that is in no index. */
    constructor Detached()
      ensures amount == 0 && leader == [] && !cancelled
    {
      amount, leader, cancelled := 0, [], false;
      endpoints, id := [], 0;
    }

    ghost function View(): Record
      reads this
    {
      Record(amount, leader, cancelled, endpoints)
    }

    method Add(ghost ctrl: LeaderCtrl, n: int)
      requires ctrl.Valid() && this in ctrl.made
      modifies this`amount
      ensures ctrl.Valid() && ctrl.Ids() == old(ctrl.Ids()) && amount == old(amount) + n
      ensures ctrl.Records() == old(ctrl.Records())[id := old(ctrl.Records()[id]).(amount := amount)]
    {
      amount := amount + n;
    }

    /** Cancels the record's context. */
    method Close(ghost ctrl: LeaderCtrl)
      requires ctrl.Valid() && this in ctrl.made
      modifies this`cancelled
      ensures ctrl.Valid() && ctrl.Ids() == old(ctrl.Ids()) && cancelled
      ensures ctrl.Records() == old(ctrl.Records())[id := old(ctrl.Records()[id]).(cancelled := true)]
    {
      cancelled := true;
    }

    method SetLeader(addr: Bytes)
      modifies this`leader
      ensures leader == addr
    {
      if leader == addr {
        return;
      }
      leader := addr;
    }
  }

  class LeaderCtrl {
    var leaderIndex: map<Bytes, LeaderRecord>
    /** Every record ever made, by its id. */
    ghost var made: seq<LeaderRecord>

    ghost predicate Valid()
      reads this, made
    {
      && (forall i :: 0 <= i < |made| ==> made[i].id == i)
      && (forall k :: k in leaderIndex ==> leaderIndex[k] in made)
    }

    ghost function Ids(): map<Bytes, nat>
      reads this`leaderIndex
    {
      map k | k in leaderIndex :: leaderIndex[k].id
    }

    ghost function Records(): seq<Record>
      reads this`made, made
    {
      var all := made;
      seq(|all|, i requires 0 <= i < |all| reads all => all[i].View())
    }

    ghost function View(): Registry
      reads this, made
    {
      Registry(Ids(), Records())
    }

    constructor ()
      ensures Valid() && View() == EMPTY
    {
      leaderIndex := map[];
      made := [];
    }

    /** Registers (positive amount) or unregisters a cluster, exactly as `Update` says. `probed` is what the callback
        returns if a record is made; a `true` result is the panic. */
    method UpdateClusterAmount(eps: seq<Endpoint>, amount: int, probed: Bytes) returns (panicked: bool)
      requires Valid()
      modifies this, made
      ensures Valid() && old(made) <= made && fresh(made[|old(made)|..])
      ensures (View(), panicked) == Update(old(View()), eps, amount, probed)
    {
      hide MarshalEndpoints, AddAliases, Ids, Records;
      var clusterKey := MarshalEndpoints(eps);
      KnownIds(clusterKey);
      if clusterKey !in leaderIndex && amount > 0 {
        var record := AddRecord(clusterKey, eps, probed);
        if |eps| == 1 {
          return false;
        }
        panicked := AddNames(eps, record);
        if panicked {
          record.Close(this);
        }
        assert Records() == old(Records()) + [Record(1, probed, panicked, eps)];
      } else if clusterKey !in leaderIndex {
        panicked := false;
      } else {
        var record := leaderIndex[clusterKey];
        record.Add(this, amount);
        if record.amount <= 0 {
          DeleteNames(clusterKey, eps);
          record.Close(this);
        }
        panicked := false;
        ghost var before := old(Records())[record.id];
        assert Records() == old(Records())[record.id :=
          before.(amount := before.amount + amount, cancelled := before.cancelled || before.amount + amount <= 0)];
      }
    }

    lemma KnownIds(key: Bytes)
      requires Valid()
      ensures key in leaderIndex <==> key in Ids()
      ensures |Records()| == |made|
      ensures key in leaderIndex ==>
        && Ids()[key] == leaderIndex[key].id < |made|
        && leaderIndex[key] == made[leaderIndex[key].id]
        && Records()[leaderIndex[key].id] == leaderIndex[key].View()
    {
    }

    /** A new record under the key of its cluster. */
    method AddRecord(key: Bytes, eps: seq<Endpoint>, probed: Bytes) returns (record: LeaderRecord)
      requires Valid()
      modifies this
      ensures Valid() && fresh(record) && made == old(made) + [record] && record.id == |old(made)|
      ensures Ids() == old(Ids())[key := record.id]
      ensures Records() == old(Records()) + [Record(1, probed, false, eps)]
    {
      record := new LeaderRecord(probed, eps, |made|);
      made := made + [record];
      leaderIndex := leaderIndex[key := record];
    }

    lemma AddOne(index: map<Bytes, nat>, eps: seq<Endpoint>, i: nat, id: nat)
      requires i < |eps|
      ensures AddAliases(index, eps[i..], id)
           == if eps[i] in index then (index, true) else AddAliases(index[eps[i] := id], eps[i + 1..], id)
    {
      assert eps[i..][1..] == eps[i + 1..];
    }

    /** Points the endpoints at the record, up to the first that is taken already. */
    method AddNames(eps: seq<Endpoint>, record: LeaderRecord) returns (taken: bool)
      requires Valid() && record in made
      modifies this`leaderIndex
      ensures Valid() && (Ids(), taken) == AddAliases(old(Ids()), eps, record.id)
      ensures Records() == old(Records())
    {
      hide Records;
      var i := 0;
      assert eps[0..] == eps;
      while i < |eps|
        invariant 0 <= i <= |eps|
        invariant Valid()
        invariant AddAliases(old(Ids()), eps, record.id) == AddAliases(Ids(), eps[i..], record.id)
      {
        AddOne(Ids(), eps, i, record.id);
        if eps[i] in leaderIndex {
          return true;
        }
        ghost var ids := Ids();
        leaderIndex := leaderIndex[eps[i] := record];
        assert Ids() == ids[eps[i] := record.id];
        i := i + 1;
      }
      taken := false;
    }

    /** Deletes the key and the endpoints from the index. */
    method DeleteNames(key: Bytes, eps: seq<Endpoint>)
      requires Valid()
      modifies this`leaderIndex
      ensures Valid() && Ids() == old(Ids()) - {key} - (set e | e in eps)
      ensures Records() == old(Records())
    {
      leaderIndex := leaderIndex - {key};
      var i := 0;
      while i < |eps|
        invariant 0 <= i <= |eps|
        invariant leaderIndex == old(leaderIndex) - {key} - (set e | e in eps[..i])
      {
        leaderIndex := leaderIndex - {eps[i]};
        i := i + 1;
      }
      assert eps[..i] == eps;
    }

    /** The record under a key, or a new one that nobody else will ever see. */
    method GetLeaderRecord(key: Bytes) returns (record: LeaderRecord)
      requires Valid()
      ensures key in leaderIndex ==> record == leaderIndex[key]
      ensures key !in leaderIndex ==> fresh(record) && record.leader == []
    {
      if key in leaderIndex {
        record := leaderIndex[key];
      } else {
        record := new LeaderRecord.Detached();
      }
    }

    /** The leader under a key. `Registry.LeaderReadsBack` says what that is after it was set. */
    method GetLeaderAddr(key: Bytes) returns (addr: Bytes)
      requires Valid()
      ensures addr == LeaderUnder(View(), key)
    {
      KnownIds(key);
      if key !in leaderIndex {
        return [];
      }
      addr := leaderIndex[key].leader;
    }

    /** Sets the leader of the record under a key; an unknown key is ignored. */
    method UpdateClusterLeader(clusterKey: Bytes, leader: Bytes)
      requires Valid()
      modifies made
      ensures Valid() && leaderIndex == old(leaderIndex)
      ensures clusterKey !in old(View()).index ==> View() == old(View())
      ensures clusterKey in old(View()).index ==>
        && old(View()).index[clusterKey] < |old(View()).records|
        && View() == SetLeader(old(View()), old(View()).index[clusterKey], leader)
    {
      KnownIds(clusterKey);
      if clusterKey !in leaderIndex {
        return;
      }
      leaderIndex[clusterKey].SetLeader(leader);
    }
  }
}
