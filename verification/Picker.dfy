/** The picker that sends writes to the leader and spreads reads over the others, one pick at a time
    (client/balancer/picker/rw_separated.go). */
module Picker {
  import opened ByteStrings
  import opened MachineInts
  import LC = LeaderCtrl

  /** resolver.Address; the resolver fills in nothing but `Addr` (client/balancer/resolver/resolver.go). */
  datatype Address = Address(addr: Bytes)

  /** A connection, by identity. */
  datatype SubConn = SubConn(id: nat)

  /** `IndexOutOfRange` is the runtime panic of a bad index. */
  datatype Pick = Picked(sc: SubConn, addr: Bytes) | NoSubConnAvailable | IndexOutOfRange

  const READ: Bytes := [47, 82, 101, 97, 100]  // "/Read"

  predicate NoDuplicates(readers: seq<Address>) {
    forall i, j :: 0 <= i < j < |readers| ==> readers[i] != readers[j]
  }

  /** The reader list is duplicate-free and holds exactly the ready addresses other than the leader. */
  ghost predicate IsReaderList(readers: seq<Address>, ready: set<Address>, leader: Bytes) {
    NoDuplicates(readers) && forall a :: a in readers <==> a in ready && a.addr != leader
  }

  /** The cached leader and the cached readers agree: nothing is known yet, or the list is the leader's. */
  ghost predicate CacheAgrees(readers: seq<Address>, ready: set<Address>, leader: Bytes) {
    (leader == [] && readers == []) || IsReaderList(readers, ready, leader)
  }

  /** The connections by address string. */
  ghost predicate IsRawMap(raw: map<Bytes, SubConn>, conns: map<Address, SubConn>) {
    && (forall a :: a in conns ==> a.addr in raw && raw[a.addr] == conns[a])
    && (forall s :: s in raw ==> Address(s) in conns)
  }

  /** A write goes to the leader, if there is a connection to it. */
  function WritePick(raw: map<Bytes, SubConn>, leader: Bytes): Pick {
    if leader in raw then Picked(raw[leader], leader) else NoSubConnAvailable
  }

  /** What a read picks when the counter stood at `before`: the readers in turn, until the counter has wrapped. */
  ghost predicate PicksInTurn(conns: map<Address, SubConn>, readers: seq<Address>, before: int, pick: Pick)
    requires readers != []
  {
    if before < 0 && (-before) % |readers| != 0 then pick == IndexOutOfRange
    else
      var reader := readers[if before < 0 then 0 else before % |readers|];
      reader in conns && pick == Picked(conns[reader], reader.addr)
  }

  /** The loop of the constructor over the ready connections, in any order; `last` is the address it ends with. */
  method ByAddress(readySCs: map<Address, SubConn>) returns (raw: map<Bytes, SubConn>, last: Bytes)
    ensures IsRawMap(raw, readySCs)
    ensures if readySCs == map[] then last == [] else Address(last) in readySCs
  {
    last, raw := [], map[];
    var todo := readySCs.Keys;
    while todo != {}
      invariant todo <= readySCs.Keys
      invariant forall a :: a in readySCs && a !in todo ==> a.addr in raw && raw[a.addr] == readySCs[a]
      invariant forall s :: s in raw ==> Address(s) in readySCs && Address(s) !in todo
      invariant if todo == readySCs.Keys then last == [] else Address(last) in readySCs
      decreases |todo|
    {
      var a :| a in todo;
      raw := raw[a.addr := readySCs[a]];
      last := a.addr;
      todo := todo - {a};
    }
  }

  class RWSeparatedRoundRobin {
    const record: LC.LeaderRecord
    const addrToSC: map<Address, SubConn>
    const rawAddrToSC: map<Bytes, SubConn>
    const key: Bytes
    var nextReader: int
    var leader: Bytes
    var readerAddrs: seq<Address>

    ghost predicate Valid()
      reads this
    {
      && -TWO_63 <= nextReader < TWO_63
      && IsRawMap(rawAddrToSC, addrToSC)
      && CacheAgrees(readerAddrs, addrToSC.Keys, leader)
    }

    /** Keeps the ready connections and finds the leader record by whichever address comes last. */
    constructor (readySCs: map<Address, SubConn>, ctrl: LC.LeaderCtrl)
      requires ctrl.Valid()
      ensures Valid() && addrToSC == readySCs
      ensures leader == [] && readerAddrs == [] && nextReader == 0
      ensures if readySCs == map[] then key == [] else Address(key) in readySCs
      ensures key in ctrl.leaderIndex ==> record == ctrl.leaderIndex[key]
      ensures key !in ctrl.leaderIndex ==> fresh(record)
    {
      var raw, last := ByAddress(readySCs);
      var found := ctrl.GetLeaderRecord(last);
      record, addrToSC, rawAddrToSC, key := found, readySCs, raw, last;
      nextReader, leader, readerAddrs := 0, [], [];
    }

    /** Brings the cached leader and the reader list up to date with the record; changes nothing when they are. */
    method UpdateLeader() returns (cur: Bytes)
      requires Valid()
      modifies this`leader, this`readerAddrs
      ensures Valid() && cur == leader == record.leader
      ensures old(leader) == record.leader ==> readerAddrs == old(readerAddrs)
      ensures old(leader) != record.leader ==> IsReaderList(readerAddrs, addrToSC.Keys, record.leader)
    {
      cur := record.leader;
      if cur == leader {
        return;
      }
      leader := cur;
      readerAddrs := [];
      var todo := addrToSC.Keys;
      while todo != {}
        modifies this`readerAddrs
        invariant todo <= addrToSC.Keys
        invariant IsReaderList(readerAddrs, addrToSC.Keys - todo, cur)
        decreases |todo|
      {
        var addr :| addr in todo;
        if addr.addr != cur {
          readerAddrs := readerAddrs + [addr];
        }
        todo := todo - {addr};
      }
    }

    method PickWriter() returns (pick: Pick)
      requires Valid()
      modifies this`leader, this`readerAddrs
      ensures Valid() && leader == record.leader
      ensures pick == WritePick(rawAddrToSC, record.leader)
      ensures old(leader) == record.leader ==> readerAddrs == old(readerAddrs)
      ensures pick == if Address(record.leader) in addrToSC
                      then Picked(addrToSC[Address(record.leader)], record.leader) else NoSubConnAvailable
    {
      var picked := UpdateLeader();
      if picked in rawAddrToSC {
        pick := Picked(rawAddrToSC[picked], picked);
        assert addrToSC[Address(picked)] == rawAddrToSC[picked];
      } else {
        pick := NoSubConnAvailable;
      }
    }

    /** A read takes the next reader in turn; with no reader it goes where a write would. */
    method PickReader() returns (pick: Pick)
      requires Valid()
      modifies this`leader, this`readerAddrs, this`nextReader
      ensures Valid() && leader == record.leader
      ensures old(leader) == record.leader ==> readerAddrs == old(readerAddrs)
      ensures readerAddrs == [] ==> pick == WritePick(rawAddrToSC, record.leader) && nextReader == old(nextReader)
      ensures readerAddrs != [] ==>
        && IsReaderList(readerAddrs, addrToSC.Keys, record.leader)
        && nextReader == Wrap64(old(nextReader) + 1)
        && PicksInTurn(addrToSC, readerAddrs, old(nextReader), pick)
    {
      var _ := UpdateLeader();
      var l := |readerAddrs|;
      if l < 1 {
        pick := PickWriter();
        return;
      }
      WrapUndone(nextReader);
      nextReader := Wrap64(nextReader + 1);
      var cur := GoRem(Wrap64(nextReader - 1), l);
      if cur < 0 {
        return IndexOutOfRange;
      }
      var picked := readerAddrs[cur].addr;
      assert readerAddrs[cur] in readerAddrs;
      pick := Picked(rawAddrToSC[picked], picked);
    }

    /** Whether a method is a read is told by its full name. Without ready connections nothing is picked. */
    method PickFor(fullMethodName: Bytes) returns (pick: Pick)
      requires Valid()
      modifies this
      ensures Valid()
      ensures addrToSC == map[] ==>
        pick == NoSubConnAvailable && unchanged(`leader) && unchanged(`readerAddrs) && unchanged(`nextReader)
      ensures addrToSC != map[] ==>
        leader == record.leader && (old(leader) == record.leader ==> unchanged(`readerAddrs))
      ensures addrToSC != map[] && (!(READ <= fullMethodName) || readerAddrs == []) ==>
        pick == WritePick(rawAddrToSC, record.leader) && unchanged(`nextReader)
      ensures addrToSC != map[] && READ <= fullMethodName && readerAddrs != [] ==>
        && IsReaderList(readerAddrs, addrToSC.Keys, record.leader)
        && nextReader == Wrap64(old(nextReader) + 1)
        && PicksInTurn(addrToSC, readerAddrs, old(nextReader), pick)
    {
      if |addrToSC| == 0 {
        return NoSubConnAvailable;
      }
      if READ <= fullMethodName {
        pick := PickReader();
      } else {
        pick := PickWriter();
      }
    }
  }

  /** A ready address that is not the leader makes reads avoid the leader; without one they all go to it. */
  lemma ReadersEmptyIff(readers: seq<Address>, ready: set<Address>, leader: Bytes)
    requires IsReaderList(readers, ready, leader)
    ensures readers == [] <==> ready <= {Address(leader)}
  {
    if readers != [] {
      assert readers[0] in readers;
    }
  }

  /** A string of ASCII characters as bytes. */
  function Ascii(s: string): Bytes
    requires forall i :: 0 <= i < |s| ==> s[i] < 128 as char
  {
    seq(|s|, i requires 0 <= i < |s| => s[i] as int)
  }

  const READ_METHODS: seq<string> :=
    ["/Read/Get", "/Read/Range", "/Read/RangeStream", "/Read/Count", "/Read/ListPartition"]
  const OTHER_METHODS: seq<string> :=
    ["/Write/Create", "/Write/Update", "/Write/Delete", "/Write/Compact", "/Watch/Watch"]

  /** Of the methods of the v2 services, exactly those of the Read service are reads; the others, watches among them, go
      where writes go. */
  lemma WhichMethodsRead()
    ensures forall i :: 0 <= i < |READ_METHODS| ==> READ <= Ascii(READ_METHODS[i])
    ensures forall i :: 0 <= i < |OTHER_METHODS| ==> !(READ <= Ascii(OTHER_METHODS[i]))
  {
    hide Ascii;
    forall i | 0 <= i < |READ_METHODS| ensures READ <= Ascii(READ_METHODS[i]) {
      BeginsWithRead(READ_METHODS[i]);
    }
    forall i | 0 <= i < |OTHER_METHODS| ensures !(READ <= Ascii(OTHER_METHODS[i])) {
      BeginsWithRead(OTHER_METHODS[i]);
      assert OTHER_METHODS[i][1] == 'W' && "/Read"[1] == 'R';
    }
  }

  /** A method is a read exactly if its full name begins with the five characters. */
  lemma BeginsWithRead(name: string)
    requires forall i :: 0 <= i < |name| ==> name[i] < 128 as char
    ensures READ <= Ascii(name) <==> "/Read" <= name
  {
    var b := Ascii(name);
    if READ <= b {
      assert b[0] == 47 && b[1] == 82 && b[2] == 101 && b[3] == 97 && b[4] == 100;
    }
  }
}
