/** The messages of the v2 RPC that the client receives, their proto3 wire form and their `Size` methods
    (api/v2rpc/rpc.proto, api/v2rpc/rpc.pb.go). */
module Rpc {
  import opened ByteStrings
  import opened MachineInts
  import opened Wrappers

  // ---------------------------------------------------------------- varints

  /** math/bits.Len64: the number of bits needed to write `x`. */
  function BitLen(x: nat): nat {
    if x == 0 then 0 else 1 + BitLen(x / 2)
  }

  /** `x | 1`. */
  function OrOne(x: nat): nat {
    if x % 2 == 0 then x + 1 else x
  }

  /** The closed form by which the generated code sizes a varint. */
  function Sov(x: nat): nat {
    (BitLen(OrOne(x)) + 6) / 7
  }

  /** Base 128 varint: seven bits a byte, least significant group first, high bit set on all but the last. */
  function Varint(x: nat): Bytes {
    if x < 0x80 then [x] else [0x80 + x % 0x80] + Varint(x / 0x80)
  }

  /** Reads one varint off the front: its value and the number of bytes taken. */
  function ReadVarint(b: Bytes): Option<(nat, nat)> {
    if b == [] then None
    else if b[0] < 0x80 then Some((b[0], 1))
    else match ReadVarint(b[1..])
         case None => None
         case Some((x, n)) => Some((b[0] - 0x80 + 0x80 * x, n + 1))
  }

  function Pow128(n: nat): nat {
    if n == 0 then 1 else 0x80 * Pow128(n - 1)
  }

  lemma {:induction false} VarintRoundTrip(x: nat, rest: Bytes)
    ensures ReadVarint(Varint(x) + rest) == Some((x, |Varint(x)|))
  {
    if x >= 0x80 {
      VarintRoundTrip(x / 0x80, rest);
      assert (Varint(x) + rest)[1..] == Varint(x / 0x80) + rest;
    }
  }

  /** Dropping one group of seven bits shortens the closed form by one. */
  lemma SovStep(x: nat)
    ensures x < 0x80 ==> Sov(x) == 1
    ensures x >= 0x80 ==> Sov(x) == 1 + Sov(x / 0x80)
  {
    var y := OrOne(x);
    if x < 0x80 {
      BitLenMonotone(1, y);
      BitLenMonotone(y, 0x7f);
      BitLenShift(0x7f);
    } else {
      BitLenShift(y);
      assert y / 0x80 == x / 0x80;
      BitLenOrOne(x / 0x80);
    }
  }

  lemma BitLenShift(y: nat)
    requires y >= 0x40
    ensures BitLen(y) == 7 + BitLen(y / 0x80)
  {
    assert y / 64 / 2 == y / 0x80;
    assert BitLen(y / 64) == 1 + BitLen(y / 0x80);
    hide BitLen;
    BitLenHalves(y, y / 2, y / 4, y / 8);
    BitLenHalves(y / 8, y / 16, y / 32, y / 64);
  }

  lemma BitLenHalves(y: nat, a: nat, b: nat, d: nat)
    requires a == y / 2 && b == a / 2 && d == b / 2 && b > 0
    ensures BitLen(y) == 3 + BitLen(d)
  {
    assert BitLen(a) == 1 + BitLen(b);
  }

  lemma BitLenOrOne(z: nat)
    requires z > 0
    ensures BitLen(OrOne(z)) == BitLen(z)
  {
    assert OrOne(z) / 2 == z / 2;
  }

  lemma BitLenMonotone(x: nat, y: nat)
    requires x <= y
    ensures BitLen(x) <= BitLen(y)
  {
  }

  /** The closed form is the length of the byte-by-byte encoding. */
  lemma {:induction false} SovIsVarintLength(x: nat)
    ensures Sov(x) == |Varint(x)| >= 1
  {
    SovStep(x);
    if x >= 0x80 {
      SovIsVarintLength(x / 0x80);
    }
  }

  /** ... and the least number of groups of seven bits in which `x` fits. */
  lemma {:induction false} SovIsLeast(x: nat, n: nat)
    requires n >= 1
    ensures x < Pow128(n) <==> Sov(x) <= n
  {
    SovStep(x);
    if x >= 0x80 {
      SovIsVarintLength(x / 0x80);
      if n == 1 {
        assert Pow128(1) == 0x80 * Pow128(0);
      } else {
        SovIsLeast(x / 0x80, n - 1);
      }
    } else {
      PowAtLeast(n);
    }
  }

  lemma PowAtLeast(n: nat)
    requires n >= 1
    ensures Pow128(n) >= 0x80
  {
    if n > 1 {
      PowAtLeast(n - 1);
    }
  }

  /** A uint64 takes one to ten bytes. */
  lemma SovRange(x: U64)
    ensures 1 <= Sov(x) <= 10
  {
    SovIsVarintLength(x);
    assert Pow128(5) == 0x8_0000_0000 by {
      assert Pow128(3) == 0x20_0000;
    }
    assert Pow128(10) == 0x40_0000_0000_0000_0000 by {
      assert Pow128(8) == 0x80 * 0x80 * 0x80 * Pow128(5);
    }
    SovIsLeast(x, 10);
  }

  // ---------------------------------------------------------------- fields, in wire form

  /** A varint field; proto3 leaves out zero. */
  function VarintField(num: nat, x: U64): Bytes {
    if x == 0 then [] else Varint(8 * num) + Varint(x)
  }

  /** A length-delimited record. */
  function Record(num: nat, b: Bytes): Bytes {
    Varint(8 * num + 2) + Varint(|b|) + b
  }

  /** A bytes or string field; proto3 leaves out the empty one. */
  function BytesField(num: nat, b: Bytes): Bytes {
    if b == [] then [] else Record(num, b)
  }

  function BoolField(num: nat, b: bool): Bytes {
    if b then Varint(8 * num) + Varint(1) else []
  }

  /** The three sizing steps of the generated code, for fields whose key fits in one byte. */
  lemma FieldSizes(num: nat, x: U64, b: Bytes)
    requires 1 <= num <= 15
    ensures |VarintField(num, x)| == if x == 0 then 0 else 1 + Sov(x)
    ensures |Record(num, b)| == 1 + |b| + Sov(|b|)
    ensures |BytesField(num, b)| == if b == [] then 0 else 1 + |b| + Sov(|b|)
    ensures |BoolField(num, true)| == 2 && |BoolField(num, false)| == 0
  {
    SovIsVarintLength(x);
    SovIsVarintLength(|b|);
  }

  // ---------------------------------------------------------------- messages

  datatype ResponseHeader = ResponseHeader(revision: U64, unrecognized: Bytes) {
    function Wire(): Bytes {
      VarintField(1, revision) + unrecognized
    }

    method Size() returns (n: nat)
      ensures n == |Wire()|
    {
      FieldSizes(1, revision, []);
      n := 0;
      if revision != 0 {
        n := n + 1 + Sov(revision);
      }
      n := n + |unrecognized|;
    }
  }

  datatype KeyValue = KeyValue(key: Bytes, revision: U64, value: Bytes, unrecognized: Bytes) {
    function Wire(): Bytes {
      BytesField(1, key) + VarintField(2, revision) + BytesField(3, value) + unrecognized
    }

    method Size() returns (n: nat)
      ensures n == |Wire()|
    {
      hide Sov, BytesField, VarintField;
      FieldSizes(1, 0, key);
      FieldSizes(2, revision, []);
      FieldSizes(3, 0, value);
      n := 0;
      var l := |key|;
      if l > 0 {
        n := n + 1 + l + Sov(l);
      }
      if revision != 0 {
        n := n + 1 + Sov(revision);
      }
      l := |value|;
      if l > 0 {
        n := n + 1 + l + Sov(l);
      }
      n := n + |unrecognized|;
    }
  }

  /** A pointer field: absent when nil. */
  function HeaderField(num: nat, h: Option<ResponseHeader>): Bytes {
    match h case None => [] case Some(m) => Record(num, m.Wire())
  }

  method HeaderFieldSize(ghost num: nat, h: Option<ResponseHeader>) returns (n: nat)
    requires 1 <= num <= 15
    ensures n == |HeaderField(num, h)|
  {
    n := 0;
    if h.Some? {
      var l := h.value.Size();
      FieldSizes(num, 0, h.value.Wire());
      n := n + 1 + l + Sov(l);
    }
  }

  function KeyValueRecords(num: nat, kvs: seq<KeyValue>): Bytes {
    if kvs == [] then []
    else KeyValueRecords(num, kvs[..|kvs| - 1]) + Record(num, kvs[|kvs| - 1].Wire())
  }

  datatype RangeResponse =
    RangeResponse(header: Option<ResponseHeader>, kvs: seq<KeyValue>, more: bool, unrecognized: Bytes)
  {
    function Wire(): Bytes {
      HeaderField(1, header) + KeyValueRecords(2, kvs) + BoolField(3, more) + unrecognized
    }

    method Size() returns (n: nat)
      ensures n == |Wire()|
    {
      hide Sov, Record, HeaderField, BoolField;
      n := HeaderFieldSize(1, header);
      var i := 0;
      while i < |kvs|
        invariant 0 <= i <= |kvs|
        invariant n == |HeaderField(1, header) + KeyValueRecords(2, kvs[..i])|
      {
        var l := kvs[i].Size();
        FieldSizes(2, 0, kvs[i].Wire());
        assert kvs[..i + 1][..i] == kvs[..i];
        n := n + 1 + l + Sov(l);
        i := i + 1;
      }
      assert kvs[..i] == kvs;
      FieldSizes(3, 0, []);
      if more {
        n := n + 2;
      }
      n := n + |unrecognized|;
    }
  }

  function BytesRecords(num: nat, bs: seq<Bytes>): Bytes {
    if bs == [] then []
    else BytesRecords(num, bs[..|bs| - 1]) + Record(num, bs[|bs| - 1])
  }

  datatype ListPartitionResponse = ListPartitionResponse(
    header: Option<ResponseHeader>, partitionNum: I64, partitionKeys: seq<Bytes>, unrecognized: Bytes)
  {
    function Wire(): Bytes {
      HeaderField(1, header) + VarintField(2, ToU64(partitionNum)) + BytesRecords(3, partitionKeys) + unrecognized
    }

    method Size() returns (n: nat)
      ensures n == |Wire()|
    {
      hide Sov, Record, HeaderField, VarintField;
      n := HeaderFieldSize(1, header);
      FieldSizes(2, ToU64(partitionNum), []);
      if partitionNum != 0 {
        n := n + 1 + Sov(ToU64(partitionNum));
      }
      ghost var front := HeaderField(1, header) + VarintField(2, ToU64(partitionNum));
      var i := 0;
      while i < |partitionKeys|
        invariant 0 <= i <= |partitionKeys|
        invariant n == |front + BytesRecords(3, partitionKeys[..i])|
      {
        var l := |partitionKeys[i]|;
        FieldSizes(3, 0, partitionKeys[i]);
        assert partitionKeys[..i + 1][..i] == partitionKeys[..i];
        n := n + 1 + l + Sov(l);
        i := i + 1;
      }
      assert partitionKeys[..i] == partitionKeys;
      n := n + |unrecognized|;
    }
  }

  /** `eventType` is the enum's number; Go widens it to uint64 with its sign. */
  datatype Event =
    Event(eventType: I64, kv: Option<KeyValue>, revision: U64, timestamp: U64, unrecognized: Bytes)
  {
    function KvField(): Bytes {
      match kv case None => [] case Some(m) => Record(2, m.Wire())
    }

    function Wire(): Bytes {
      VarintField(1, ToU64(eventType)) + KvField() + VarintField(3, revision) + VarintField(4, timestamp)
      + unrecognized
    }

    method Size() returns (n: nat)
      ensures n == |Wire()|
    {
      hide Sov, Record, VarintField;
      FieldSizes(1, ToU64(eventType), []);
      FieldSizes(3, revision, []);
      FieldSizes(4, timestamp, []);
      n := 0;
      if eventType != 0 {
        n := n + 1 + Sov(ToU64(eventType));
      }
      if kv.Some? {
        var l := kv.value.Size();
        FieldSizes(2, 0, kv.value.Wire());
        n := n + 1 + l + Sov(l);
      }
      if revision != 0 {
        n := n + 1 + Sov(revision);
      }
      if timestamp != 0 {
        n := n + 1 + Sov(timestamp);
      }
      n := n + |unrecognized|;
    }
  }

  function EventRecords(num: nat, events: seq<Event>): Bytes {
    if events == [] then []
    else EventRecords(num, events[..|events| - 1]) + Record(num, events[|events| - 1].Wire())
  }

  datatype WatchResponse =
    WatchResponse(header: Option<ResponseHeader>, events: seq<Event>, err: Bytes, unrecognized: Bytes)
  {
    function Wire(): Bytes {
      HeaderField(1, header) + EventRecords(2, events) + BytesField(5, err) + unrecognized
    }

    method Size() returns (n: nat)
      ensures n == |Wire()|
    {
      hide Sov, Record, HeaderField, BytesField;
      n := HeaderFieldSize(1, header);
      var i := 0;
      while i < |events|
        invariant 0 <= i <= |events|
        invariant n == |HeaderField(1, header) + EventRecords(2, events[..i])|
      {
        var l := events[i].Size();
        FieldSizes(2, 0, events[i].Wire());
        assert events[..i + 1][..i] == events[..i];
        n := n + 1 + l + Sov(l);
        i := i + 1;
      }
      assert events[..i] == events;
      FieldSizes(5, 0, err);
      var l := |err|;
      if l > 0 {
        n := n + 1 + l + Sov(l);
      }
      n := n + |unrecognized|;
    }
  }
}
