/** A reader of the proto3 wire form (Protocol Buffers Encoding specification), and that it reads every received message
    back from its wire form: field by field, in order, with the bytes of unknown fields retained
    (api/v2rpc/rpc.pb.go). */
module WireForm {
  import opened ByteStrings
  import opened MachineInts
  import opened Wrappers
  import opened Rpc

  // ---------------------------------------------------------------- the reader

  datatype Kind = VarintKind | Fixed64 | Delimited | Fixed32

  /** One field as it stands on the wire: `value` of a varint, `payload` of the other kinds, `raw` all its bytes. */
  datatype Field = Field(num: nat, kind: Kind, value: nat, payload: Bytes, raw: Bytes)

  lemma {:induction false} ReadVarintTakes(b: Bytes)
    ensures ReadVarint(b).Some? ==> 0 < ReadVarint(b).value.1 <= |b|
  {
    if b != [] && b[0] >= 0x80 {
      ReadVarintTakes(b[1..]);
    }
  }

  /** What follows a field's key: the bytes it takes, with their meaning. */
  function ReadPayload(kind: nat, b: Bytes): Option<(Kind, nat, Bytes, nat)> {
    ReadVarintTakes(b);
    match kind
    case 0 => (match ReadVarint(b) case None => None case Some((x, n)) => Some((VarintKind, x, [], n)))
    case 1 => if |b| < 8 then None else Some((Fixed64, 0, b[..8], 8))
    case 2 =>
      (match ReadVarint(b)
       case None => None
       case Some((l, n)) => if |b| < n + l then None else Some((Delimited, 0, b[n..n + l], n + l)))
    case 5 => if |b| < 4 then None else Some((Fixed32, 0, b[..4], 4))
    case _ => None
  }

  /** Reads one field off the front. The key holds the number and, in its last three bits, the wire type. */
  function ReadField(b: Bytes): (f: Option<Field>)
    ensures f.Some? ==> f.value.raw != [] && f.value.raw <= b
  {
    ReadVarintTakes(b);
    match ReadVarint(b)
    case None => None
    case Some((key, k)) =>
      match ReadPayload(key % 8, b[k..])
      case None => None
      case Some((kind, value, payload, n)) =>
        if k + n > |b| then None else Some(Field(key / 8, kind, value, payload, b[..k + n]))
  }

  function ReadFields(b: Bytes): Option<seq<Field>>
    decreases |b|
  {
    if b == [] then Some([])
    else match ReadField(b)
         case None => None
         case Some(f) =>
           match ReadFields(b[|f.raw|..])
           case None => None
           case Some(fs) => Some([f] + fs)
  }

  function VarintOf(f: Field, num: nat): seq<nat> {
    if f.num == num && f.kind == VarintKind then [f.value] else []
  }

  function Varints(fs: seq<Field>, num: nat): seq<nat> {
    if fs == [] then [] else Varints(fs[..|fs| - 1], num) + VarintOf(fs[|fs| - 1], num)
  }

  function PayloadOf(f: Field, num: nat): seq<Bytes> {
    if f.num == num && f.kind == Delimited then [f.payload] else []
  }

  function Payloads(fs: seq<Field>, num: nat): seq<Bytes> {
    if fs == [] then [] else Payloads(fs[..|fs| - 1], num) + PayloadOf(fs[|fs| - 1], num)
  }

  function UnknownOf(f: Field, known: set<nat>): Bytes {
    if f.num in known then [] else f.raw
  }

  /** The bytes of the fields whose numbers a message does not know. */
  function Unknown(fs: seq<Field>, known: set<nat>): Bytes {
    if fs == [] then [] else Unknown(fs[..|fs| - 1], known) + UnknownOf(fs[|fs| - 1], known)
  }

  /** The last one counts; proto3 leaves out defaults. */
  function LastOr<T>(xs: seq<T>, default: T): T {
    if xs == [] then default else xs[|xs| - 1]
  }

  function LastU64(fs: seq<Field>, num: nat): U64 {
    LastOr(Varints(fs, num), 0) % TWO_64
  }

  /** The signed number that was widened to `u`. */
  function FromU64(u: U64): I64 {
    if u < TWO_63 then u else u - TWO_64
  }

  // ---------------------------------------------------------------- reading a concatenation

  lemma {:induction false} ReadVarintPrefix(a: Bytes, b: Bytes)
    requires ReadVarint(a).Some?
    ensures ReadVarint(a + b) == ReadVarint(a)
  {
    if a[0] >= 0x80 {
      ReadVarintPrefix(a[1..], b);
      assert (a + b)[1..] == a[1..] + b;
    }
  }

  lemma ReadPayloadPrefix(kind: nat, a: Bytes, b: Bytes)
    requires ReadPayload(kind, a).Some?
    ensures ReadPayload(kind, a + b) == ReadPayload(kind, a)
    ensures ReadPayload(kind, a).value.3 <= |a|
  {
    hide ReadVarint;
    ReadVarintTakes(a);
    match kind
    case 0 => ReadVarintPrefix(a, b);
    case 2 =>
      ReadVarintPrefix(a, b);
      var l, n := ReadVarint(a).value.0, ReadVarint(a).value.1;
      assert (a + b)[n..n + l] == a[n..n + l];
    case _ =>
      assert |a| >= 8 ==> (a + b)[..8] == a[..8];
      assert |a| >= 4 ==> (a + b)[..4] == a[..4];
  }

  lemma ReadFieldPrefix(a: Bytes, b: Bytes)
    requires ReadField(a).Some?
    ensures ReadField(a + b) == ReadField(a)
  {
    hide ReadVarint, ReadPayload;
    ReadVarintTakes(a);
    ReadVarintPrefix(a, b);
    var k := ReadVarint(a).value.1;
    assert (a + b)[k..] == a[k..] + b;
    ReadPayloadPrefix(ReadVarint(a).value.0 % 8, a[k..], b);
    var n := ReadPayload(ReadVarint(a).value.0 % 8, a[k..]).value.3;
    assert (a + b)[..k + n] == a[..k + n];
  }

  /** `b` reads as the fields `fs`. */
  predicate Reads(b: Bytes, fs: seq<Field>) {
    ReadFields(b) == Some(fs)
  }

  lemma {:induction false} ReadsAppend(a: Bytes, fs: seq<Field>, b: Bytes, gs: seq<Field>)
    requires Reads(a, fs) && Reads(b, gs)
    ensures Reads(a + b, fs + gs)
    decreases |a|
  {
    hide ReadField;
    if a == [] {
      assert a + b == b && fs + gs == gs;
    } else {
      var f := ReadField(a).value;
      ReadFieldPrefix(a, b);
      assert (a + b)[|f.raw|..] == a[|f.raw|..] + b;
      ReadsAppend(a[|f.raw|..], fs[1..], b, gs);
      assert fs + gs == [f] + (fs[1..] + gs);
    }
  }

  lemma ReadsOne(f: Field)
    requires ReadField(f.raw) == Some(f)
    ensures Reads(f.raw, [f])
  {
    assert f.raw[|f.raw|..] == [];
    assert [f] + [] == [f];
  }

  // ---------------------------------------------------------------- single fields

  lemma KeyReads(num: nat, kind: nat, rest: Bytes)
    requires kind < 8
    ensures var key := Varint(8 * num + kind);
      && ReadVarint(key + rest) == Some((8 * num + kind, |key|))
      && (8 * num + kind) / 8 == num && (8 * num + kind) % 8 == kind
      && (key + rest)[|key|..] == rest
  {
    VarintRoundTrip(8 * num + kind, rest);
  }

  lemma VarintReads(num: nat, x: U64)
    ensures var raw := Varint(8 * num) + Varint(x); Reads(raw, [Field(num, VarintKind, x, [], raw)])
  {
    hide ReadVarint, Varint;
    var raw := Varint(8 * num) + Varint(x);
    KeyReads(num, 0, Varint(x));
    VarintRoundTrip(x, []);
    assert Varint(x) + [] == Varint(x);
    assert raw[..|raw|] == raw;
    ReadsOne(Field(num, VarintKind, x, [], raw));
  }

  lemma RecordReads(num: nat, b: Bytes)
    ensures Reads(Record(num, b), [Field(num, Delimited, 0, b, Record(num, b))])
  {
    hide ReadVarint, Varint;
    var raw, rest, n := Record(num, b), Varint(|b|) + b, |Varint(|b|)|;
    assert raw == Varint(8 * num + 2) + rest;
    KeyReads(num, 2, rest);
    VarintRoundTrip(|b|, b);
    assert rest[n..n + |b|] == b;
    assert raw[..|raw|] == raw;
    ReadsOne(Field(num, Delimited, 0, b, raw));
  }

  // ---------------------------------------------------------------- what a message's reader sees

  /** The varints and the payloads of one field number, and the bytes of unknown fields. */
  datatype View = View(varints: seq<nat>, payloads: seq<Bytes>, unknown: Bytes)

  const NOTHING: View := View([], [], [])

  function Then(v: View, w: View): View {
    View(v.varints + w.varints, v.payloads + w.payloads, v.unknown + w.unknown)
  }

  /** `b` is whole fields, of which a reader that looks for `num` sees `v`. */
  predicate Carries(b: Bytes, num: nat, known: set<nat>, v: View) {
    match ReadFields(b)
    case None => false
    case Some(fs) => v == View(Varints(fs, num), Payloads(fs, num), Unknown(fs, known))
  }

  lemma {:induction false} VarintsAppend(fs: seq<Field>, gs: seq<Field>, num: nat)
    ensures Varints(fs + gs, num) == Varints(fs, num) + Varints(gs, num)
  {
    hide VarintOf;
    if gs == [] {
      assert fs + gs == fs;
    } else {
      VarintsAppend(fs, gs[..|gs| - 1], num);
      assert (fs + gs)[..|fs + gs| - 1] == fs + gs[..|gs| - 1];
    }
  }

  lemma {:induction false} PayloadsAppend(fs: seq<Field>, gs: seq<Field>, num: nat)
    ensures Payloads(fs + gs, num) == Payloads(fs, num) + Payloads(gs, num)
  {
    hide PayloadOf;
    if gs == [] {
      assert fs + gs == fs;
    } else {
      PayloadsAppend(fs, gs[..|gs| - 1], num);
      assert (fs + gs)[..|fs + gs| - 1] == fs + gs[..|gs| - 1];
    }
  }

  lemma {:induction false} UnknownAppend(fs: seq<Field>, gs: seq<Field>, known: set<nat>)
    ensures Unknown(fs + gs, known) == Unknown(fs, known) + Unknown(gs, known)
  {
    hide UnknownOf;
    if gs == [] {
      assert fs + gs == fs;
    } else {
      UnknownAppend(fs, gs[..|gs| - 1], known);
      assert (fs + gs)[..|fs + gs| - 1] == fs + gs[..|gs| - 1];
    }
  }

  lemma CarriesAppend(a: Bytes, b: Bytes, num: nat, known: set<nat>, v: View, w: View)
    requires Carries(a, num, known, v) && Carries(b, num, known, w)
    ensures Carries(a + b, num, known, Then(v, w))
  {
    hide ReadFields, Varints, Payloads, Unknown;
    var fs, gs := ReadFields(a).value, ReadFields(b).value;
    ReadsAppend(a, fs, b, gs);
    VarintsAppend(fs, gs, num);
    PayloadsAppend(fs, gs, num);
    UnknownAppend(fs, gs, known);
  }

  lemma SelectOne(f: Field, num: nat, known: set<nat>)
    ensures Varints([f], num) == if f.num == num && f.kind == VarintKind then [f.value] else []
    ensures Payloads([f], num) == if f.num == num && f.kind == Delimited then [f.payload] else []
    ensures Unknown([f], known) == if f.num in known then [] else f.raw
  {
    assert [f][..0] == [];
  }

  lemma CarriesNothing(num: nat, known: set<nat>)
    ensures Carries([], num, known, NOTHING)
  {
  }

  /** A varint field of proto3: there unless it is zero. */
  function VarintView(field: nat, x: nat, num: nat): View {
    if field == num && x != 0 then View([x], [], []) else NOTHING
  }

  /** A record, which is always there. */
  function RecordView(field: nat, b: Bytes, num: nat): View {
    if field == num then View([], [b], []) else NOTHING
  }

  /** A bytes or string field of proto3: there unless it is empty. */
  function BytesView(field: nat, b: Bytes, num: nat): View {
    if b == [] then NOTHING else RecordView(field, b, num)
  }

  lemma VarintCarries(field: nat, x: U64, num: nat, known: set<nat>)
    requires field in known
    ensures Carries(VarintField(field, x), num, known, VarintView(field, x, num))
  {
    hide ReadFields, Varints, Payloads, Unknown, Varint;
    if x == 0 {
      CarriesNothing(num, known);
    } else {
      VarintReads(field, x);
      SelectOne(Field(field, VarintKind, x, [], Varint(8 * field) + Varint(x)), num, known);
    }
  }

  lemma RecordCarries(field: nat, b: Bytes, num: nat, known: set<nat>)
    requires field in known
    ensures Carries(Record(field, b), num, known, RecordView(field, b, num))
  {
    hide ReadFields, Varints, Payloads, Unknown, Record;
    RecordReads(field, b);
    SelectOne(Field(field, Delimited, 0, b, Record(field, b)), num, known);
  }

  lemma BytesCarries(field: nat, b: Bytes, num: nat, known: set<nat>)
    requires field in known
    ensures Carries(BytesField(field, b), num, known, BytesView(field, b, num))
  {
    hide Carries, Record, RecordView;
    if b == [] {
      CarriesNothing(num, known);
    } else {
      RecordCarries(field, b, num, known);
    }
  }

  lemma BoolCarries(field: nat, b: bool, num: nat, known: set<nat>)
    requires field in known
    ensures Carries(BoolField(field, b), num, known, VarintView(field, if b then 1 else 0, num))
  {
    hide Carries, Varint;
    VarintCarries(field, if b then 1 else 0, num, known);
  }

  /** Retained bytes: whole fields, none of which the message knows. */
  predicate OnlyUnknown(b: Bytes, known: set<nat>) {
    ReadFields(b).Some? && forall i :: 0 <= i < |ReadFields(b).value| ==> ReadFields(b).value[i].num !in known
  }

  function Raws(fs: seq<Field>): Bytes {
    if fs == [] then [] else Raws(fs[..|fs| - 1]) + fs[|fs| - 1].raw
  }

  lemma {:induction false} UnknownHides(fs: seq<Field>, num: nat, known: set<nat>)
    requires forall i :: 0 <= i < |fs| ==> fs[i].num !in known
    ensures num in known ==> Varints(fs, num) == [] && Payloads(fs, num) == []
    ensures Unknown(fs, known) == Raws(fs)
  {
    if fs != [] {
      UnknownHides(fs[..|fs| - 1], num, known);
    }
  }

  lemma {:induction false} RawsAppend(f: Field, fs: seq<Field>)
    ensures Raws([f] + fs) == f.raw + Raws(fs)
  {
    if fs == [] {
      assert ([f] + fs)[..0] == [] && [f] + fs == [f];
    } else {
      var front := fs[..|fs| - 1];
      RawsAppend(f, front);
      assert ([f] + fs)[..|fs|] == [f] + front;
    }
  }

  /** The fields that were read are all there is. */
  lemma {:induction false} RawsAreAll(b: Bytes, fs: seq<Field>)
    requires Reads(b, fs)
    ensures Raws(fs) == b
    decreases |b|
  {
    hide ReadField;
    if b != [] {
      var f := ReadField(b).value;
      RawsAreAll(b[|f.raw|..], fs[1..]);
      RawsAppend(f, fs[1..]);
      assert fs == [f] + fs[1..];
    }
  }

  /** What retained bytes show to a reader of the message: nothing that it knows, and themselves. */
  lemma UnknownCarries(b: Bytes, num: nat, known: set<nat>)
    requires OnlyUnknown(b, known) && num in known
    ensures Carries(b, num, known, View([], [], b))
  {
    hide ReadFields, Varints, Payloads, Unknown, Raws;
    UnknownHides(ReadFields(b).value, num, known);
    RawsAreAll(b, ReadFields(b).value);
  }

  /** What a reader sees of four parts in a row, the last being retained bytes. */
  lemma FourCarry(
    b1: Bytes, b2: Bytes, b3: Bytes, us: Bytes, num: nat, known: set<nat>, v1: View, v2: View, v3: View)
    requires Carries(b1, num, known, v1) && Carries(b2, num, known, v2) && Carries(b3, num, known, v3)
    requires OnlyUnknown(us, known) && num in known && v1.unknown == v2.unknown == v3.unknown == []
    ensures Carries(b1 + b2 + b3 + us, num, known,
                    View(v1.varints + v2.varints + v3.varints, v1.payloads + v2.payloads + v3.payloads, us))
  {
    hide Carries, OnlyUnknown;
    UnknownCarries(us, num, known);
    CarriesAppend(b1, b2, num, known, v1, v2);
    CarriesAppend(b1 + b2, b3, num, known, Then(v1, v2), v3);
    CarriesAppend(b1 + b2 + b3, us, num, known, Then(Then(v1, v2), v3), View([], [], us));
    var v := Then(Then(Then(v1, v2), v3), View([], [], us));
    assert v.varints == v1.varints + v2.varints + v3.varints && v.payloads == v1.payloads + v2.payloads + v3.payloads;
    assert v.unknown == us;
  }

  // ---------------------------------------------------------------- header and pair

  const HEADER: set<nat> := {1}

  function ReadHeader(b: Bytes): Option<ResponseHeader> {
    match ReadFields(b)
    case None => None
    case Some(fs) => Some(ResponseHeader(LastU64(fs, 1), Unknown(fs, HEADER)))
  }

  predicate HeaderOk(h: ResponseHeader) {
    OnlyUnknown(h.unrecognized, HEADER)
  }

  lemma HeaderReadsBack(h: ResponseHeader)
    requires HeaderOk(h)
    ensures ReadHeader(h.Wire()) == Some(h)
  {
    hide ReadFields, VarintField, Varints, Payloads, Unknown, OnlyUnknown;
    VarintCarries(1, h.revision, 1, HEADER);
    UnknownCarries(h.unrecognized, 1, HEADER);
    CarriesAppend(VarintField(1, h.revision), h.unrecognized, 1, HEADER,
                  VarintView(1, h.revision, 1), View([], [], h.unrecognized));
    var v := Then(VarintView(1, h.revision, 1), View([], [], h.unrecognized));
    assert v.varints == VarintView(1, h.revision, 1).varints && v.unknown == h.unrecognized;
  }

  const KEY_VALUE: set<nat> := {1, 2, 3}

  function ReadKeyValue(b: Bytes): Option<KeyValue> {
    match ReadFields(b)
    case None => None
    case Some(fs) =>
      Some(KeyValue(LastOr(Payloads(fs, 1), []), LastU64(fs, 2), LastOr(Payloads(fs, 3), []), Unknown(fs, KEY_VALUE)))
  }

  predicate KeyValueOk(kv: KeyValue) {
    OnlyUnknown(kv.unrecognized, KEY_VALUE)
  }

  lemma KeyValueCarries(kv: KeyValue, num: nat)
    requires KeyValueOk(kv) && num in KEY_VALUE
    ensures Carries(kv.Wire(), num, KEY_VALUE,
                    View(VarintView(2, kv.revision, num).varints,
                         BytesView(1, kv.key, num).payloads + BytesView(3, kv.value, num).payloads,
                         kv.unrecognized))
  {
    hide Carries, VarintField, BytesField, OnlyUnknown;
    var v1, v2, v3 := BytesView(1, kv.key, num), VarintView(2, kv.revision, num), BytesView(3, kv.value, num);
    BytesCarries(1, kv.key, num, KEY_VALUE);
    VarintCarries(2, kv.revision, num, KEY_VALUE);
    BytesCarries(3, kv.value, num, KEY_VALUE);
    FourCarry(BytesField(1, kv.key), VarintField(2, kv.revision), BytesField(3, kv.value), kv.unrecognized, num,
              KEY_VALUE, v1, v2, v3);
    assert v1.varints + v2.varints + v3.varints == v2.varints;
    assert v1.payloads + v2.payloads + v3.payloads == v1.payloads + v3.payloads;
  }

  /** Key, revision, value and retained bytes of a pair are read back from its wire form. */
  lemma KeyValueReadsBack(kv: KeyValue)
    requires KeyValueOk(kv)
    ensures ReadKeyValue(kv.Wire()) == Some(kv)
  {
    hide ReadFields, Varints, Payloads, Unknown, OnlyUnknown, KeyValue.Wire;
    KeyValueCarries(kv, 1);
    KeyValueCarries(kv, 2);
    KeyValueCarries(kv, 3);
  }

  // ---------------------------------------------------------------- the messages that hold them

  /** A nested message: absent without a record, else the last record. */
  function ReadHeaderOf(ps: seq<Bytes>): Option<Option<ResponseHeader>> {
    if ps == [] then Some(None)
    else match ReadHeader(ps[|ps| - 1])
         case None => None
         case Some(h) => Some(Some(h))
  }

  predicate OptionalHeaderOk(h: Option<ResponseHeader>) {
    h.Some? ==> HeaderOk(h.value)
  }

  function HeaderView(h: Option<ResponseHeader>, num: nat): View {
    match h case None => NOTHING case Some(m) => RecordView(1, m.Wire(), num)
  }

  lemma HeaderCarries(h: Option<ResponseHeader>, num: nat, known: set<nat>)
    requires 1 in known
    ensures Carries(HeaderField(1, h), num, known, HeaderView(h, num))
  {
    hide Carries, Record, RecordView;
    if h.None? {
      CarriesNothing(num, known);
    } else {
      RecordCarries(1, h.value.Wire(), num, known);
    }
  }

  lemma HeaderViewReads(h: Option<ResponseHeader>)
    requires OptionalHeaderOk(h)
    ensures ReadHeaderOf(HeaderView(h, 1).payloads) == Some(h)
    ensures HeaderView(h, 1).varints == [] && HeaderView(h, 1).unknown == []
  {
    hide ReadHeader, HeaderOk;
    if h.Some? {
      HeaderReadsBack(h.value);
    }
  }

  function ReadKeyValues(ps: seq<Bytes>): Option<seq<KeyValue>> {
    if ps == [] then Some([])
    else match (ReadKeyValues(ps[..|ps| - 1]), ReadKeyValue(ps[|ps| - 1]))
         case (Some(kvs), Some(kv)) => Some(kvs + [kv])
         case _ => None
  }

  predicate AllKeyValuesOk(kvs: seq<KeyValue>) {
    forall i :: 0 <= i < |kvs| ==> KeyValueOk(kvs[i])
  }

  /** The records of repeated pairs. */
  function KeyValueWires(kvs: seq<KeyValue>): seq<Bytes> {
    if kvs == [] then [] else KeyValueWires(kvs[..|kvs| - 1]) + [kvs[|kvs| - 1].Wire()]
  }

  lemma OneMoreKeyValue(ps: seq<Bytes>, kvs: seq<KeyValue>, p: Bytes, kv: KeyValue)
    requires ReadKeyValues(ps) == Some(kvs) && ReadKeyValue(p) == Some(kv)
    ensures ReadKeyValues(ps + [p]) == Some(kvs + [kv])
  {
    hide ReadKeyValue;
    assert (ps + [p])[..|ps|] == ps;
  }

  lemma {:induction false} KeyValueWiresRead(kvs: seq<KeyValue>)
    requires AllKeyValuesOk(kvs)
    ensures ReadKeyValues(KeyValueWires(kvs)) == Some(kvs)
  {
    hide ReadKeyValues, ReadKeyValue, KeyValueOk, KeyValue.Wire;
    if kvs == [] {
      NoneKeyValue();
    } else {
      var front, last := kvs[..|kvs| - 1], kvs[|kvs| - 1];
      KeyValueWiresRead(front);
      KeyValueReadsBack(last);
      OneMoreKeyValue(KeyValueWires(front), front, last.Wire(), last);
      assert kvs == front + [last];
    }
  }

  lemma NoneKeyValue()
    ensures ReadKeyValues([]) == Some([])
  {
  }


  /** Repeated records of field `field`, as a reader of `num` sees them. */
  function RecordsView(field: nat, ps: seq<Bytes>, num: nat): View {
    if field == num then View([], ps, []) else NOTHING
  }

  lemma OneMoreRecord(field: nat, ps: seq<Bytes>, p: Bytes, num: nat)
    ensures Then(RecordsView(field, ps, num), RecordView(field, p, num)) == RecordsView(field, ps + [p], num)
  {
    var v := Then(RecordsView(field, ps, num), RecordView(field, p, num));
    assert v.varints == [] && v.unknown == [] && v.payloads == RecordsView(field, ps + [p], num).payloads;
  }

  lemma NoRecord(field: nat, num: nat)
    ensures RecordsView(field, [], num) == NOTHING
  {
  }

  lemma {:induction false} KeyValuesCarry(kvs: seq<KeyValue>, num: nat, known: set<nat>)
    requires 2 in known
    ensures Carries(KeyValueRecords(2, kvs), num, known, RecordsView(2, KeyValueWires(kvs), num))
  {
    hide Carries, Record, RecordView, RecordsView, Then;
    if kvs == [] {
      CarriesNothing(num, known);
      NoRecord(2, num);
    } else {
      var front, w := kvs[..|kvs| - 1], kvs[|kvs| - 1].Wire();
      KeyValuesCarry(front, num, known);
      RecordCarries(2, w, num, known);
      CarriesAppend(KeyValueRecords(2, front), Record(2, w), num, known,
                    RecordsView(2, KeyValueWires(front), num), RecordView(2, w, num));
      OneMoreRecord(2, KeyValueWires(front), w, num);
    }
  }

  const RANGE_RESPONSE: set<nat> := {1, 2, 3}

  function ReadRangeResponse(b: Bytes): Option<RangeResponse> {
    match ReadFields(b)
    case None => None
    case Some(fs) =>
      match (ReadHeaderOf(Payloads(fs, 1)), ReadKeyValues(Payloads(fs, 2)))
      case (Some(header), Some(kvs)) =>
        Some(RangeResponse(header, kvs, LastU64(fs, 3) != 0, Unknown(fs, RANGE_RESPONSE)))
      case _ => None
  }

  predicate RangeResponseOk(m: RangeResponse) {
    OptionalHeaderOk(m.header) && AllKeyValuesOk(m.kvs) && OnlyUnknown(m.unrecognized, RANGE_RESPONSE)
  }

  lemma RangeResponseCarries(m: RangeResponse, num: nat)
    requires RangeResponseOk(m) && num in RANGE_RESPONSE
    ensures Carries(m.Wire(), num, RANGE_RESPONSE,
                    View(if num == 3 && m.more then [1] else [],
                         if num == 1 then HeaderView(m.header, 1).payloads
                         else if num == 2 then KeyValueWires(m.kvs) else [],
                         m.unrecognized))
  {
    hide Carries, OnlyUnknown, Record, KeyValueRecords, BoolField, HeaderField, KeyValueWires;
    var v1, v2, v3 :=
      HeaderView(m.header, num), RecordsView(2, KeyValueWires(m.kvs), num), VarintView(3, if m.more then 1 else 0, num);
    HeaderCarries(m.header, num, RANGE_RESPONSE);
    KeyValuesCarry(m.kvs, num, RANGE_RESPONSE);
    BoolCarries(3, m.more, num, RANGE_RESPONSE);
    FourCarry(HeaderField(1, m.header), KeyValueRecords(2, m.kvs), BoolField(3, m.more), m.unrecognized, num,
              RANGE_RESPONSE, v1, v2, v3);
    assert v1.varints + v2.varints + v3.varints == if num == 3 && m.more then [1] else [];
    assert v1.payloads + v2.payloads + v3.payloads
        == if num == 1 then HeaderView(m.header, 1).payloads else if num == 2 then KeyValueWires(m.kvs) else [];
  }

  /** Header, pairs in order, flag and retained bytes are read back. */
  lemma RangeResponseReadsBack(m: RangeResponse)
    requires RangeResponseOk(m)
    ensures ReadRangeResponse(m.Wire()) == Some(m)
  {
    hide ReadFields, Varints, Payloads, Unknown, OnlyUnknown, RangeResponse.Wire, ReadHeaderOf, ReadKeyValues,
         OptionalHeaderOk, AllKeyValuesOk, HeaderView, KeyValueWires;
    RangeResponseCarries(m, 1);
    RangeResponseCarries(m, 2);
    RangeResponseCarries(m, 3);
    HeaderViewReads(m.header);
    KeyValueWiresRead(m.kvs);
  }

  lemma {:induction false} BytesRecordsCarry(bs: seq<Bytes>, num: nat, known: set<nat>)
    requires 3 in known
    ensures Carries(BytesRecords(3, bs), num, known, RecordsView(3, bs, num))
  {
    hide Carries, Record, RecordView, RecordsView, Then;
    if bs == [] {
      CarriesNothing(num, known);
      NoRecord(3, num);
    } else {
      var front, last := bs[..|bs| - 1], bs[|bs| - 1];
      BytesRecordsCarry(front, num, known);
      RecordCarries(3, last, num, known);
      CarriesAppend(BytesRecords(3, front), Record(3, last), num, known,
                    RecordsView(3, front, num), RecordView(3, last, num));
      OneMoreRecord(3, front, last, num);
      assert bs == front + [last];
    }
  }

  const LIST_PARTITION: set<nat> := {1, 2, 3}

  function ReadListPartitionResponse(b: Bytes): Option<ListPartitionResponse> {
    match ReadFields(b)
    case None => None
    case Some(fs) =>
      match ReadHeaderOf(Payloads(fs, 1))
      case None => None
      case Some(header) =>
        Some(ListPartitionResponse(header, FromU64(LastU64(fs, 2)), Payloads(fs, 3), Unknown(fs, LIST_PARTITION)))
  }

  predicate ListPartitionResponseOk(m: ListPartitionResponse) {
    OptionalHeaderOk(m.header) && OnlyUnknown(m.unrecognized, LIST_PARTITION)
  }

  lemma ListPartitionCarries(m: ListPartitionResponse, num: nat)
    requires ListPartitionResponseOk(m) && num in LIST_PARTITION
    ensures Carries(m.Wire(), num, LIST_PARTITION,
                    View(VarintView(2, ToU64(m.partitionNum), num).varints,
                         if num == 1 then HeaderView(m.header, 1).payloads
                         else if num == 3 then m.partitionKeys else [],
                         m.unrecognized))
  {
    hide Carries, OnlyUnknown, Record, BytesRecords, VarintField, HeaderField, ToU64;
    var u := ToU64(m.partitionNum);
    var v1, v2, v3 := HeaderView(m.header, num), VarintView(2, u, num), RecordsView(3, m.partitionKeys, num);
    HeaderCarries(m.header, num, LIST_PARTITION);
    VarintCarries(2, u, num, LIST_PARTITION);
    BytesRecordsCarry(m.partitionKeys, num, LIST_PARTITION);
    FourCarry(HeaderField(1, m.header), VarintField(2, u), BytesRecords(3, m.partitionKeys), m.unrecognized, num,
              LIST_PARTITION, v1, v2, v3);
    assert v1.varints + v2.varints + v3.varints == v2.varints;
    assert v1.payloads + v2.payloads + v3.payloads
        == if num == 1 then HeaderView(m.header, 1).payloads else if num == 3 then m.partitionKeys else [];
  }

  /** Widening a signed number to uint64 loses nothing. */
  lemma WideningUndone(x: I64)
    ensures FromU64(ToU64(x)) == x && (ToU64(x) == 0 <==> x == 0)
  {
  }

  /** Header, signed number, keys in order and retained bytes are read back. */
  lemma ListPartitionResponseReadsBack(m: ListPartitionResponse)
    requires ListPartitionResponseOk(m)
    ensures ReadListPartitionResponse(m.Wire()) == Some(m)
  {
    hide ReadFields, Varints, Payloads, Unknown, OnlyUnknown, ListPartitionResponse.Wire, ReadHeaderOf,
         OptionalHeaderOk, HeaderView, ToU64, FromU64;
    ListPartitionCarries(m, 1);
    ListPartitionCarries(m, 2);
    ListPartitionCarries(m, 3);
    HeaderViewReads(m.header);
    WideningUndone(m.partitionNum);
  }

  // ---------------------------------------------------------------- events

  const EVENT: set<nat> := {1, 2, 3, 4}

  function ReadKeyValueOf(ps: seq<Bytes>): Option<Option<KeyValue>> {
    if ps == [] then Some(None)
    else match ReadKeyValue(ps[|ps| - 1])
         case None => None
         case Some(kv) => Some(Some(kv))
  }

  function ReadEvent(b: Bytes): Option<Event> {
    match ReadFields(b)
    case None => None
    case Some(fs) =>
      match ReadKeyValueOf(Payloads(fs, 2))
      case None => None
      case Some(kv) => Some(Event(FromU64(LastU64(fs, 1)), kv, LastU64(fs, 3), LastU64(fs, 4), Unknown(fs, EVENT)))
  }

  predicate EventOk(m: Event) {
    (m.kv.Some? ==> KeyValueOk(m.kv.value)) && OnlyUnknown(m.unrecognized, EVENT)
  }

  function KvView(kv: Option<KeyValue>, num: nat): View {
    match kv case None => NOTHING case Some(m) => RecordView(2, m.Wire(), num)
  }

  lemma KvCarries(m: Event, num: nat, known: set<nat>)
    requires 2 in known
    ensures Carries(m.KvField(), num, known, KvView(m.kv, num))
  {
    hide Carries, Record, RecordView;
    if m.kv.None? {
      CarriesNothing(num, known);
    } else {
      RecordCarries(2, m.kv.value.Wire(), num, known);
    }
  }

  lemma KvViewReads(kv: Option<KeyValue>)
    requires kv.Some? ==> KeyValueOk(kv.value)
    ensures ReadKeyValueOf(KvView(kv, 2).payloads) == Some(kv)
  {
    hide ReadKeyValue, KeyValueOk;
    if kv.Some? {
      KeyValueReadsBack(kv.value);
    }
  }

  lemma EventCarries(m: Event, num: nat)
    requires EventOk(m) && num in EVENT
    ensures Carries(m.Wire(), num, EVENT,
                    View(if num == 1 then VarintView(1, ToU64(m.eventType), 1).varints
                         else if num == 3 then VarintView(3, m.revision, 3).varints
                         else VarintView(4, m.timestamp, num).varints,
                         KvView(m.kv, num).payloads, m.unrecognized))
  {
    hide Carries, OnlyUnknown, Record, VarintField, Event.KvField, ToU64;
    var b1, b2, u := VarintField(1, ToU64(m.eventType)), m.KvField(), ToU64(m.eventType);
    var v1, v2 := VarintView(1, u, num), KvView(m.kv, num);
    var v3, v4 := VarintView(3, m.revision, num), VarintView(4, m.timestamp, num);
    VarintCarries(1, u, num, EVENT);
    KvCarries(m, num, EVENT);
    VarintCarries(3, m.revision, num, EVENT);
    VarintCarries(4, m.timestamp, num, EVENT);
    CarriesAppend(b1, b2, num, EVENT, v1, v2);
    assert Then(v1, v2).unknown == [];
    FourCarry(b1 + b2, VarintField(3, m.revision), VarintField(4, m.timestamp), m.unrecognized, num, EVENT,
              Then(v1, v2), v3, v4);
    assert v1.varints + v2.varints + v3.varints + v4.varints
        == if num == 1 then v1.varints else if num == 3 then v3.varints else v4.varints;
    assert v1.payloads + v2.payloads + v3.payloads + v4.payloads == v2.payloads;
  }

  /** Type, pair, revision, timestamp and retained bytes are read back. */
  lemma EventReadsBack(m: Event)
    requires EventOk(m)
    ensures ReadEvent(m.Wire()) == Some(m)
  {
    hide ReadFields, Varints, Payloads, Unknown, OnlyUnknown, Event.Wire, ReadKeyValueOf, KeyValueOk, KvView, ToU64,
         FromU64;
    EventCarries(m, 1);
    EventCarries(m, 2);
    EventCarries(m, 3);
    EventCarries(m, 4);
    KvViewReads(m.kv);
    WideningUndone(m.eventType);
  }

  function ReadEvents(ps: seq<Bytes>): Option<seq<Event>> {
    if ps == [] then Some([])
    else match (ReadEvents(ps[..|ps| - 1]), ReadEvent(ps[|ps| - 1]))
         case (Some(es), Some(e)) => Some(es + [e])
         case _ => None
  }

  predicate AllEventsOk(es: seq<Event>) {
    forall i :: 0 <= i < |es| ==> EventOk(es[i])
  }

  function EventWires(es: seq<Event>): seq<Bytes> {
    if es == [] then [] else EventWires(es[..|es| - 1]) + [es[|es| - 1].Wire()]
  }

  lemma OneMoreEvent(ps: seq<Bytes>, es: seq<Event>, p: Bytes, e: Event)
    requires ReadEvents(ps) == Some(es) && ReadEvent(p) == Some(e)
    ensures ReadEvents(ps + [p]) == Some(es + [e])
  {
    hide ReadEvent;
    assert (ps + [p])[..|ps|] == ps;
  }

  lemma {:induction false} EventWiresRead(es: seq<Event>)
    requires AllEventsOk(es)
    ensures ReadEvents(EventWires(es)) == Some(es)
  {
    hide ReadEvents, ReadEvent, EventOk, Event.Wire;
    if es == [] {
      NoneEvent();
    } else {
      var front, last := es[..|es| - 1], es[|es| - 1];
      EventWiresRead(front);
      EventReadsBack(last);
      OneMoreEvent(EventWires(front), front, last.Wire(), last);
      assert es == front + [last];
    }
  }

  lemma NoneEvent()
    ensures ReadEvents([]) == Some([])
  {
  }


  lemma {:induction false} EventsCarry(es: seq<Event>, num: nat, known: set<nat>)
    requires 2 in known
    ensures Carries(EventRecords(2, es), num, known, RecordsView(2, EventWires(es), num))
  {
    hide Carries, Record, RecordView, RecordsView, Then;
    if es == [] {
      CarriesNothing(num, known);
      NoRecord(2, num);
    } else {
      var front, w := es[..|es| - 1], es[|es| - 1].Wire();
      EventsCarry(front, num, known);
      RecordCarries(2, w, num, known);
      CarriesAppend(EventRecords(2, front), Record(2, w), num, known,
                    RecordsView(2, EventWires(front), num), RecordView(2, w, num));
      OneMoreRecord(2, EventWires(front), w, num);
    }
  }

  const WATCH_RESPONSE: set<nat> := {1, 2, 5}

  function ReadWatchResponse(b: Bytes): Option<WatchResponse> {
    match ReadFields(b)
    case None => None
    case Some(fs) =>
      match (ReadHeaderOf(Payloads(fs, 1)), ReadEvents(Payloads(fs, 2)))
      case (Some(header), Some(es)) =>
        Some(WatchResponse(header, es, LastOr(Payloads(fs, 5), []), Unknown(fs, WATCH_RESPONSE)))
      case _ => None
  }

  predicate WatchResponseOk(m: WatchResponse) {
    OptionalHeaderOk(m.header) && AllEventsOk(m.events) && OnlyUnknown(m.unrecognized, WATCH_RESPONSE)
  }

  lemma WatchResponseCarries(m: WatchResponse, num: nat)
    requires WatchResponseOk(m) && num in WATCH_RESPONSE
    ensures Carries(m.Wire(), num, WATCH_RESPONSE,
                    View([],
                         if num == 1 then HeaderView(m.header, 1).payloads
                         else if num == 2 then EventWires(m.events) else BytesView(5, m.err, 5).payloads,
                         m.unrecognized))
  {
    hide Carries, OnlyUnknown, Record, EventRecords, BytesField, HeaderField, EventWires;
    var v1, v2, v3 := HeaderView(m.header, num), RecordsView(2, EventWires(m.events), num), BytesView(5, m.err, num);
    HeaderCarries(m.header, num, WATCH_RESPONSE);
    EventsCarry(m.events, num, WATCH_RESPONSE);
    BytesCarries(5, m.err, num, WATCH_RESPONSE);
    FourCarry(HeaderField(1, m.header), EventRecords(2, m.events), BytesField(5, m.err), m.unrecognized, num,
              WATCH_RESPONSE, v1, v2, v3);
    assert v1.varints + v2.varints + v3.varints == [];
    assert v1.payloads + v2.payloads + v3.payloads
        == if num == 1 then HeaderView(m.header, 1).payloads
           else if num == 2 then EventWires(m.events) else BytesView(5, m.err, 5).payloads;
  }

  /** Header, events in order, error text and retained bytes are read back. */
  lemma WatchResponseReadsBack(m: WatchResponse)
    requires WatchResponseOk(m)
    ensures ReadWatchResponse(m.Wire()) == Some(m)
  {
    hide ReadFields, Varints, Payloads, Unknown, OnlyUnknown, WatchResponse.Wire, ReadHeaderOf, ReadEvents,
         OptionalHeaderOk, AllEventsOk, HeaderView, EventWires;
    WatchResponseCarries(m, 1);
    WatchResponseCarries(m, 2);
    WatchResponseCarries(m, 5);
    HeaderViewReads(m.header);
    EventWiresRead(m.events);
  }
}
