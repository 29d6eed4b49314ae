/**
 The canonical receiving body: 21 fields in 443 bytes, each big-endian and of
 fixed width.  Encoding and decoding fill and read a byte buffer in place.
 */
module Codec {
  import opened Wrappers
  import opened Numerals

  /** The names of the schema; any other key a body may carry is `Unknown`. */
  datatype Name =
    | ChainId | SourceChainId | SettlementDomain | Registry | PoolAddress | Master | Receiver | Token
    | AssetId | AttemptId | SourceRouteHash | RefundWalletCommitment
    | Commitment | EphemeralX | EphemeralY | Binding
    | Principal | ExpectedAmount | MaxFinalizerFee | ExpiresAt | PayloadHash
    | Unknown(key: string)

  datatype FieldKind = IntegerKind | HexKind | FieldKind

  datatype Field = Field(name: Name, size: nat, kind: FieldKind)

  datatype Value = Integer(n: int) | Text(s: string)

  datatype Body = Body(version: int, fields: map<Name, Value>)

  datatype CodecError = BadShape | BadAsset | BadEncoding(name: Name) | NotInteger(name: Name) | BadRange(name: Name) | BadFrame

  const FIELD_PRIME := 21888242871839275222246405745257275088548364400416034343698204186575808495617

  const SCHEMA: seq<Field> := [
    Field(ChainId, 8, IntegerKind), Field(SourceChainId, 8, IntegerKind), Field(SettlementDomain, 8, IntegerKind),
    Field(Registry, 20, HexKind), Field(PoolAddress, 20, HexKind), Field(Master, 20, HexKind),
    Field(Receiver, 20, HexKind), Field(Token, 20, HexKind),
    Field(AssetId, 4, IntegerKind), Field(AttemptId, 32, HexKind), Field(SourceRouteHash, 32, HexKind),
    Field(RefundWalletCommitment, 32, HexKind),
    Field(Commitment, 32, FieldKind), Field(EphemeralX, 32, FieldKind), Field(EphemeralY, 32, FieldKind),
    Field(Binding, 32, FieldKind),
    Field(Principal, 16, IntegerKind), Field(ExpectedAmount, 16, IntegerKind), Field(MaxFinalizerFee, 16, IntegerKind),
    Field(ExpiresAt, 8, IntegerKind), Field(PayloadHash, 32, HexKind)
  ]

  const MAGIC: seq<Byte> := [0x50, 0x52, 4]

  function Names(schema: seq<Field>): set<Name> {
    set i | 0 <= i < |schema| :: schema[i].name
  }

  function TotalSize(schema: seq<Field>): nat {
    if schema == [] then 0 else TotalSize(schema[..|schema| - 1]) + schema[|schema| - 1].size
  }

  const LENGTH := 443

  /** Where each field of the schema ends. */
  const OFFSETS: seq<nat> := [0, 8, 16, 24, 44, 64, 84, 104, 124, 128, 160, 192, 224, 256, 288, 320, 352, 368, 384, 400, 408, 440]

  lemma SchemaOffsets()
    ensures forall k :: 0 <= k < |SCHEMA| ==> OFFSETS[k + 1] == OFFSETS[k] + SCHEMA[k].size
  {
  }

  lemma {:induction false} SizeIsOffset(schema: seq<Field>, offsets: seq<nat>, k: nat)
    requires |offsets| == |schema| + 1 && offsets[0] == 0 && k <= |schema|
    requires forall i :: 0 <= i < |schema| ==> offsets[i + 1] == offsets[i] + schema[i].size
    ensures TotalSize(schema[..k]) == offsets[k]
  {
    if k > 0 {
      SizeIsOffset(schema, offsets, k - 1);
      assert schema[..k][..k - 1] == schema[..k - 1];
    }
  }

  /** The constant length is what the schema adds up to. */
  lemma SchemaLength()
    ensures 3 + TotalSize(SCHEMA) == LENGTH
  {
    SchemaOffsets();
    SizeIsOffset(SCHEMA, OFFSETS, |SCHEMA|);
    assert SCHEMA[..|SCHEMA|] == SCHEMA;
  }

  // -------------------------------------------------------------- one field

  predicate IsHex(s: string, size: nat) {
    && |s| == 2 + 2 * size && s[0] == '0' && s[1] == 'x' && AllHex(s[2..])
  }

  /** The number a field is written as, or what is wrong with it. */
  function Parsed(f: Field, input: Value): Result<int, CodecError> {
    if f.kind == HexKind then
      if input.Text? && IsHex(input.s, f.size) then Success(ParseHex(input.s[2..])) else Failure(BadEncoding(f.name))
    else if input.Integer? then Success(input.n)
    else Failure(NotInteger(f.name))
  }

  function Bound(f: Field): nat {
    if f.kind == FieldKind then FIELD_PRIME else Pow(256, f.size)
  }

  function FieldValue(f: Field, input: Value): Result<nat, CodecError> {
    var value :- Parsed(f, input);
    if value < 0 || value >= Bound(f) || (value == 0 && f.name != MaxFinalizerFee) then Failure(BadRange(f.name))
    else Success(value)
  }

  /** The value a field shows for a number: padded hexadecimal text, or the number. */
  function Shown(f: Field, number: nat): Value {
    if f.kind == HexKind then Text("0x" + PadStart(HexString(number), 2 * f.size)) else Integer(number)
  }

  /** A field read from its bytes. */
  function FieldRead(f: Field, bytes: seq<Byte>): Value {
    Shown(f, FromBytes(bytes))
  }

  function LowerValue(v: Value): Value {
    if v.Text? then Text(Lower(v.s)) else v
  }

  // ------------------------------------------------------------ whole bodies

  /** The fields of a schema, one after the other; the first bad field decides the error. */
  function EncodeFields(schema: seq<Field>, fields: map<Name, Value>): Result<seq<Byte>, CodecError>
    requires Names(schema) <= fields.Keys
  {
    if schema == [] then Success([])
    else
      var f := schema[|schema| - 1];
      assert f.name in Names(schema);
      assert Names(schema[..|schema| - 1]) <= Names(schema);
      var before :- EncodeFields(schema[..|schema| - 1], fields);
      var value :- FieldValue(f, fields[f.name]);
      Success(before + BigEndian(value, f.size))
  }

  function Encode(body: Body): Result<seq<Byte>, CodecError> {
    if body.version != 4 || body.fields.Keys != Names(SCHEMA) then Failure(BadShape)
    else if !GoodAsset(body.fields) then Failure(BadAsset)
    else
      var fields :- EncodeFields(SCHEMA, body.fields);
      Success(MAGIC + fields)
  }

  predicate GoodAsset(fields: map<Name, Value>) {
    AssetId in fields && fields[AssetId] in {Integer(1), Integer(2), Integer(3)}
  }

  function DecodeFields(schema: seq<Field>, bytes: seq<Byte>): map<Name, Value>
    requires |bytes| == TotalSize(schema)
  {
    if schema == [] then map[]
    else
      var f := schema[|schema| - 1];
      var at := |bytes| - f.size;
      DecodeFields(schema[..|schema| - 1], bytes[..at])[f.name := FieldRead(f, bytes[at..])]
  }

  function Decode(bytes: seq<Byte>): Result<Body, CodecError> {
    if |bytes| != LENGTH || bytes[..3] != MAGIC then Failure(BadFrame)
    else
      SchemaLength();
      var body := Body(4, DecodeFields(SCHEMA, bytes[3..]));
      var _ :- Encode(body);
      Success(body)
  }

  // ------------------------------------------------------------- the methods

  /** A value is written lowest byte last, shifting it down byte by byte. */
  method WriteField(bytes: array<Byte>, offset: nat, size: nat, number: nat)
    requires offset + size <= bytes.Length
    modifies bytes
    ensures bytes[..] == old(bytes[..offset]) + BigEndian(number, size) + old(bytes[offset + size..])
  {
    var value, i := number, size;
    while i > 0
      invariant 0 <= i <= size
      invariant bytes[..offset + i] == old(bytes[..offset + i]) && bytes[offset + size..] == old(bytes[offset + size..])
      invariant BigEndian(number, size) == BigEndian(value, i) + bytes[offset + i..offset + size]
    {
      i := i - 1;
      bytes[offset + i] := value % 256;
      value := value / 256;
      assert bytes[offset + i..offset + size] == [bytes[offset + i]] + bytes[offset + i + 1..offset + size];
    }
    assert bytes[..] == bytes[..offset] + bytes[offset..offset + size] + bytes[offset + size..];
  }

  /** The same, seen from the third byte on. */
  method WriteNext(bytes: array<Byte>, offset: nat, size: nat, number: nat)
    requires 3 <= offset && offset + size <= bytes.Length
    modifies bytes
    ensures bytes[..3] == old(bytes[..3])
    ensures bytes[3..offset + size] == old(bytes[3..offset]) + BigEndian(number, size)
  {
    WriteField(bytes, offset, size, number);
    assert bytes[..offset + size] == old(bytes[..offset]) + BigEndian(number, size);
  }

  method ReadField(bytes: seq<Byte>) returns (value: nat)
    ensures value == FromBytes(bytes)
  {
    value := 0;
    for i := 0 to |bytes|
      invariant value == FromBytes(bytes[..i])
    {
      assert bytes[..i + 1][..i] == bytes[..i];
      value := value * 256 + bytes[i];
    }
    assert bytes[..|bytes|] == bytes;
  }

  lemma EncodeStops(schema: seq<Field>, n: nat, fields: map<Name, Value>)
    requires n <= |schema| && Names(schema) <= fields.Keys
    ensures Names(schema[..n]) <= fields.Keys
    ensures EncodeFields(schema[..n], fields).Failure? ==> EncodeFields(schema, fields) == EncodeFields(schema[..n], fields)
    decreases |schema| - n
  {
    assert forall i :: 0 <= i < n ==> schema[..n][i].name in Names(schema);
    if n < |schema| {
      EncodeStops(schema, n + 1, fields);
      assert schema[..n + 1][..n] == schema[..n];
    } else {
      assert schema[..n] == schema;
    }
  }

  lemma SizeGrows(schema: seq<Field>, n: nat)
    requires n < |schema|
    ensures TotalSize(schema[..n + 1]) == TotalSize(schema[..n]) + schema[n].size <= TotalSize(schema)
    decreases |schema| - n
  {
    assert schema[..n + 1][..n] == schema[..n];
    if n + 1 < |schema| {
      SizeGrows(schema, n + 1);
    } else {
      assert schema[..n + 1] == schema;
    }
  }

  lemma EncodeNext(schema: seq<Field>, k: nat, fields: map<Name, Value>)
    requires k < |schema| && Names(schema) <= fields.Keys
    ensures Names(schema[..k]) <= fields.Keys && Names(schema[..k + 1]) <= fields.Keys && schema[k].name in fields
    ensures EncodeFields(schema[..k], fields).Success? ==>
              match FieldValue(schema[k], fields[schema[k].name])
              case Success(v) => EncodeFields(schema[..k + 1], fields) == Success(EncodeFields(schema[..k], fields).value + BigEndian(v, schema[k].size))
              case Failure(error) => EncodeFields(schema, fields) == Failure(error)
  {
    EncodeStops(schema, k, fields);
    EncodeStops(schema, k + 1, fields);
    assert schema[..k + 1][..k] == schema[..k];
    assert schema[k].name in Names(schema);
  }

  lemma DecodeNext(schema: seq<Field>, k: nat, bytes: seq<Byte>)
    requires k < |schema| && |bytes| == TotalSize(schema[..k + 1])
    ensures |bytes| == TotalSize(schema[..k]) + schema[k].size
    ensures var at := TotalSize(schema[..k]);
            DecodeFields(schema[..k + 1], bytes) ==
              DecodeFields(schema[..k], bytes[..at])[schema[k].name := FieldRead(schema[k], bytes[at..])]
  {
    assert schema[..k + 1][..k] == schema[..k];
  }

  /** The loop over the schema: every field is checked and written at its offset. */
  method WriteFields(bytes: array<Byte>, schema: seq<Field>, fields: map<Name, Value>) returns (r: Result<(), CodecError>)
    requires Names(schema) <= fields.Keys && bytes.Length == 3 + TotalSize(schema)
    modifies bytes
    ensures match EncodeFields(schema, fields)
            case Success(written) => r.Success? && bytes[..] == old(bytes[..3]) + written
            case Failure(error) => r == Failure(error)
  {
    var offset := 3;
    assert schema[..0] == [] && bytes[3..3] == [];
    for k := 0 to |schema|
      invariant offset == 3 + TotalSize(schema[..k]) <= bytes.Length
      invariant Names(schema[..k]) <= fields.Keys
      invariant EncodeFields(schema[..k], fields) == Success(bytes[3..offset])
      invariant bytes[..3] == old(bytes[..3])
    {
      var f := schema[k];
      EncodeNext(schema, k, fields);
      SizeGrows(schema, k);
      var value :- FieldValue(f, fields[f.name]);
      WriteNext(bytes, offset, f.size, value);
      offset := offset + f.size;
    }
    assert schema[..|schema|] == schema;
    assert bytes[..] == bytes[..3] + bytes[3..offset];
    return Success(());
  }

  method EncodeReceivingBody(body: Body) returns (r: Result<seq<Byte>, CodecError>)
    ensures r == Encode(body)
  {
    if body.version != 4 || body.fields.Keys != Names(SCHEMA) { return Failure(BadShape); }
    if !GoodAsset(body.fields) { return Failure(BadAsset); }
    var bytes := new Byte[LENGTH](_ => 0);
    bytes[0], bytes[1], bytes[2] := 0x50, 0x52, 4;
    SchemaLength();
    assert bytes[..3] == MAGIC;
    var _ :- WriteFields(bytes, SCHEMA, body.fields);
    return Success(bytes[..]);
  }

  lemma Window(bytes: seq<Byte>, offset: nat, size: nat)
    requires 3 <= offset && offset + size <= |bytes|
    ensures bytes[3..offset + size][..offset - 3] == bytes[3..offset]
    ensures bytes[3..offset + size][offset - 3..] == bytes[offset..offset + size]
  {
  }

  method ReadFields(bytes: seq<Byte>, schema: seq<Field>) returns (fields: map<Name, Value>)
    requires |bytes| == 3 + TotalSize(schema)
    ensures fields == DecodeFields(schema, bytes[3..])
  {
    fields := map[];
    var offset := 3;
    assert schema[..0] == [];
    for k := 0 to |schema|
      invariant offset == 3 + TotalSize(schema[..k]) <= |bytes|
      invariant fields == DecodeFields(schema[..k], bytes[3..offset])
    {
      var f := schema[k];
      SizeGrows(schema, k);
      Window(bytes, offset, f.size);
      DecodeNext(schema, k, bytes[3..offset + f.size]);
      var value := ReadField(bytes[offset..offset + f.size]);
      fields := fields[f.name := Shown(f, value)];
      offset := offset + f.size;
    }
    assert schema[..|schema|] == schema && bytes[3..offset] == bytes[3..];
  }

  method DecodeReceivingBody(bytes: seq<Byte>) returns (r: Result<Body, CodecError>)
    ensures r == Decode(bytes)
  {
    if |bytes| != LENGTH || bytes[0] != 0x50 || bytes[1] != 0x52 || bytes[2] != 4 { return Failure(BadFrame); }
    SchemaLength();
    assert bytes[..3] == [bytes[0], bytes[1], bytes[2]];
    var fields := ReadFields(bytes, SCHEMA);
    var body := Body(4, fields);
    var encoded := EncodeReceivingBody(body);
    if encoded.Failure? { return Failure(encoded.error); }
    return Success(body);
  }
}
