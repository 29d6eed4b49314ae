/**
 What the codec promises: it accepts exactly the valid bodies, decoding inverts
 encoding up to the case of hexadecimal digits, encoding inverts decoding, and the
 accepted byte strings are exactly the encodings.
 */
module CodecProofs {
  import opened Wrappers
  import opened Numerals
  import opened Codec

  // -------------------------------------------------------- meaning of a field

  /** A field value in range: an integer of its width, a field element, or hexadecimal text; not zero but for one fee. */
  predicate ValidField(f: Field, v: Value) {
    match f.kind
    case HexKind =>
      v.Text? && IsHex(v.s, f.size) && (f.name == MaxFinalizerFee || exists i :: 2 <= i < |v.s| && v.s[i] != '0')
    case IntegerKind => v.Integer? && 0 <= v.n < Pow(256, f.size) && (f.name == MaxFinalizerFee || v.n != 0)
    case FieldKind => v.Integer? && 0 <= v.n < FIELD_PRIME && (f.name == MaxFinalizerFee || v.n != 0)
  }

  predicate ValidFields(schema: seq<Field>, fields: map<Name, Value>) {
    forall k :: 0 <= k < |schema| ==> schema[k].name in fields && ValidField(schema[k], fields[schema[k].name])
  }

  predicate ValidBody(b: Body) {
    && b.version == 4 && b.fields.Keys == Names(SCHEMA)
    && GoodAsset(b.fields) && ValidFields(SCHEMA, b.fields)
  }

  lemma HexTextFits(f: Field, s: string)
    requires IsHex(s, f.size)
    ensures ParseHex(s[2..]) < Pow(256, f.size)
    ensures ParseHex(s[2..]) == 0 <==> forall i :: 2 <= i < |s| ==> s[i] == '0'
  {
    PrintsBack(s[2..]);
    TwoDigitsPerByte(f.size);
    ZeroHasOnlyZeros(s[2..]);
    assert forall i :: 2 <= i < |s| ==> s[i] == s[2..][i - 2];
  }

  lemma FieldAcceptsExactlyValid(f: Field, v: Value)
    ensures FieldValue(f, v).Success? <==> ValidField(f, v)
  {
    if f.kind == HexKind && v.Text? && IsHex(v.s, f.size) {
      HexTextFits(f, v.s);
    }
  }

  lemma {:induction false} FieldsAcceptExactlyValid(schema: seq<Field>, fields: map<Name, Value>)
    requires Names(schema) <= fields.Keys
    ensures EncodeFields(schema, fields).Success? <==> ValidFields(schema, fields)
  {
    if schema != [] {
      var init, f := schema[..|schema| - 1], schema[|schema| - 1];
      assert f.name in Names(schema) && Names(init) <= Names(schema);
      FieldsAcceptExactlyValid(init, fields);
      FieldAcceptsExactlyValid(f, fields[f.name]);
      assert forall k :: 0 <= k < |init| ==> init[k] == schema[k];
    }
  }

  /** A body is encoded exactly when it is valid. */
  lemma EncodesExactlyValidBodies(b: Body)
    ensures Encode(b).Success? <==> ValidBody(b)
  {
    if b.fields.Keys == Names(SCHEMA) {
      FieldsAcceptExactlyValid(SCHEMA, b.fields);
    }
  }

  // ------------------------------------------------------------- what is wrong

  /** What is wrong with a field that is not valid. */
  predicate Complains(f: Field, v: Value, error: CodecError) {
    if f.kind == HexKind && !(v.Text? && IsHex(v.s, f.size)) then error == BadEncoding(f.name)
    else if f.kind != HexKind && !v.Integer? then error == NotInteger(f.name)
    else error == BadRange(f.name)
  }

  /** The first field in schema order that is not valid decides. */
  ghost predicate FirstBad(schema: seq<Field>, fields: map<Name, Value>, error: CodecError) {
    exists k :: && 0 <= k < |schema| && ValidFields(schema[..k], fields) && schema[k].name in fields
                && !ValidField(schema[k], fields[schema[k].name]) && Complains(schema[k], fields[schema[k].name], error)
  }

  lemma {:induction false} FieldsComplain(schema: seq<Field>, fields: map<Name, Value>)
    requires Names(schema) <= fields.Keys && EncodeFields(schema, fields).Failure?
    ensures FirstBad(schema, fields, EncodeFields(schema, fields).error)
  {
    var last := |schema| - 1;
    var init, f := schema[..last], schema[last];
    assert f.name in Names(schema) && Names(init) <= Names(schema);
    if EncodeFields(init, fields).Failure? {
      FieldsComplain(init, fields);
      var error := EncodeFields(init, fields).error;
      var k :| && 0 <= k < |init| && ValidFields(init[..k], fields) && init[k].name in fields
               && !ValidField(init[k], fields[init[k].name]) && Complains(init[k], fields[init[k].name], error);
      assert init[..k] == schema[..k] && init[k] == schema[k];
    } else {
      FieldsAcceptExactlyValid(init, fields);
      FieldAcceptsExactlyValid(f, fields[f.name]);
      assert ValidFields(schema[..last], fields) && !ValidField(schema[last], fields[schema[last].name]);
    }
  }

  /** What a body that is not valid is told: its shape first, then its asset, then its first bad field. */
  lemma EncodeComplains(b: Body)
    requires !ValidBody(b)
    ensures Encode(b).Failure?
    ensures var e, shapely := Encode(b).error, b.version == 4 && b.fields.Keys == Names(SCHEMA);
            && (!shapely ==> e == BadShape)
            && (shapely && !GoodAsset(b.fields) ==> e == BadAsset)
            && (shapely && GoodAsset(b.fields) ==> FirstBad(SCHEMA, b.fields, e))
  {
    EncodesExactlyValidBodies(b);
    if b.version == 4 && b.fields.Keys == Names(SCHEMA) && GoodAsset(b.fields) {
      FieldsComplain(SCHEMA, b.fields);
    }
  }

  // ------------------------------------------------------------------- layout

  /** Where a field starts in the body, and how many bytes it takes. */
  function PlaceOf(n: Name): (nat, nat) {
    match n
    case ChainId => (3, 8)
    case SourceChainId => (11, 8)
    case SettlementDomain => (19, 8)
    case Registry => (27, 20)
    case PoolAddress => (47, 20)
    case Master => (67, 20)
    case Receiver => (87, 20)
    case Token => (107, 20)
    case AssetId => (127, 4)
    case AttemptId => (131, 32)
    case SourceRouteHash => (163, 32)
    case RefundWalletCommitment => (195, 32)
    case Commitment => (227, 32)
    case EphemeralX => (259, 32)
    case EphemeralY => (291, 32)
    case Binding => (323, 32)
    case Principal => (355, 16)
    case ExpectedAmount => (371, 16)
    case MaxFinalizerFee => (387, 16)
    case ExpiresAt => (403, 8)
    case PayloadHash => (411, 32)
    case Unknown(_) => (443, 0)
  }

  lemma {:induction false} FieldBytes(schema: seq<Field>, fields: map<Name, Value>, k: nat)
    requires Names(schema) <= fields.Keys && EncodeFields(schema, fields).Success? && k < |schema|
    ensures schema[k].name in fields && FieldValue(schema[k], fields[schema[k].name]).Success?
    ensures TotalSize(schema[..k]) + schema[k].size <= |EncodeFields(schema, fields).value| == TotalSize(schema)
    ensures EncodeFields(schema, fields).value[TotalSize(schema[..k])..TotalSize(schema[..k]) + schema[k].size]
            == BigEndian(FieldValue(schema[k], fields[schema[k].name]).value, schema[k].size)
    decreases |schema|
  {
    var last := |schema| - 1;
    var init, f := schema[..last], schema[last];
    assert f.name in Names(schema) && Names(init) <= Names(schema);
    EncodedSize(schema, fields);
    EncodedSize(init, fields);
    if k < last {
      FieldBytes(init, fields, k);
      assert init[..k] == schema[..k] && init[k] == schema[k];
    } else {
      assert schema[..k] == init;
    }
  }

  lemma {:induction false} EncodedSize(schema: seq<Field>, fields: map<Name, Value>)
    requires Names(schema) <= fields.Keys && EncodeFields(schema, fields).Success?
    ensures |EncodeFields(schema, fields).value| == TotalSize(schema)
  {
    if schema != [] {
      assert Names(schema[..|schema| - 1]) <= Names(schema);
      EncodedSize(schema[..|schema| - 1], fields);
    }
  }

  /** The number a valid field is written as. */
  function NumberOf(v: Value): int
    requires v.Text? ==> |v.s| >= 2 && AllHex(v.s[2..])
  {
    if v.Text? then ParseHex(v.s[2..]) else v.n
  }

  /** In an encoded body every field stands at its place, in big-endian notation, behind the three bytes of the frame. */
  lemma EveryFieldInItsPlace(b: Body, k: nat)
    requires ValidBody(b) && k < |SCHEMA|
    ensures Encode(b).Success? && |Encode(b).value| == 443 && Encode(b).value[..3] == [0x50, 0x52, 4]
    ensures SCHEMA[k].name in b.fields && FieldHolds(Encode(b).value, PlaceOf(SCHEMA[k].name), b.fields[SCHEMA[k].name])
  {
    EncodesExactlyValidBodies(b);
    FrameOf(b);
    PlaceIsSize(k);
    FieldStands(SCHEMA, b.fields, k, Encode(b).value, PlaceOf(SCHEMA[k].name));
  }

  lemma PlaceIsSize(k: nat)
    requires k < |SCHEMA|
    ensures PlaceOf(SCHEMA[k].name) == (3 + TotalSize(SCHEMA[..k]), SCHEMA[k].size)
  {
    SchemaPlaces(k);
    SchemaOffsets();
    SizeIsOffset(SCHEMA, OFFSETS, k);
  }

  lemma FrameOf(b: Body)
    requires Encode(b).Success?
    ensures b.fields.Keys == Names(SCHEMA) && EncodeFields(SCHEMA, b.fields).Success?
    ensures Encode(b).value == MAGIC + EncodeFields(SCHEMA, b.fields).value
    ensures |Encode(b).value| == 443 && Encode(b).value[..3] == [0x50, 0x52, 4]
  {
    EncodedSize(SCHEMA, b.fields);
    SchemaLength();
    assert (MAGIC + EncodeFields(SCHEMA, b.fields).value)[..3] == MAGIC;
  }

  lemma FieldStands(schema: seq<Field>, fields: map<Name, Value>, k: nat, bytes: seq<Byte>, place: (nat, nat))
    requires Names(schema) <= fields.Keys && EncodeFields(schema, fields).Success? && k < |schema|
    requires bytes == MAGIC + EncodeFields(schema, fields).value && place == (3 + TotalSize(schema[..k]), schema[k].size)
    ensures schema[k].name in fields && FieldHolds(bytes, place, fields[schema[k].name])
  {
    FieldBytes(schema, fields, k);
    NumberIsParsed(schema[k], fields[schema[k].name]);
    Behind(bytes, EncodeFields(schema, fields).value, TotalSize(schema[..k]), schema[k].size);
  }

  /** The bytes at this place are the notation of the value's number. */
  predicate FieldHolds(bytes: seq<Byte>, place: (nat, nat), v: Value) {
    && place.0 + place.1 <= |bytes|
    && (v.Text? ==> |v.s| >= 2 && AllHex(v.s[2..])) && NumberOf(v) >= 0
    && bytes[place.0..place.0 + place.1] == BigEndian(NumberOf(v), place.1)
  }

  lemma NumberIsParsed(f: Field, v: Value)
    requires FieldValue(f, v).Success?
    ensures (v.Text? ==> |v.s| >= 2 && AllHex(v.s[2..])) && NumberOf(v) == FieldValue(f, v).value
  {
  }

  lemma Behind(bytes: seq<Byte>, fields: seq<Byte>, at: nat, size: nat)
    requires at + size <= |fields| && bytes == MAGIC + fields
    ensures |bytes| == 3 + |fields| && bytes[3 + at..3 + at + size] == fields[at..at + size]
  {
    var part := bytes[3 + at..3 + at + size];
    forall i | 0 <= i < size
      ensures part[i] == fields[at..at + size][i]
    {
      assert bytes[3 + at + i] == fields[at + i];
    }
  }

  /** Addresses and hashes are text, commitments and keys are field elements, everything else is an integer. */
  function KindOf(n: Name): FieldKind {
    if n.Registry? || n.PoolAddress? || n.Master? || n.Receiver? || n.Token? || n.AttemptId? || n.SourceRouteHash?
       || n.RefundWalletCommitment? || n.PayloadHash? then HexKind
    else if n.Commitment? || n.EphemeralX? || n.EphemeralY? || n.Binding? then FieldKind
    else IntegerKind
  }

  lemma SchemaKinds(k: nat)
    requires k < |SCHEMA|
    ensures SCHEMA[k].kind == KindOf(SCHEMA[k].name)
  {
  }

  lemma SchemaPlaces(k: nat)
    requires k < |SCHEMA|
    ensures PlaceOf(SCHEMA[k].name) == (3 + OFFSETS[k], SCHEMA[k].size)
  {
  }

  // -------------------------------------------------------------- letter case

  lemma LowerIsHexToo(s: string, size: nat)
    ensures IsHex(Lower(s), size) <==> IsHex(s, size)
    ensures IsHex(s, size) ==> Lower(s)[2..] == Lower(s[2..]) && ParseHex(Lower(s)[2..]) == ParseHex(s[2..])
  {
    assert forall c :: IsHexDigit(LowerChar(c)) <==> IsHexDigit(c);
    if |s| >= 2 {
      assert Lower(s)[2..] == Lower(s[2..]);
      assert forall i :: 0 <= i < |s| - 2 ==> Lower(s)[2..][i] == LowerChar(s[2..][i]);
      if AllHex(s[2..]) {
        PrintsBack(s[2..]);
      }
    }
  }

  lemma FieldIgnoresCase(f: Field, v: Value)
    ensures FieldValue(f, LowerValue(v)) == FieldValue(f, v)
  {
    if v.Text? {
      LowerIsHexToo(v.s, f.size);
    }
  }

  function LowerFields(fields: map<Name, Value>): map<Name, Value> {
    map n | n in fields :: LowerValue(fields[n])
  }

  function LowerBody(b: Body): Body {
    b.(fields := LowerFields(b.fields))
  }

  lemma {:induction false} FieldsIgnoreCase(schema: seq<Field>, fields: map<Name, Value>)
    requires Names(schema) <= fields.Keys
    ensures EncodeFields(schema, LowerFields(fields)) == EncodeFields(schema, fields)
  {
    if schema != [] {
      var init, f := schema[..|schema| - 1], schema[|schema| - 1];
      assert f.name in Names(schema) && Names(init) <= Names(schema);
      FieldsIgnoreCase(init, fields);
      FieldIgnoresCase(f, fields[f.name]);
    }
  }

  /** The case of hexadecimal digits changes neither the outcome nor the bytes. */
  lemma EncodeIgnoresCase(b: Body)
    ensures Encode(LowerBody(b)) == Encode(b)
  {
    assert LowerFields(b.fields).Keys == b.fields.Keys;
    if b.fields.Keys == Names(SCHEMA) {
      FieldsIgnoreCase(SCHEMA, b.fields);
    }
  }

  // --------------------------------------------------------------- round trips

  predicate WellSized(f: Field) {
    f.size > 0 && (f.kind == FieldKind ==> f.size == 32)
  }

  lemma PrimeFits()
    ensures FIELD_PRIME < Pow(256, 32)
  {
    assert Pow(256, 4) == 0x1_0000_0000;
    assert Pow(256, 8) == 0x1_0000_0000_0000_0000;
    assert Pow(256, 12) == 0x1_0000_0000_0000_0000_0000_0000;
    assert Pow(256, 16) == 0x1_0000_0000_0000_0000_0000_0000_0000_0000;
    PowAdds(256, 16, 16);
  }

  lemma {:induction false} PowAdds(base: nat, m: nat, n: nat)
    ensures Pow(base, m + n) == Pow(base, m) * Pow(base, n)
  {
    if m > 0 {
      PowAdds(base, m - 1, n);
      Regroup(base, Pow(base, m - 1), Pow(base, n));
    }
  }

  lemma Regroup(a: nat, b: nat, c: nat)
    ensures a * (b * c) == (a * b) * c
  {
  }

  lemma FieldFits(f: Field, v: Value)
    requires WellSized(f) && FieldValue(f, v).Success?
    ensures FieldValue(f, v).value < Pow(256, f.size)
  {
    PrimeFits();
  }

  lemma LowerPrefix(s: string)
    requires |s| >= 2 && s[0] == '0' && s[1] == 'x'
    ensures Lower(s) == "0x" + Lower(s[2..])
  {
    var tail := s[2..];
    forall i | 0 <= i < |tail|
      ensures Lower(s)[i + 2] == Lower(tail)[i]
    {
      assert tail[i] == s[i + 2];
    }
    SameText(Lower(s), Lower(tail));
  }

  lemma SameText(whole: string, tail: string)
    requires |whole| == |tail| + 2 && whole[0] == '0' && whole[1] == 'x'
    requires forall i :: 0 <= i < |tail| ==> whole[i + 2] == tail[i]
    ensures whole == "0x" + tail
  {
  }

  lemma HexReadsBack(s: string, size: nat)
    requires size > 0 && IsHex(s, size)
    ensures "0x" + PadStart(HexString(ParseHex(s[2..])), 2 * size) == Lower(s)
  {
    var digits := s[2..];
    PrintsBack(digits);
    assert PadStart(HexString(ParseHex(digits)), 2 * size) == Lower(digits) by {
      PaddedIsFixed(ParseHex(digits), |digits|);
    }
    LowerPrefix(s);
  }

  /** Reading back what was written gives the value in lower case. */
  lemma FieldReadsBack(f: Field, v: Value)
    requires WellSized(f) && FieldValue(f, v).Success?
    ensures FieldRead(f, BigEndian(FieldValue(f, v).value, f.size)) == LowerValue(v)
  {
    FieldFits(f, v);
    ReadsBack(FieldValue(f, v).value, f.size);
    if f.kind == HexKind {
      HexReadsBack(v.s, f.size);
    }
  }

  /** Writing what was read, if it is accepted, gives the bytes. */
  lemma FieldWritesBack(f: Field, bytes: seq<Byte>)
    requires WellSized(f) && |bytes| == f.size && FieldValue(f, FieldRead(f, bytes)).Success?
    ensures BigEndian(FieldValue(f, FieldRead(f, bytes)).value, f.size) == bytes
  {
    WritesBack(bytes);
    if f.kind == HexKind {
      TwoDigitsPerByte(f.size);
      PaddedIsFixed(FromBytes(bytes), 2 * f.size);
      ParsesBack(FromBytes(bytes), 2 * f.size);
      assert ("0x" + FixedHex(FromBytes(bytes), 2 * f.size))[2..] == FixedHex(FromBytes(bytes), 2 * f.size);
    }
  }

  lemma NamesSnoc(init: seq<Field>, f: Field)
    ensures Names(init + [f]) == Names(init) + {f.name}
  {
    var all := init + [f];
    forall n
      ensures n in Names(all) <==> n in Names(init) || n == f.name
    {
      if n in Names(init) {
        var k :| 0 <= k < |init| && init[k].name == n;
        assert all[k].name == n;
      }
      assert all[|init|].name == f.name;
    }
  }

  lemma DecodeSnoc(init: seq<Field>, f: Field, before: seq<Byte>, last: seq<Byte>)
    requires |before| == TotalSize(init) && |last| == f.size
    ensures |before + last| == TotalSize(init + [f])
    ensures DecodeFields(init + [f], before + last) == DecodeFields(init, before)[f.name := FieldRead(f, last)]
  {
  }

  lemma EncodeSnoc(init: seq<Field>, f: Field, fields: map<Name, Value>)
    requires Names(init + [f]) <= fields.Keys && EncodeFields(init + [f], fields).Success?
    ensures Names(init) <= fields.Keys && f.name in fields
    ensures EncodeFields(init, fields).Success? && FieldValue(f, fields[f.name]).Success?
    ensures EncodeFields(init + [f], fields).value == EncodeFields(init, fields).value + BigEndian(FieldValue(f, fields[f.name]).value, f.size)
  {
  }

  function LowerOf(names: set<Name>, fields: map<Name, Value>): map<Name, Value>
    requires names <= fields.Keys
  {
    map n | n in names :: LowerValue(fields[n])
  }

  lemma FieldsReadBackSnoc(init: seq<Field>, f: Field, fields: map<Name, Value>)
    requires Names(init + [f]) <= fields.Keys && EncodeFields(init + [f], fields).Success? && WellSized(f)
    requires Names(init) <= fields.Keys && EncodeFields(init, fields).Success?
    requires |EncodeFields(init, fields).value| == TotalSize(init)
    requires DecodeFields(init, EncodeFields(init, fields).value) == LowerOf(Names(init), fields)
    ensures |EncodeFields(init + [f], fields).value| == TotalSize(init + [f])
    ensures DecodeFields(init + [f], EncodeFields(init + [f], fields).value) == LowerOf(Names(init + [f]), fields)
  {
    NamesSnoc(init, f);
    EncodeSnoc(init, f, fields);
    var before, last := EncodeFields(init, fields).value, BigEndian(FieldValue(f, fields[f.name]).value, f.size);
    FieldReadsBack(f, fields[f.name]);
    DecodeSnoc(init, f, before, last);
    LowerSnoc(Names(init), f.name, fields);
  }

  lemma LowerSnoc(names: set<Name>, n: Name, fields: map<Name, Value>)
    requires names <= fields.Keys && n in fields
    ensures LowerOf(names, fields)[n := LowerValue(fields[n])] == LowerOf(names + {n}, fields)
  {
  }

  lemma {:induction false} FieldsReadBack(schema: seq<Field>, fields: map<Name, Value>)
    requires Names(schema) <= fields.Keys && EncodeFields(schema, fields).Success?
    requires forall k :: 0 <= k < |schema| ==> WellSized(schema[k])
    ensures |EncodeFields(schema, fields).value| == TotalSize(schema)
    ensures DecodeFields(schema, EncodeFields(schema, fields).value) == LowerOf(Names(schema), fields)
  {
    if schema != [] {
      var init, f := schema[..|schema| - 1], schema[|schema| - 1];
      assert schema == init + [f];
      EncodeSnoc(init, f, fields);
      FieldsReadBack(init, fields);
      FieldsReadBackSnoc(init, f, fields);
    }
  }

  /** The position of a name in the schema. */
  function Position(n: Name): nat {
    match n
    case ChainId => 0 case SourceChainId => 1 case SettlementDomain => 2 case Registry => 3 case PoolAddress => 4
    case Master => 5 case Receiver => 6 case Token => 7 case AssetId => 8 case AttemptId => 9
    case SourceRouteHash => 10 case RefundWalletCommitment => 11 case Commitment => 12 case EphemeralX => 13
    case EphemeralY => 14 case Binding => 15 case Principal => 16 case ExpectedAmount => 17
    case MaxFinalizerFee => 18 case ExpiresAt => 19 case PayloadHash => 20 case Unknown(_) => 21
  }

  predicate Distinct(schema: seq<Field>) {
    forall i, j :: 0 <= i < |schema| && 0 <= j < |schema| && schema[i].name == schema[j].name ==> i == j
  }

  lemma SchemaPositions()
    ensures forall k :: 0 <= k < |SCHEMA| ==> Position(SCHEMA[k].name) == k
  {
  }

  lemma SchemaName(n: Name)
    requires !n.Unknown?
    ensures Position(n) < |SCHEMA| && SCHEMA[Position(n)].name == n
  {
  }

  lemma SchemaSizes()
    ensures forall k :: 0 <= k < |SCHEMA| ==> WellSized(SCHEMA[k])
  {
  }

  /** The schema names every field of a body once. */
  lemma SchemaIsGood()
    ensures Distinct(SCHEMA)
    ensures forall k :: 0 <= k < |SCHEMA| ==> WellSized(SCHEMA[k])
    ensures forall n: Name :: n in Names(SCHEMA) <==> !n.Unknown?
  {
    SchemaPositions();
    forall n: Name | !n.Unknown?
      ensures Position(n) < |SCHEMA| && SCHEMA[Position(n)].name == n
    {
      SchemaName(n);
    }
    SchemaSizes();
    NamesByPosition(SCHEMA);
  }

  lemma NamesByPosition(schema: seq<Field>)
    requires |schema| == 21
    requires forall k :: 0 <= k < |schema| ==> Position(schema[k].name) == k
    requires forall n: Name :: !n.Unknown? ==> Position(n) < |schema| && schema[Position(n)].name == n
    ensures Distinct(schema)
    ensures forall n: Name :: n in Names(schema) <==> !n.Unknown?
  {
  }

  lemma {:induction false} DecodedNames(schema: seq<Field>, bytes: seq<Byte>)
    requires |bytes| == TotalSize(schema)
    ensures DecodeFields(schema, bytes).Keys == Names(schema)
  {
    if schema != [] {
      var init, f := schema[..|schema| - 1], schema[|schema| - 1];
      DecodedNames(init, bytes[..|bytes| - f.size]);
      assert forall n :: n in Names(schema) <==> n in Names(init) || n == f.name by {
        assert forall k :: 0 <= k < |init| ==> init[k] == schema[k];
      }
    }
  }

  /** The fields agree with what the bytes decode to. */
  ghost predicate Agree(schema: seq<Field>, bytes: seq<Byte>, fields: map<Name, Value>)
    requires |bytes| == TotalSize(schema)
  {
    forall n :: n in DecodeFields(schema, bytes) ==> n in fields && fields[n] == DecodeFields(schema, bytes)[n]
  }

  lemma AgreeSnoc(init: seq<Field>, f: Field, before: seq<Byte>, last: seq<Byte>, fields: map<Name, Value>)
    requires |before| == TotalSize(init) && |last| == f.size && f.name !in Names(init)
    requires |before + last| == TotalSize(init + [f]) && Agree(init + [f], before + last, fields)
    ensures Agree(init, before, fields) && f.name in fields && fields[f.name] == FieldRead(f, last)
  {
    DecodeSnoc(init, f, before, last);
    DecodedNames(init, before);
  }

  lemma DistinctSnoc(init: seq<Field>, f: Field)
    requires Distinct(init + [f])
    ensures Distinct(init) && f.name !in Names(init)
  {
    var all := init + [f];
    assert forall k :: 0 <= k < |init| ==> all[k] == init[k];
    assert all[|init|] == f;
  }

  lemma {:induction false} FieldsWriteBack(schema: seq<Field>, bytes: seq<Byte>, fields: map<Name, Value>)
    requires |bytes| == TotalSize(schema) && Distinct(schema) && Agree(schema, bytes, fields)
    requires forall k :: 0 <= k < |schema| ==> WellSized(schema[k])
    requires Names(schema) <= fields.Keys && EncodeFields(schema, fields).Success?
    ensures EncodeFields(schema, fields).value == bytes
  {
    if schema != [] {
      var init, f := schema[..|schema| - 1], schema[|schema| - 1];
      var before, last := bytes[..|bytes| - f.size], bytes[|bytes| - f.size..];
      assert schema == init + [f] && bytes == before + last;
      DistinctSnoc(init, f);
      AgreeSnoc(init, f, before, last, fields);
      EncodeSnoc(init, f, fields);
      FieldsWriteBack(init, before, fields);
      LastWritesBack(init, f, before, last, fields);
    }
  }

  lemma LastWritesBack(init: seq<Field>, f: Field, before: seq<Byte>, last: seq<Byte>, fields: map<Name, Value>)
    requires WellSized(f) && |last| == f.size && Names(init + [f]) <= fields.Keys && EncodeFields(init + [f], fields).Success?
    requires Names(init) <= fields.Keys && EncodeFields(init, fields) == Success(before)
    requires f.name in fields && fields[f.name] == FieldRead(f, last)
    ensures EncodeFields(init + [f], fields) == Success(before + last)
  {
    EncodeSnoc(init, f, fields);
    FieldWritesBack(f, last);
  }

  lemma Framed(fields: seq<Byte>)
    ensures |MAGIC + fields| == 3 + |fields| && (MAGIC + fields)[..3] == MAGIC && (MAGIC + fields)[3..] == fields
  {
  }

  lemma LowerOfAll(fields: map<Name, Value>)
    ensures LowerOf(fields.Keys, fields) == LowerFields(fields)
  {
  }

  /** Decoding what was encoded gives the body back, with its hexadecimal in lower case. */
  lemma DecodeInvertsEncode(b: Body)
    requires Encode(b).Success?
    ensures Decode(Encode(b).value) == Success(LowerBody(b))
  {
    SchemaLength();
    SchemaIsGood();
    FieldsReadBack(SCHEMA, b.fields);
    Framed(EncodeFields(SCHEMA, b.fields).value);
    LowerOfAll(b.fields);
    EncodeIgnoresCase(b);
  }

  /** Encoding what was decoded gives the very bytes. */
  lemma EncodeInvertsDecode(x: seq<Byte>)
    requires Decode(x).Success?
    ensures Encode(Decode(x).value) == Success(x)
  {
    SchemaLength();
    SchemaIsGood();
    var fields := DecodeFields(SCHEMA, x[3..]);
    DecodedNames(SCHEMA, x[3..]);
    FieldsWriteBack(SCHEMA, x[3..], fields);
    assert x == x[..3] + x[3..];
  }

  /** The accepted byte strings are exactly the encodings, so no body has two. */
  lemma DecodesExactlyEncodings(x: seq<Byte>)
    ensures Decode(x).Success? <==> exists b :: Encode(b) == Success(x)
  {
    if Decode(x).Success? {
      EncodeInvertsDecode(x);
      assert Encode(Decode(x).value) == Success(x);
    }
    if b :| Encode(b) == Success(x) {
      DecodeInvertsEncode(b);
    }
  }

  /** Two bodies have the same encoding exactly when they differ at most in the case of hexadecimal digits. */
  lemma EncodesAlikeExactlyUpToCase(a: Body, b: Body)
    requires Encode(a).Success?
    ensures Encode(a) == Encode(b) <==> LowerBody(a) == LowerBody(b)
  {
    EncodeIgnoresCase(a);
    EncodeIgnoresCase(b);
    DecodeInvertsEncode(a);
    if Encode(b).Success? {
      DecodeInvertsEncode(b);
    }
  }

  /** A decoded body is valid, and already in lower case. */
  lemma DecodedIsValid(x: seq<Byte>)
    requires Decode(x).Success?
    ensures ValidBody(Decode(x).value) && LowerBody(Decode(x).value) == Decode(x).value
  {
    EncodeInvertsDecode(x);
    EncodesExactlyValidBodies(Decode(x).value);
    DecodeInvertsEncode(Decode(x).value);
  }
}
