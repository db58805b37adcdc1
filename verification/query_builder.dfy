/**
 * The descriptor query builder (DescriptorQueryBuilder.java): fluent setters over the query's
 * settings and their serialisation, which the parser reads back.
 */
module QueryBuilder {
  import opened Wrappers
  import opened XContent
  import opened QueryParser

  /** The boost a builder starts with, meaning "not set": it is then not written. */
  const UnsetBoost: real := -1.0

  /** All settings of a builder. */
  datatype BuilderState = BuilderState(
    fieldName: string,
    boost: real,
    hash: Option<string>,
    descriptor: Option<seq<real>>,
    lookupIndex: Option<string>,
    lookupType: Option<string>,
    lookupField: Option<string>,
    lookupId: Option<string>,
    lookupRouting: Option<string>)

  /** A string field written only when its value is set. */
  function OptionalField(key: string, value: Option<string>): (ts: seq<Token>)
    ensures |ts| == (if value.Some? then 2 else 0)
  {
    if value.Some? then [FieldName(key), Str(value.value)] else []
  }

  /** The boost field, written only when the boost is not the unset value. */
  function BoostPart(boost: real): (ts: seq<Token>)
    ensures |ts| == (if boost != UnsetBoost then 2 else 0)
  {
    if boost != UnsetBoost then [FieldName("boost"), Num(boost)] else []
  }

  /** The lookup fields, each only when set, in the order index, type, field, id, routing. */
  function Lookups(s: BuilderState): (ts: seq<Token>)
    ensures |ts| == 0 <==> s.lookupIndex.None? && s.lookupType.None? && s.lookupField.None? && s.lookupId.None? && s.lookupRouting.None?
    ensures |ts| > 0 ==> |ts| >= 2 && ts[0].FieldName? && ts[0].name in {"index", "type", "field", "id", "routing"} && ts[1].Str?
  {
    OptionalField("index", s.lookupIndex) + OptionalField("type", s.lookupType)
    + OptionalField("field", s.lookupField) + OptionalField("id", s.lookupId)
    + OptionalField("routing", s.lookupRouting)
  }

  /** The hash, always, then the descriptor, always; a null value is written as null. */
  function HashAndDescriptor(s: BuilderState): (hd: seq<Token>)
    ensures |hd| == (if s.descriptor.Some? then 5 + |s.descriptor.value| else 4)
    ensures hd[0] == FieldName("hash") && hd[2] == FieldName("descriptor")
    ensures hd[3] == (if s.descriptor.Some? then StartArray else Null)
  {
    [FieldName("hash"), if s.hash.Some? then Str(s.hash.value) else Null, FieldName("descriptor")]
    + (if s.descriptor.Some? then [StartArray] + NumTokens(s.descriptor.value) + [EndArray] else [Null])
  }

  /** What doXContent writes for a builder: the query name's object around the field's
      object, which holds the hash, the descriptor, then the optional fields. */
  function Serialize(s: BuilderState): (t: seq<Token>)
    ensures |t| >= 10
    ensures t[..4] == [FieldName(Name), StartObject, FieldName(s.fieldName), StartObject]
    ensures t[|t| - 2..] == [EndObject, EndObject]
  {
    [FieldName(Name), StartObject, FieldName(s.fieldName), StartObject] + HashAndDescriptor(s) + OptionalTail(s)
  }

  /** The optional fields, then the closing of both objects. */
  function OptionalTail(s: BuilderState): (t: seq<Token>)
    ensures |t| == |BoostPart(s.boost)| + |Lookups(s)| + 2
    ensures t[|t| - 2..] == [EndObject, EndObject]
    ensures s.boost != UnsetBoost ==> t[..2] == [FieldName("boost"), Num(s.boost)]
  {
    BoostPart(s.boost) + Lookups(s) + [EndObject, EndObject]
  }

  /** What parsing a builder's output yields: a null hash or descriptor fails on its value,
      then a set lookup field fails naming the first one written, then an unknown hash name
      fails for want of a hash; otherwise the settings come back, an unset boost as 1. */
  function ExpectedParse(s: BuilderState, ext: Externals): (r: Result<ParsedQuery, ParseError>)
    ensures r.Ok? <==> s.hash.Some? && s.descriptor.Some? && |Lookups(s)| == 0 && ext.hashByName(s.hash.value).Some?
    ensures r.Ok? ==>
      && r.value.fieldName == s.fieldName && r.value.hash == ext.hashByName(s.hash.value).value
      && r.value.descriptor == s.descriptor && r.value.boost == (if s.boost == UnsetBoost then 1.0 else s.boost)
    ensures s.hash.Some? && s.descriptor.Some? && |Lookups(s)| > 0 ==> r == Err(Unsupported(Some(Lookups(s)[0].name)))
  {
    if s.hash.None? then Err(NotAScalar)
    else if s.descriptor.None? then Err(NotAnArray)
    else if |Lookups(s)| > 0 then Err(Unsupported(Some(Lookups(s)[0].name)))
    else
      match ext.hashByName(s.hash.value)
      case None => Err(NoHashFound)
      case Some(h) => Ok(ParsedQuery(s.fieldName, h, s.descriptor, if s.boost == UnsetBoost then 1.0 else s.boost))
  }

  /** The optional fields after the descriptor, up to the closing token of the field's object. */
  lemma OptionalTailParse(t: seq<Token>, p: nat, current: Option<string>, fields: Fields, s: BuilderState, ext: Externals)
    requires p <= |t| && t[p..] == OptionalTail(s)
    ensures ReadObject(t, p, current, fields, ext)
      == if |Lookups(s)| > 0 then Err(Unsupported(Some(Lookups(s)[0].name)))
         else Ok((if s.boost == UnsetBoost then fields else fields.(boost := s.boost), p + |BoostPart(s.boost)| + 1))
  {
    var b := |BoostPart(s.boost)|;
    var l := Lookups(s);
    assert forall k | 0 <= k < |l| :: t[p + b + k] == l[k];
    assert t[p + b + |l|] == EndObject;
    var f := if s.boost == UnsetBoost then fields else fields.(boost := s.boost);
    var c := if s.boost == UnsetBoost then current else Some("boost");
    if s.boost != UnsetBoost {
      assert t[p] == FieldName("boost") && t[p + 1] == Num(s.boost);
      assert ReadObject(t, p, current, fields, ext) == ReadObject(t, p + 1, Some("boost"), fields, ext);
      assert ReadObject(t, p, current, fields, ext) == ReadObject(t, p + 2, c, f, ext);
    }
    assert ReadObject(t, p, current, fields, ext) == ReadObject(t, p + b, c, f, ext);
    if |l| > 0 {
      var key := l[0].name;
      assert t[p + b] == FieldName(key) && t[p + b + 1] == l[1];
      UnsupportedKeyRejected(t, p + b, c, f, key, ext);
    }
  }

  /** The first tokens of a builder's output, past the query name and its opening. */
  lemma SerializedHead(s: BuilderState)
    ensures var t := Serialize(s)[2..];
      && |t| >= 7
      && t[0] == FieldName(s.fieldName) && t[1] == StartObject
      && t[2] == FieldName("hash") && t[3] == (if s.hash.Some? then Str(s.hash.value) else Null)
      && t[4] == FieldName("descriptor")
      && t[5] == (if s.descriptor.Some? then StartArray else Null)
  {
    var t := Serialize(s)[2..];
    var hd := HashAndDescriptor(s);
    assert t == [FieldName(s.fieldName), StartObject] + hd + OptionalTail(s);
  }

  /** The tokens of a field object up to the end of its descriptor array. */
  function ArrayHead(f: string, hashValue: Token, d: seq<real>): (head: seq<Token>)
    ensures |head| == 7 + |d|
    ensures forall k | 0 <= k < |d| :: head[6 + k] == Num(d[k])
    ensures head[6 + |d|] == EndArray
  {
    [FieldName(f), StartObject, FieldName("hash"), hashValue, FieldName("descriptor"), StartArray]
    + NumTokens(d) + [EndArray]
  }

  /** Positions within a field object whose descriptor is an array. A step for the solver
      only: it regroups the concatenation that Serialize builds. */
  lemma ArrayLayout(f: string, hashValue: Token, d: seq<real>, tail: seq<Token>)
    ensures var t := [FieldName(f), StartObject] + ([FieldName("hash"), hashValue, FieldName("descriptor")]
        + ([StartArray] + NumTokens(d) + [EndArray])) + tail;
      t == ArrayHead(f, hashValue, d) + tail
  {
  }

  /** A sequence continues past its head with its tail. A step for the solver only. */
  lemma HeadThenTail(head: seq<Token>, tail: seq<Token>)
    ensures forall k | 0 <= k < |head| :: (head + tail)[k] == head[k]
    ensures (head + tail)[|head|..] == tail
  {
  }

  /** A set descriptor's array, then the optional fields. */
  lemma SerializedArray(s: BuilderState)
    requires s.descriptor.Some?
    ensures var t := Serialize(s)[2..]; var d := s.descriptor.value;
      && |t| >= 7 + |d|
      && (forall k | 0 <= k < |d| :: t[6 + k] == Num(d[k]))
      && t[6 + |d|] == EndArray
      && t[7 + |d|..] == OptionalTail(s)
  {
    var hd := HashAndDescriptor(s);
    assert Serialize(s)[2..] == [FieldName(s.fieldName), StartObject] + hd + OptionalTail(s);
    ArrayLayout(s.fieldName, hd[1], s.descriptor.value, OptionalTail(s));
    HeadThenTail(ArrayHead(s.fieldName, hd[1], s.descriptor.value), OptionalTail(s));
  }

  /** The descriptor's array: its numbers become the descriptor, in order. */
  lemma DescriptorArrayParse(t: seq<Token>, f: Fields, d: seq<real>, ext: Externals)
    requires |t| >= 7 + |d|
    requires t[5] == StartArray && t[6 + |d|] == EndArray
    requires forall k | 0 <= k < |d| :: t[6 + k] == Num(d[k])
    ensures ReadObject(t, 5, Some("descriptor"), f, ext) == ReadObject(t, 7 + |d|, Some("descriptor"), f.(descriptor := Some(d)), ext)
  {
    ReadArrayOfNumbers(t, 6, [], d, ext);
    assert [] + d == d;
  }

  /** A hash value names the hash family, then the descriptor key follows. */
  lemma HashValueParse(t: seq<Token>, hash: string, ext: Externals)
    requires |t| >= 6 && t[3] == Str(hash) && t[4] == FieldName("descriptor")
    ensures ReadObject(t, 3, Some("hash"), Defaults, ext)
      == ReadObject(t, 5, Some("descriptor"), Defaults.(hash := ext.hashByName(hash)), ext)
  {
    var f1 := Defaults.(hash := ext.hashByName(hash));
    assert ScalarText(t[3], ext) == Ok(hash);
    assert ReadObject(t, 3, Some("hash"), Defaults, ext) == ReadObject(t, 4, Some("hash"), f1, ext);
  }

  /** The parser on any tokens laid out as a builder's output past the query's opening. */
  lemma ParseOfLayout(t: seq<Token>, s: BuilderState, ext: Externals)
    requires |t| >= 7
    requires t[0] == FieldName(s.fieldName) && t[1] == StartObject
    requires t[2] == FieldName("hash") && t[3] == (if s.hash.Some? then Str(s.hash.value) else Null)
    requires t[4] == FieldName("descriptor") && t[5] == (if s.descriptor.Some? then StartArray else Null)
    requires s.descriptor.Some? ==>
      var d := s.descriptor.value;
      && |t| >= 7 + |d|
      && (forall k | 0 <= k < |d| :: t[6 + k] == Num(d[k]))
      && t[6 + |d|] == EndArray
      && t[7 + |d|..] == OptionalTail(s)
    ensures ReadQuery(t, ext) == ExpectedParse(s, ext)
  {
    assert ReadObject(t, 2, None, Defaults, ext) == ReadObject(t, 3, Some("hash"), Defaults, ext);
    if s.hash.Some? {
      var f1 := Defaults.(hash := ext.hashByName(s.hash.value));
      HashValueParse(t, s.hash.value, ext);
      if s.descriptor.Some? {
        var d := s.descriptor.value;
        DescriptorArrayParse(t, f1, d, ext);
        OptionalTailParse(t, 7 + |d|, Some("descriptor"), f1.(descriptor := Some(d)), s, ext);
      }
    }
  }

  /** Round trip: the builder's output opens the query's object, and the parser reads back
      from it exactly what ExpectedParse says. */
  lemma ParseOfSerialize(s: BuilderState, ext: Externals)
    ensures Serialize(s)[..2] == [FieldName(Name), StartObject]
    ensures ReadQuery(Serialize(s)[2..], ext) == ExpectedParse(s, ext)
  {
    SerializedHead(s);
    if s.descriptor.Some? {
      SerializedArray(s);
    }
    ParseOfLayout(Serialize(s)[2..], s, ext);
  }

  /** Writes the boost only when it is not the unset value. */
  method WriteBoostIfSet(out: XContentBuilder, boost: real)
    modifies out
    ensures out.tokens == old(out.tokens) + BoostPart(boost)
  {
    if boost != UnsetBoost {
      out.NumberField("boost", boost);
    }
  }

  /** Writes a string field only when its value is not null. */
  method WriteIfSet(out: XContentBuilder, key: string, value: Option<string>)
    modifies out
    ensures out.tokens == old(out.tokens) + OptionalField(key, value)
  {
    if value.Some? {
      out.StringField(key, value);
    }
  }

  /** Opens the query's and the field's objects, then writes the hash and the descriptor. */
  method WriteHead(out: XContentBuilder, s: BuilderState)
    modifies out
    ensures out.tokens == old(out.tokens) + ([FieldName(Name), StartObject, FieldName(s.fieldName), StartObject] + HashAndDescriptor(s))
  {
    out.StartNamedObject(Name);
    out.StartNamedObject(s.fieldName);
    out.StringField("hash", s.hash);
    out.ArrayField("descriptor", s.descriptor);
  }

  /** Writes the lookup fields that are set, in order. */
  method WriteLookups(out: XContentBuilder, s: BuilderState)
    modifies out
    ensures out.tokens == old(out.tokens) + Lookups(s)
  {
    ghost var before := out.tokens;
    WriteIfSet(out, "index", s.lookupIndex);
    WriteIfSet(out, "type", s.lookupType);
    WriteIfSet(out, "field", s.lookupField);
    WriteIfSet(out, "id", s.lookupId);
    WriteIfSet(out, "routing", s.lookupRouting);
    AppendAfterPrefix(before, OptionalField("index", s.lookupIndex), OptionalField("type", s.lookupType),
      OptionalField("field", s.lookupField), OptionalField("id", s.lookupId), OptionalField("routing", s.lookupRouting));
  }

  /** Writes the optional fields and closes both objects. */
  method WriteTail(out: XContentBuilder, s: BuilderState)
    modifies out
    ensures out.tokens == old(out.tokens) + OptionalTail(s)
  {
    ghost var before := out.tokens;
    WriteBoostIfSet(out, s.boost);
    WriteLookups(out, s);
    out.EndNamedObject();
    out.EndNamedObject();
    assert out.tokens == before + BoostPart(s.boost) + Lookups(s) + [EndObject] + [EndObject];
    AppendThree(before, BoostPart(s.boost), Lookups(s), [EndObject, EndObject]);
  }

  /** Appending five pieces one after another appends their concatenation. A step for the
      solver only: it models nothing of the builder. */
  lemma AppendAfterPrefix<T>(p: seq<T>, a: seq<T>, b: seq<T>, c: seq<T>, d: seq<T>, e: seq<T>)
    ensures p + a + b + c + d + e == p + (a + b + c + d + e)
  {
  }

  /** Appending two pieces one after another appends their concatenation. A step for the
      solver only. */
  lemma AppendTwo<T>(p: seq<T>, a: seq<T>, b: seq<T>)
    ensures p + a + b == p + (a + b)
  {
  }

  /** Appending three pieces one after another appends their concatenation. A step for the
      solver only. */
  lemma AppendThree<T>(p: seq<T>, a: seq<T>, b: seq<T>, c: seq<T>)
    ensures p + a + b + c == p + (a + b + c)
  {
  }

  class DescriptorQueryBuilder {
    const fieldName: string
    var boost: real
    var hash: Option<string>
    var descriptor: Option<seq<real>>
    var lookupIndex: Option<string>
    var lookupType: Option<string>
    var lookupField: Option<string>
    var lookupId: Option<string>
    var lookupRouting: Option<string>

    function State(): BuilderState
      reads this
    {
      BuilderState(fieldName, boost, hash, descriptor, lookupIndex, lookupType, lookupField, lookupId, lookupRouting)
    }

    /** A new builder for a field: boost unset, every other setting null. */
    constructor(fieldName: string)
      ensures State() == BuilderState(fieldName, UnsetBoost, None, None, None, None, None, None, None)
    {
      this.fieldName := fieldName;
      boost := UnsetBoost;
      hash := None;
      descriptor := None;
      lookupIndex := None;
      lookupType := None;
      lookupField := None;
      lookupId := None;
      lookupRouting := None;
    }

    method Boost(boost: real) returns (self: DescriptorQueryBuilder)
      modifies this
      ensures self == this && State() == old(State()).(boost := boost)
    {
      this.boost := boost;
      self := this;
    }

    method Hash(hash: Option<string>) returns (self: DescriptorQueryBuilder)
      modifies this
      ensures self == this && State() == old(State()).(hash := hash)
    {
      this.hash := hash;
      self := this;
    }

    method Descriptor(descriptor: Option<seq<real>>) returns (self: DescriptorQueryBuilder)
      modifies this
      ensures self == this && State() == old(State()).(descriptor := descriptor)
    {
      this.descriptor := descriptor;
      self := this;
    }

    method LookupIndex(lookupIndex: Option<string>) returns (self: DescriptorQueryBuilder)
      modifies this
      ensures self == this && State() == old(State()).(lookupIndex := lookupIndex)
    {
      this.lookupIndex := lookupIndex;
      self := this;
    }

    method LookupField(lookupField: Option<string>) returns (self: DescriptorQueryBuilder)
      modifies this
      ensures self == this && State() == old(State()).(lookupField := lookupField)
    {
      this.lookupField := lookupField;
      self := this;
    }

    method LookupType(lookupType: Option<string>) returns (self: DescriptorQueryBuilder)
      modifies this
      ensures self == this && State() == old(State()).(lookupType := lookupType)
    {
      this.lookupType := lookupType;
      self := this;
    }

    method LookupId(lookupId: Option<string>) returns (self: DescriptorQueryBuilder)
      modifies this
      ensures self == this && State() == old(State()).(lookupId := lookupId)
    {
      this.lookupId := lookupId;
      self := this;
    }

    method LookupRouting(lookupRouting: Option<string>) returns (self: DescriptorQueryBuilder)
      modifies this
      ensures self == this && State() == old(State()).(lookupRouting := lookupRouting)
    {
      this.lookupRouting := lookupRouting;
      self := this;
    }

    /** doXContent: writes the builder's settings to the output, key after key. */
    method DoXContent(out: XContentBuilder)
      modifies out
      ensures out.tokens == old(out.tokens) + Serialize(State())
    {
      ghost var before := out.tokens;
      var s := State();
      ghost var head := [FieldName(Name), StartObject, FieldName(s.fieldName), StartObject] + HashAndDescriptor(s);
      WriteHead(out, s);
      WriteTail(out, s);
      AppendTwo(before, head, OptionalTail(s));
    }
  }
}
