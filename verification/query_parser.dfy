/**
 * The descriptor query parser (DescriptorQueryParser.java): reads
 * `{fieldName: {descriptor: [...], hash: ..., boost: ...}}` from a token stream and builds the
 * disjunction of one hash clause per generated hash code, all sharing one fresh score cache.
 */
module QueryParser {
  import opened Wrappers
  import opened Text
  import opened XContent
  import opened ScoreCache
  import opened HashQuery

  /** The query's registered name. */
  const Name := "descriptor"

  /** The hash field's suffix within a descriptor field. */
  const HashSuffix := "hash"

  /** The hash families a query may name. */
  datatype HashEnum = BitSampling | Lsh

  /** The library calls the parser makes, as functions of their inputs: the lookup of a hash
      family by name, the text of a numeric token, the number a string token reads as (None
      when it reads as none), and the two hash generators. */
  datatype Externals = Externals(
    hashByName: string -> Option<HashEnum>,
    numberText: real -> string,
    parseNumber: string -> Option<real>,
    bitSampling: seq<real> -> seq<int>,
    lsh: seq<real> -> seq<int>)

  datatype ParseError =
    | NoField                      // the first token is not a field name
    | Unsupported(key: Option<string>) // a value under a key other than descriptor, hash, boost
    | NoHashFound                  // no hash family was set
    | NotAnArray                   // the descriptor value does not open an array
    | NotANumber                   // a descriptor element or the boost is not numeric
    | NotAScalar                   // the hash value is not a string or a number
    | UnexpectedEnd                // the tokens end inside the query object or an array
    | MissingDescriptor            // a hash family but no descriptor to hash

  /** The message of each error. The first three are the texts the parser raises itself. The
      other five stand for failures that the token reader, the hash-family lookup or the hasher
      raise with their own messages; the texts given here are placeholders, not theirs. */
  function Message(e: ParseError): (m: string)
    ensures e.NoField? ==> m == "[descriptor] query malformed, no field"
    ensures e.NoHashFound? ==> m == "No hash found"
    ensures e.Unsupported? ==> m == "[descriptor] query does not support [" + (if e.key.Some? then e.key.value else "null") + "]"
  {
    match e
    case NoField => "[descriptor] query malformed, no field"
    case Unsupported(key) => "[descriptor] query does not support [" + (if key.Some? then key.value else "null") + "]"
    case NoHashFound => "No hash found"
    case NotAnArray => "descriptor is not an array"
    case NotANumber => "value is not a number"
    case NotAScalar => "value is not a string"
    case UnexpectedEnd => "unexpected end of input"
    case MissingDescriptor => "no descriptor to hash"
  }

  /** The values read so far inside the query object. */
  datatype Fields = Fields(hash: Option<HashEnum>, descriptor: Option<seq<real>>, boost: real)

  /** Before the object is read: no hash, no descriptor, boost 1. */
  const Defaults := Fields(None, None, 1.0)

  /** text() of a value token. */
  function ScalarText(t: Token, ext: Externals): (r: Result<string, ParseError>)
    ensures r.Err? <==> !(t.Str? || t.Num?)
  {
    match t
    case Str(s) => Ok(s)
    case Num(v) => Ok(ext.numberText(v))
    case _ => Err(NotAScalar)
  }

  /** doubleValue() / floatValue() of a value token; a string is read as a number. */
  function NumberValue(t: Token, ext: Externals): (r: Result<real, ParseError>)
    ensures t.Num? ==> r == Ok(t.value)
    ensures !t.Num? && !t.Str? ==> r == Err(NotANumber)
  {
    match t
    case Num(v) => Ok(v)
    case Str(s) => if ext.parseNumber(s).Some? then Ok(ext.parseNumber(s).value) else Err(NotANumber)
    case _ => Err(NotANumber)
  }

  /** The array elements from position pos up to the closing token, appended to acc, and the
      position after the closing token. */
  function ReadArray(tokens: seq<Token>, pos: nat, acc: seq<real>, ext: Externals)
    : (r: Result<(seq<real>, nat), ParseError>)
    requires pos <= |tokens|
    ensures r.Ok? ==> pos < r.value.1 <= |tokens| && tokens[r.value.1 - 1] == EndArray
    ensures r.Ok? ==> |acc| <= |r.value.0| && r.value.0[..|acc|] == acc
    ensures r.Err? ==> r.error == UnexpectedEnd || r.error == NotANumber
    decreases |tokens| - pos
  {
    if pos == |tokens| then Err(UnexpectedEnd)
    else if tokens[pos] == EndArray then Ok((acc, pos + 1))
    else
      match NumberValue(tokens[pos], ext)
      case Err(e) => Err(e)
      case Ok(v) =>
        var r := ReadArray(tokens, pos + 1, acc + [v], ext);
        assert r.Ok? ==> r.value.0[..|acc|] == (acc + [v])[..|acc|] == acc by {
          if r.Ok? {
            assert r.value.0[..|acc|] == r.value.0[..|acc| + 1][..|acc|];
          }
        }
        r
  }

  /** The body of the query object from position pos, with the key last seen and the values
      read so far: the final values and the position after the object's closing token. */
  function ReadObject(tokens: seq<Token>, pos: nat, current: Option<string>, fields: Fields, ext: Externals)
    : (r: Result<(Fields, nat), ParseError>)
    requires pos <= |tokens|
    ensures r.Ok? ==> pos < r.value.1 <= |tokens| && tokens[r.value.1 - 1] == EndObject
    ensures r.Err? ==> r.error != NoField && r.error != NoHashFound && r.error != MissingDescriptor
    decreases |tokens| - pos
  {
    if pos == |tokens| then Err(UnexpectedEnd)
    else
      var token := tokens[pos];
      if token == EndObject then Ok((fields, pos + 1))
      else if token.FieldName? then ReadObject(tokens, pos + 1, Some(token.name), fields, ext)
      else if current == Some("descriptor") then
        if token != StartArray then Err(NotAnArray)
        else
          match ReadArray(tokens, pos + 1, [], ext)
          case Err(e) => Err(e)
          case Ok(read) => ReadObject(tokens, read.1, current, fields.(descriptor := Some(read.0)), ext)
      else if current == Some("hash") then
        match ScalarText(token, ext)
        case Err(e) => Err(e)
        case Ok(text) => ReadObject(tokens, pos + 1, current, fields.(hash := ext.hashByName(text)), ext)
      else if current == Some("boost") then
        match NumberValue(token, ext)
        case Err(e) => Err(e)
        case Ok(v) => ReadObject(tokens, pos + 1, current, fields.(boost := v), ext)
      else Err(Unsupported(current))
  }

  /** An array of numeric tokens is read in full, in order, up to and past its closing token. */
  lemma {:induction false} ReadArrayOfNumbers(tokens: seq<Token>, pos: nat, acc: seq<real>, values: seq<real>, ext: Externals)
    requires pos + |values| < |tokens|
    requires forall k | 0 <= k < |values| :: tokens[pos + k] == Num(values[k])
    requires tokens[pos + |values|] == EndArray
    ensures ReadArray(tokens, pos, acc, ext) == Ok((acc + values, pos + |values| + 1))
    decreases |values|
  {
    if |values| == 0 {
      assert acc + values == acc;
    } else {
      assert tokens[pos] == Num(values[0]) && NumberValue(tokens[pos], ext) == Ok(values[0]);
      assert ReadArray(tokens, pos, acc, ext) == ReadArray(tokens, pos + 1, acc + [values[0]], ext);
      forall k | 0 <= k < |values[1..]|
        ensures tokens[pos + 1 + k] == Num(values[1..][k])
      {
        assert tokens[pos + (k + 1)] == Num(values[k + 1]);
      }
      ReadArrayOfNumbers(tokens, pos + 1, acc + [values[0]], values[1..], ext);
      assert acc + [values[0]] + values[1..] == acc + values;
    }
  }

  /** Within the query object a repeated key overwrites: a second boost replaces the first. */
  lemma RepeatedBoostOverwrites(tokens: seq<Token>, pos: nat, current: Option<string>, fields: Fields, a: real, b: real, ext: Externals)
    requires pos + 4 <= |tokens|
    requires tokens[pos..pos + 4] == [FieldName("boost"), Num(a), FieldName("boost"), Num(b)]
    ensures ReadObject(tokens, pos, current, fields, ext) == ReadObject(tokens, pos + 4, Some("boost"), fields.(boost := b), ext)
  {
    var w := tokens[pos..pos + 4];
    assert tokens[pos] == w[0] == FieldName("boost") && tokens[pos + 1] == w[1] == Num(a);
    assert tokens[pos + 2] == w[2] == FieldName("boost") && tokens[pos + 3] == w[3] == Num(b);
    assert ReadObject(tokens, pos + 2, Some("boost"), fields.(boost := a), ext)
      == ReadObject(tokens, pos + 4, Some("boost"), fields.(boost := b), ext);
  }

  /** A hash entry sets the hash to the family its text names, and no other field. */
  lemma HashEntry(tokens: seq<Token>, pos: nat, current: Option<string>, fields: Fields, text: string, ext: Externals)
    requires pos + 2 <= |tokens|
    requires tokens[pos] == FieldName("hash") && ScalarText(tokens[pos + 1], ext) == Ok(text)
    ensures ReadObject(tokens, pos, current, fields, ext)
      == ReadObject(tokens, pos + 2, Some("hash"), fields.(hash := ext.hashByName(text)), ext)
  {
    assert ReadObject(tokens, pos, current, fields, ext) == ReadObject(tokens, pos + 1, Some("hash"), fields, ext);
  }

  /** A boost entry sets the boost to its number, and no other field. */
  lemma BoostEntry(tokens: seq<Token>, pos: nat, current: Option<string>, fields: Fields, v: real, ext: Externals)
    requires pos + 2 <= |tokens|
    requires tokens[pos] == FieldName("boost") && NumberValue(tokens[pos + 1], ext) == Ok(v)
    ensures ReadObject(tokens, pos, current, fields, ext)
      == ReadObject(tokens, pos + 2, Some("boost"), fields.(boost := v), ext)
  {
    assert ReadObject(tokens, pos, current, fields, ext) == ReadObject(tokens, pos + 1, Some("boost"), fields, ext);
  }

  /** A descriptor entry sets the descriptor to the numbers of its array, and no other field. */
  lemma DescriptorEntry(tokens: seq<Token>, pos: nat, current: Option<string>, fields: Fields, d: seq<real>,
                        next: nat, ext: Externals)
    requires pos + 2 <= |tokens|
    requires tokens[pos] == FieldName("descriptor") && tokens[pos + 1] == StartArray
    requires ReadArray(tokens, pos + 2, [], ext) == Ok((d, next))
    ensures ReadObject(tokens, pos, current, fields, ext)
      == ReadObject(tokens, next, Some("descriptor"), fields.(descriptor := Some(d)), ext)
  {
    assert ReadObject(tokens, pos, current, fields, ext) == ReadObject(tokens, pos + 1, Some("descriptor"), fields, ext);
  }

  /** A second hash key overwrites the first. */
  lemma RepeatedHashOverwrites(tokens: seq<Token>, pos: nat, current: Option<string>, fields: Fields,
                               first: string, second: string, ext: Externals)
    requires pos + 4 <= |tokens|
    requires tokens[pos] == FieldName("hash") && ScalarText(tokens[pos + 1], ext) == Ok(first)
    requires tokens[pos + 2] == FieldName("hash") && ScalarText(tokens[pos + 3], ext) == Ok(second)
    ensures ReadObject(tokens, pos, current, fields, ext)
      == ReadObject(tokens, pos + 4, Some("hash"), fields.(hash := ext.hashByName(second)), ext)
  {
    HashEntry(tokens, pos, current, fields, first, ext);
    HashEntry(tokens, pos + 2, Some("hash"), fields.(hash := ext.hashByName(first)), second, ext);
  }

  /** A second descriptor key overwrites the first. */
  lemma RepeatedDescriptorOverwrites(tokens: seq<Token>, pos: nat, current: Option<string>, fields: Fields,
                                     first: seq<real>, mid: nat, second: seq<real>, next: nat, ext: Externals)
    requires pos + 2 <= |tokens|
    requires tokens[pos] == FieldName("descriptor") && tokens[pos + 1] == StartArray
    requires ReadArray(tokens, pos + 2, [], ext) == Ok((first, mid))
    requires mid + 2 <= |tokens|
    requires tokens[mid] == FieldName("descriptor") && tokens[mid + 1] == StartArray
    requires ReadArray(tokens, mid + 2, [], ext) == Ok((second, next))
    ensures ReadObject(tokens, pos, current, fields, ext)
      == ReadObject(tokens, next, Some("descriptor"), fields.(descriptor := Some(second)), ext)
  {
    DescriptorEntry(tokens, pos, current, fields, first, mid, ext);
    DescriptorEntry(tokens, mid, Some("descriptor"), fields.(descriptor := Some(first)), second, next, ext);
  }

  /** A boost repeated after another entry still overwrites the first boost, and the entry in
      between keeps its own value. */
  lemma BoostOverwritesAcrossHash(tokens: seq<Token>, pos: nat, current: Option<string>, fields: Fields,
                                  a: real, text: string, b: real, ext: Externals)
    requires pos + 6 <= |tokens|
    requires tokens[pos] == FieldName("boost") && NumberValue(tokens[pos + 1], ext) == Ok(a)
    requires tokens[pos + 2] == FieldName("hash") && ScalarText(tokens[pos + 3], ext) == Ok(text)
    requires tokens[pos + 4] == FieldName("boost") && NumberValue(tokens[pos + 5], ext) == Ok(b)
    ensures ReadObject(tokens, pos, current, fields, ext)
      == ReadObject(tokens, pos + 6, Some("boost"), fields.(hash := ext.hashByName(text), boost := b), ext)
  {
    var f1 := fields.(boost := a);
    var f2 := f1.(hash := ext.hashByName(text));
    BoostEntry(tokens, pos, current, fields, a, ext);
    HashEntry(tokens, pos + 2, Some("boost"), f1, text, ext);
    BoostEntry(tokens, pos + 4, Some("hash"), f2, b, ext);
    assert f2.(boost := b) == fields.(hash := ext.hashByName(text), boost := b);
  }

  /** A value under any key other than descriptor, hash and boost fails, naming that key. */
  lemma UnsupportedKeyRejected(tokens: seq<Token>, pos: nat, current: Option<string>, fields: Fields, key: string, ext: Externals)
    requires pos + 2 <= |tokens|
    requires tokens[pos] == FieldName(key) && key != "descriptor" && key != "hash" && key != "boost"
    requires tokens[pos + 1] != EndObject && !tokens[pos + 1].FieldName?
    ensures ReadObject(tokens, pos, current, fields, ext) == Err(Unsupported(Some(key)))
  {
    assert ReadObject(tokens, pos, current, fields, ext) == ReadObject(tokens, pos + 1, Some(key), fields, ext);
  }

  /** What the parser reads before it generates hashes. */
  datatype ParsedQuery = ParsedQuery(fieldName: string, hash: HashEnum, descriptor: Option<seq<real>>, boost: real)

  /** The field name, then the query object if one opens there; a query without a hash fails. */
  function ReadQuery(tokens: seq<Token>, ext: Externals): (r: Result<ParsedQuery, ParseError>)
    ensures r.Err? && r.error == NoField <==> |tokens| == 0 || !tokens[0].FieldName?
    ensures r.Ok? ==> r.value.fieldName == tokens[0].name
  {
    if |tokens| == 0 || !tokens[0].FieldName? then Err(NoField)
    else
      var read := if 2 <= |tokens| && tokens[1] == StartObject then ReadObject(tokens, 2, None, Defaults, ext)
        else Ok((Defaults, 1));
      match read
      case Err(e) => Err(e)
      case Ok(r) =>
        if r.0.hash.None? then Err(NoHashFound)
        else Ok(ParsedQuery(tokens[0].name, r.0.hash.value, r.0.descriptor, r.0.boost))
  }

  /** A field name not followed by an object leaves every value unset, so the query fails
      for want of a hash. */
  lemma NoObjectNoHash(tokens: seq<Token>, ext: Externals)
    requires |tokens| >= 1 && tokens[0].FieldName?
    requires |tokens| < 2 || tokens[1] != StartObject
    ensures ReadQuery(tokens, ext) == Err(NoHashFound)
  {
  }

  /** The hash codes of the descriptor under the named family. */
  function GenerateHashes(q: ParsedQuery, ext: Externals): (r: Result<seq<int>, ParseError>)
    ensures r.Err? <==> q.descriptor.None?
  {
    if q.descriptor.None? then Err(MissingDescriptor)
    else match q.hash
      case BitSampling => Ok(ext.bitSampling(q.descriptor.value))
      case Lsh => Ok(ext.lsh(q.descriptor.value))
  }

  /** The term a hash code's clause looks up: the field's hash sub-field and the code's
      decimal text. */
  function ClauseTerm(fieldName: string, code: int): (t: Term)
    ensures t.field == fieldName + "." + HashSuffix
  {
    Term(fieldName + "." + HashSuffix, IntToString(code))
  }

  /** Distinct codes give distinct terms, so each clause matches its own bucket. */
  lemma ClauseTermInjective(fieldName: string, a: int, b: int)
    ensures ClauseTerm(fieldName, a) == ClauseTerm(fieldName, b) ==> a == b
  {
    IntToStringInjective(a, b);
  }

  datatype Occur = Should | Must | MustNot

  datatype BooleanClause = BooleanClause(query: DescriptorHashQuery, occur: Occur)

  datatype BooleanQuery = BooleanQuery(disableCoord: bool, clauses: seq<BooleanClause>)

  /** The descriptor array: reads the elements up to the closing token into a list, then copies
      the list into an array of its size. */
  method ReadDescriptorArray(tokens: seq<Token>, start: nat, ext: Externals)
    returns (r: Result<(seq<real>, nat), ParseError>)
    requires start <= |tokens|
    ensures r == ReadArray(tokens, start, [], ext)
  {
    var values: seq<real> := [];
    var pos := start;
    while pos < |tokens| && tokens[pos] != EndArray
      invariant start <= pos <= |tokens|
      invariant ReadArray(tokens, start, [], ext) == ReadArray(tokens, pos, values, ext)
      decreases |tokens| - pos
    {
      var v := NumberValue(tokens[pos], ext);
      if v.Err? {
        return Err(v.error);
      }
      values := values + [v.value];
      pos := pos + 1;
    }
    if pos == |tokens| {
      return Err(UnexpectedEnd);
    }
    var descriptor := new real[|values|];
    for i := 0 to |values|
      invariant descriptor[..i] == values[..i]
    {
      descriptor[i] := values[i];
    }
    assert descriptor[..] == values;
    r := Ok((descriptor[..], pos + 1));
  }

  /** The token loop over the query object that opens at position 1: each field name becomes
      the current key, and each value is read under the current key. */
  method ReadQueryObject(tokens: seq<Token>, ext: Externals) returns (r: Result<(Fields, nat), ParseError>)
    requires 2 <= |tokens|
    ensures r == ReadObject(tokens, 2, None, Defaults, ext)
  {
    var hash: Option<HashEnum> := None;
    var descriptor: Option<seq<real>> := None;
    var boost := 1.0;
    var current: Option<string> := None;
    var pos := 2;
    while pos < |tokens| && tokens[pos] != EndObject
      invariant 2 <= pos <= |tokens|
      invariant ReadObject(tokens, 2, None, Defaults, ext) == ReadObject(tokens, pos, current, Fields(hash, descriptor, boost), ext)
      decreases |tokens| - pos
    {
      var token := tokens[pos];
      if token.FieldName? {
        current := Some(token.name);
        pos := pos + 1;
      } else if current == Some("descriptor") {
        if token != StartArray {
          return Err(NotAnArray);
        }
        var read := ReadDescriptorArray(tokens, pos + 1, ext);
        if read.Err? {
          return Err(read.error);
        }
        descriptor := Some(read.value.0);
        pos := read.value.1;
      } else if current == Some("hash") {
        var text := ScalarText(token, ext);
        if text.Err? {
          return Err(text.error);
        }
        hash := ext.hashByName(text.value);
        pos := pos + 1;
      } else if current == Some("boost") {
        var v := NumberValue(token, ext);
        if v.Err? {
          return Err(v.error);
        }
        boost := v.value;
        pos := pos + 1;
      } else {
        return Err(Unsupported(current));
      }
    }
    if pos == |tokens| {
      return Err(UnexpectedEnd);
    }
    r := Ok((Fields(hash, descriptor, boost), pos + 1));
  }

  /** One SHOULD clause per hash code, in order, every clause sharing one fresh, empty cache. */
  method BuildClauses(fieldName: string, codes: seq<int>, descriptor: seq<real>, boost: real)
    returns (clauses: seq<BooleanClause>)
    ensures |clauses| == |codes|
    ensures forall k | 0 <= k < |codes| ::
      var c := clauses[k];
      && c.occur == Should
      && c.query.term == ClauseTerm(fieldName, codes[k])
      && c.query.descriptor == descriptor
      && c.query.boost == boost
      && c.query.fieldName == fieldName
      && c.query.cache == clauses[0].query.cache
      && fresh(c.query.cache) && c.query.cache.scores == map[]
  {
    var cache := new DescriptorScoreCache();
    clauses := [];
    for k := 0 to |codes|
      invariant |clauses| == k
      invariant forall j | 0 <= j < k ::
        var c := clauses[j];
        && c.occur == Should
        && c.query.term == ClauseTerm(fieldName, codes[j])
        && c.query.descriptor == descriptor
        && c.query.boost == boost
        && c.query.fieldName == fieldName
        && c.query.cache == cache
      invariant cache.scores == map[]
    {
      var clause := new DescriptorHashQuery(ClauseTerm(fieldName, codes[k]), descriptor, boost, fieldName, cache);
      clauses := clauses + [BooleanClause(clause, Should)];
    }
  }

  /** parse: the field name, the query object, the hash check, hash generation and one SHOULD
      clause per code, every clause sharing one fresh, empty cache, with coordination disabled. */
  method Parse(tokens: seq<Token>, ext: Externals) returns (r: Result<BooleanQuery, ParseError>)
    ensures ReadQuery(tokens, ext).Err? ==> r == Err(ReadQuery(tokens, ext).error)
    ensures ReadQuery(tokens, ext).Ok? ==>
      var q := ReadQuery(tokens, ext).value;
      match GenerateHashes(q, ext)
      case Err(e) => r == Err(e)
      case Ok(codes) =>
        && r.Ok? && r.value.disableCoord
        && |r.value.clauses| == |codes|
        && (forall k | 0 <= k < |codes| ::
              var c := r.value.clauses[k];
              && c.occur == Should
              && c.query.term == ClauseTerm(q.fieldName, codes[k])
              && c.query.descriptor == q.descriptor.value
              && c.query.boost == q.boost
              && c.query.fieldName == q.fieldName
              && c.query.cache == r.value.clauses[0].query.cache
              && fresh(c.query.cache) && c.query.cache.scores == map[])
  {
    if |tokens| == 0 || !tokens[0].FieldName? {
      return Err(NoField);
    }
    var fields := Defaults;
    if 2 <= |tokens| && tokens[1] == StartObject {
      var read := ReadQueryObject(tokens, ext);
      if read.Err? {
        return Err(read.error);
      }
      fields := read.value.0;
    }
    if fields.hash.None? {
      return Err(NoHashFound);
    }
    var q := ParsedQuery(tokens[0].name, fields.hash.value, fields.descriptor, fields.boost);
    assert ReadQuery(tokens, ext) == Ok(q);
    var codes := GenerateHashes(q, ext);
    if codes.Err? {
      return Err(codes.error);
    }
    var clauses := BuildClauses(q.fieldName, codes.value, q.descriptor.value, q.boost);
    r := Ok(BooleanQuery(true, clauses));
  }
}
