/**
 * The structured-content tokens a query is read from and written to, and the output builder
 * the query builder writes through.
 */
module XContent {
  import opened Wrappers

  datatype Token =
    | StartObject
    | EndObject
    | StartArray
    | EndArray
    | FieldName(name: string)
    | Str(text: string)
    | Num(value: real)
    | Null

  /** The tokens of an array of numbers, element by element. */
  function NumTokens(values: seq<real>): (ts: seq<Token>)
    ensures |ts| == |values|
    ensures forall k | 0 <= k < |values| :: ts[k] == Num(values[k])
  {
    if |values| == 0 then [] else [Num(values[0])] + NumTokens(values[1..])
  }

  /** An output builder: the tokens written so far. */
  class XContentBuilder {
    var tokens: seq<Token>

    constructor()
      ensures tokens == []
    {
      tokens := [];
    }

    /** startObject(name): the key, then the opening of its object. */
    method StartNamedObject(name: string)
      modifies this
      ensures tokens == old(tokens) + [FieldName(name), StartObject]
    {
      tokens := tokens + [FieldName(name), StartObject];
    }

    /** endObject. */
    method EndNamedObject()
      modifies this
      ensures tokens == old(tokens) + [EndObject]
    {
      tokens := tokens + [EndObject];
    }

    /** field(name, string): a null string is written as a null value. */
    method StringField(name: string, value: Option<string>)
      modifies this
      ensures tokens == old(tokens) + [FieldName(name), if value.Some? then Str(value.value) else Null]
    {
      tokens := tokens + [FieldName(name), if value.Some? then Str(value.value) else Null];
    }

    /** field(name, number). */
    method NumberField(name: string, value: real)
      modifies this
      ensures tokens == old(tokens) + [FieldName(name), Num(value)]
    {
      tokens := tokens + [FieldName(name), Num(value)];
    }

    /** field(name, double[]): the array's numbers in order; a null array is a null value. */
    method ArrayField(name: string, values: Option<seq<real>>)
      modifies this
      ensures tokens == old(tokens) + [FieldName(name)]
        + (if values.Some? then [StartArray] + NumTokens(values.value) + [EndArray] else [Null])
    {
      tokens := tokens + [FieldName(name)];
      if values.Some? {
        tokens := tokens + [StartArray] + NumTokens(values.value) + [EndArray];
      } else {
        tokens := tokens + [Null];
      }
    }
  }
}
