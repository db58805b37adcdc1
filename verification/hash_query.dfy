/**
 * One hash clause of a descriptor query (DescriptorHashQuery.java): it matches the documents
 * whose hash field holds the clause's term, and re-scores each of them exactly, through a
 * score cache shared by all clauses of the query so that a document hit by several clauses is
 * scored once.
 */
module HashQuery {
  import opened Wrappers
  import opened Text
  import opened DescriptorScorer
  import opened ScoreCache

  /** A term: the field it belongs to and its text. */
  datatype Term = Term(field: string, text: string)

  /** One index segment as a scorer sees it: the text its reader prints, the ascending postings
      (document ids) of every term it contains, and the binary doc values of each field. */
  datatype Segment = Segment(name: string, postings: map<Term, seq<nat>>, docValues: map<string, map<nat, Bytes>>)

  /** Lucene's end-of-iteration document id, Integer.MAX_VALUE. */
  const NoMoreDocs: nat := 0x7fff_ffff

  /** The bytes a segment stores for a document in a field, None when it stores none. */
  function StoredBytes(seg: Segment, field: string, doc: nat): (r: Option<Bytes>)
    ensures r.Some? <==> field in seg.docValues && doc in seg.docValues[field]
  {
    if field in seg.docValues && doc in seg.docValues[field] then Some(seg.docValues[field][doc]) else None
  }

  /** The cache key of a document: the reader's text, a colon, the decimal document id. */
  function CacheKey(reader: string, doc: nat): string
  {
    reader + ":" + IntToString(doc)
  }

  /** A cache key starts with the reader's text and a colon, and holds no colon after it. */
  lemma CacheKeyLayout(reader: string, doc: nat)
    ensures var k := CacheKey(reader, doc);
      && |k| > |reader| + 1 && k[..|reader|] == reader && k[|reader|] == ':'
      && ':' !in k[|reader| + 1..]
  {
    var t := IntToString(doc);
    assert forall i | 0 <= i < |t| :: t[i] != ':';
    assert (reader + ":" + t)[|reader| + 1..] == t;
  }

  /** Distinct (reader, document) pairs never share a cache key: the document id's text holds
      no colon, so the last colon of the key separates the two parts. */
  lemma CacheKeyInjective(r1: string, d1: nat, r2: string, d2: nat)
    ensures CacheKey(r1, d1) == CacheKey(r2, d2) ==> r1 == r2 && d1 == d2
  {
    if CacheKey(r1, d1) == CacheKey(r2, d2) {
      var t1, t2 := IntToString(d1), IntToString(d2);
      assert ':' !in t1 && ':' !in t2 by {
        assert forall k | 0 <= k < |t1| :: t1[k] != ':';
        assert forall k | 0 <= k < |t2| :: t2[k] != ':';
      }
      assert r1 + [':'] + t1 == CacheKey(r1, d1);
      assert r2 + [':'] + t2 == CacheKey(r2, d2);
      SplitAtLastSeparator(r1, t1, r2, t2, ':');
      IntToStringInjective(d1, d2);
    }
  }

  /** Strictly ascending document ids, as a postings list holds them. */
  predicate Ascending(postings: seq<nat>)
  {
    forall i, j | 0 <= i < j < |postings| :: postings[i] < postings[j]
  }

  /** advance(target) on a fresh postings iterator: the first posting at or after the target,
      or NoMoreDocs when there is none. */
  function Advance(postings: seq<nat>, target: nat): (d: nat)
    ensures d == NoMoreDocs || (d in postings && target <= d)
    ensures (forall p <- postings :: p < target) ==> d == NoMoreDocs
    ensures (exists p <- postings :: target <= p) ==> d in postings && target <= d
    ensures Ascending(postings) ==> forall p <- postings :: p < target || d <= p
  {
    if |postings| == 0 then NoMoreDocs
    else if target <= postings[0] then
      assert Ascending(postings) ==> forall p <- postings :: postings[0] <= p by {
        if Ascending(postings) {
          forall p <- postings
            ensures postings[0] <= p
          {
            var j :| 0 <= j < |postings| && postings[j] == p;
          }
        }
      }
      postings[0]
    else
      assert forall p <- postings :: p == postings[0] || p in postings[1..] by {
        assert postings == [postings[0]] + postings[1..];
      }
      assert Ascending(postings) ==> Ascending(postings[1..]);
      Advance(postings[1..], target)
  }

  /** On an ascending postings list the iterator lands exactly on a target document id if and
      only if the list contains it. */
  lemma {:induction false} AdvanceLandsIff(postings: seq<nat>, target: nat)
    requires Ascending(postings) && target < NoMoreDocs
    ensures Advance(postings, target) == target <==> target in postings
  {
    if |postings| > 0 && postings[0] < target {
      assert Ascending(postings[1..]);
      AdvanceLandsIff(postings[1..], target);
      assert target in postings <==> target in postings[1..];
    }
  }

  /** ToStringUtils.boost: empty for a boost of 1, otherwise a caret and the float's text. */
  function BoostSuffix(boost: real, floatText: real -> string): (s: string)
    ensures s == "" <==> boost == 1.0
    ensures s != "" ==> s[0] == '^'
  {
    if boost != 1.0 then "^" + floatText(boost) else ""
  }

  /** A node of a score explanation. */
  datatype Explanation =
    | Match(value: real, description: string, details: seq<Explanation>)
    | NoMatch(description: string)

  /** The product of the values of a list of explanation details. */
  function DetailProduct(details: seq<Explanation>): real
  {
    if |details| == 0 then 1.0
    else
      var head := if details[0].Match? then details[0].value else 0.0;
      Product(head, DetailProduct(details[1..]))
  }

  /** The matching explanation as explain builds it: for a boost other than 1 the boost is a
      detail and the reported value is the score divided by the boost. */
  function ExplainMatchAsWritten(score: real, boost: real, weightText: string): (e: Explanation)
    requires boost != 0.0
    ensures e.Match? && e.description == weightText + ", product of:"
    ensures e.value == (if boost != 1.0 then score / boost else score)
    ensures e.value * boost == score
    ensures |e.details| == (if boost == 1.0 then 1 else 2)
    ensures forall k | 0 <= k < |e.details| :: e.details[k].Match? && e.details[k].details == []
    ensures boost == 1.0 ==> e.details[0].value == score
    ensures boost != 1.0 ==> e.details[0].value == boost && e.details[1].value == score / boost
  {
    if boost != 1.0 then
      Match(score / boost, weightText + ", product of:",
        [Match(boost, "boost", []), Match(score / boost, "image score (1/distance)", [])])
    else
      Match(score, weightText + ", product of:", [Match(score, "image score (1/distance)", [])])
  }

  /** The matching explanation with the clause's actual score as its value: the boost and the
      unboosted image score as details. */
  function ExplainMatch(score: real, boost: real, weightText: string): (e: Explanation)
    requires boost != 0.0
    ensures e.Match? && e.value == score && e.description == weightText + ", product of:"
    ensures |e.details| == (if boost == 1.0 then 1 else 2)
    ensures var w := ExplainMatchAsWritten(score, boost, weightText); w.Match? && e == w.(value := score)
  {
    if boost != 1.0 then
      Match(score, weightText + ", product of:",
        [Match(boost, "boost", []), Match(score / boost, "image score (1/distance)", [])])
    else
      Match(score, weightText + ", product of:", [Match(score, "image score (1/distance)", [])])
  }

  /** The corrected explanation is what its description says: its value is the product of
      its details, and it is the score. */
  lemma ExplainMatchIsProduct(score: real, boost: real, weightText: string)
    requires boost != 0.0
    ensures ExplainMatch(score, boost, weightText).value == DetailProduct(ExplainMatch(score, boost, weightText).details) == score
  {
    var e := ExplainMatch(score, boost, weightText);
    if boost != 1.0 {
      assert e.details[1..][1..] == [];
      assert DetailProduct(e.details[1..]) == Product(score / boost, 1.0);
      assert boost * (score / boost) == score;
    } else {
      assert e.details[1..] == [];
    }
  }

  /** As written, a clause with boost 2 and score 4 reports the value 2 while its "product of"
      details multiply to 4. */
  lemma ExplainAsWrittenCounterexample(weightText: string)
    ensures var e := ExplainMatchAsWritten(4.0, 2.0, weightText);
      e.value == 2.0 && DetailProduct(e.details) == 4.0
  {
    var e := ExplainMatchAsWritten(4.0, 2.0, weightText);
    assert e.details[1..][1..] == [];
    assert DetailProduct(e.details[1..]) == Product(2.0, 1.0) == 2.0;
  }

  class DescriptorHashQuery {
    const term: Term
    const descriptor: seq<real>
    const boost: real
    const fieldName: string
    const cache: DescriptorScoreCache

    constructor(t: Term, descriptor: seq<real>, boost: real, fieldName: string, cache: DescriptorScoreCache)
      ensures this.term == t && this.descriptor == descriptor && this.boost == boost
      ensures this.fieldName == fieldName && this.cache == cache
    {
      this.term := t;
      this.descriptor := descriptor;
      this.boost := boost;
      this.fieldName := fieldName;
      this.cache := cache;
    }

    /** toString(field): the term's field and a colon unless it is the given field, then the
        term text and the boost suffix. */
    function QueryText(field: string, floatText: real -> string): (s: string)
      ensures term.field != field ==> |s| > |term.field| && s[..|term.field| + 1] == term.field + ":"
      ensures term.field == field && boost == 1.0 ==> s == term.text
      ensures boost != 1.0 ==> '^' in s
    {
      (if term.field != field then term.field + ":" else "") + term.text + BoostSuffix(boost, floatText)
    }

    /** toString(field), appended piece by piece. */
    method ToString(field: string, floatText: real -> string) returns (s: string)
      ensures s == QueryText(field, floatText)
    {
      s := "";
      if term.field != field {
        s := s + term.field;
        s := s + ":";
      }
      s := s + term.text;
      s := s + BoostSuffix(boost, floatText);
    }

    /** The text for any other field is the text for the term's own field, qualified by the
        term's field; the boost appears only when it is not 1. */
    lemma QueryTextQualified(field: string, floatText: real -> string)
      ensures field != term.field ==> QueryText(field, floatText) == term.field + ":" + QueryText(term.field, floatText)
      ensures boost == 1.0 ==> QueryText(term.field, floatText) == term.text
    {
    }

    /** The weight's text, around the query's default text (toString of the empty field). */
    function WeightText(floatText: real -> string): (w: string)
      ensures |w| >= 8 && w[..7] == "weight(" && w[|w| - 1] == ')'
      ensures w[7..|w| - 1] == QueryText("", floatText)
    {
      "weight(" + QueryText("", floatText) + ")"
    }

    /** getValueForNormalization: the clause contributes a constant 1 to the query norm. */
    function ValueForNormalization(): (v: real)
      ensures v == 1.0
    {
      1.0
    }

    /** normalize: ignores the query norm and the top-level boost; nothing changes. */
    method Normalize(queryNorm: real, topLevelBoost: real)
      ensures unchanged(this) && unchanged(cache)
    {
    }

    /** scorer: the term's postings in the segment, None when the term does not occur there. */
    function Scorer(seg: Segment): (r: Option<seq<nat>>)
      ensures r.None? <==> term !in seg.postings
      ensures r.Some? ==> r.value == seg.postings[term]
    {
      if term in seg.postings then Some(seg.postings[term]) else None
    }

    /** The score computed from scratch for a document of a segment. */
    function BaseScore(seg: Segment, doc: nat, decode: Bytes -> Option<seq<real>>): (r: Result<real, ScoreError>)
      ensures StoredBytes(seg, fieldName, doc).None? ==> r == Err(NoDocValues)
      ensures r.Ok? && 0.0 < boost ==> 0.0 < r.value <= 2.0 * boost
    {
      var stored := StoredBytes(seg, fieldName, doc);
      if 0.0 < boost then
        ExpectedScoreRange(descriptor, stored, decode, boost);
        ExpectedScore(descriptor, stored, decode, boost)
      else
        ExpectedScore(descriptor, stored, decode, boost)
    }

    /** DescriptorHashScorer.score: a document whose key is already cached contributes 0 and
        leaves the cache alone; otherwise its score is computed, stored under its key and
        returned. A failed computation stores nothing. */
    method Score(seg: Segment, doc: nat, decode: Bytes -> Option<seq<real>>) returns (r: Result<real, ScoreError>)
      modifies cache
      ensures var key := CacheKey(seg.name, doc);
        if key in old(cache.scores) then
          r == Ok(0.0) && cache.scores == old(cache.scores)
        else
          r == BaseScore(seg, doc, decode)
          && cache.scores == (if r.Ok? then old(cache.scores)[key := r.value] else old(cache.scores))
      ensures r.Ok? ==> CacheKey(seg.name, doc) in cache.scores
    {
      var key := CacheKey(seg.name, doc);
      var cached := cache.GetScore(key);
      if cached.Some? {
        return Ok(0.0);
      }
      r := DescriptorScorer.Score(descriptor, StoredBytes(seg, fieldName, doc), decode, boost);
      if r.Ok? {
        cache.SetScore(key, r.value);
      }
    }

    /** Whether explain finds the document: the segment has a scorer and its iterator, advanced
        to the document, lands on it. */
    predicate Matches(seg: Segment, doc: nat): (m: bool)
      ensures m ==> term in seg.postings
      ensures term in seg.postings && Ascending(seg.postings[term]) && doc < NoMoreDocs ==>
        (m <==> doc in seg.postings[term])
    {
      if term in seg.postings && Ascending(seg.postings[term]) && doc < NoMoreDocs then
        AdvanceLandsIff(seg.postings[term], doc);
        Scorer(seg).Some? && Advance(Scorer(seg).value, doc) == doc
      else
        Scorer(seg).Some? && Advance(Scorer(seg).value, doc) == doc
    }

    /** explain: a no-match naming the document when it is not found, otherwise the scorer's
        (possibly cached) score explained as written: for a boost other than 1 the reported
        value is that score divided by the boost. Scoring a found document goes through the
        cache exactly as score() does. */
    method Explain(seg: Segment, doc: nat, decode: Bytes -> Option<seq<real>>, floatText: real -> string)
      returns (r: Result<Explanation, ScoreError>)
      requires boost != 0.0
      modifies cache
      ensures !Matches(seg, doc) ==>
        r == Ok(NoMatch(WeightText(floatText) + " doesn't match id " + IntToString(doc)))
        && cache.scores == old(cache.scores)
      ensures Matches(seg, doc) && CacheKey(seg.name, doc) in old(cache.scores) ==>
        r == Ok(ExplainMatchAsWritten(0.0, boost, WeightText(floatText)))
        && cache.scores == old(cache.scores)
      ensures Matches(seg, doc) && CacheKey(seg.name, doc) !in old(cache.scores) ==>
        match BaseScore(seg, doc, decode)
        case Err(e) => r == Err(e) && cache.scores == old(cache.scores)
        case Ok(s) =>
          && r == Ok(ExplainMatchAsWritten(s, boost, WeightText(floatText)))
          && cache.scores == old(cache.scores)[CacheKey(seg.name, doc) := s]
    {
      var postings := Scorer(seg);
      var found := postings.Some? && Advance(postings.value, doc) == doc;
      if found {
        var score := Score(seg, doc, decode);
        match score
        case Err(e) =>
          r := Err(e);
        case Ok(s) =>
          r := Ok(ExplainMatchAsWritten(s, boost, WeightText(floatText)));
      } else {
        r := Ok(NoMatch(WeightText(floatText) + " doesn't match id " + IntToString(doc)));
      }
    }
  }
}
