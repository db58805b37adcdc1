/**
 * Exact re-scoring of one candidate document (AbstractDescriptorScorer.java): the squared
 * Euclidean distance between the query descriptor and the document's stored descriptor,
 * mapped to a similarity and multiplied by the clause boost. Doubles and floats are
 * modelled as reals.
 */
module DescriptorScorer {
  import opened Wrappers

  type Bytes = seq<bv8>

  /** Why no score could be computed for a document; the source turns each into a thrown
      scoring error ("Failed to calculate score"). */
  datatype ScoreError =
    | NoDocValues        // the segment holds no binary doc value for the document
    | DecodeFailed       // the stored bytes do not decode to a vector
    | DimensionMismatch  // query and stored vectors differ in length

  /** The product of two reals. It exists for the solver only: products are written through
      it so that the arithmetic lemmas below can name them as terms. */
  function Product(x: real, y: real): real
  {
    x * y
  }

  /** Sign of a product: two factors of the same strict sign give a positive product, and a
      zero factor gives zero. */
  lemma ProductSign(x: real, y: real)
    ensures x > 0.0 && y > 0.0 ==> Product(x, y) > 0.0
    ensures x < 0.0 && y < 0.0 ==> Product(x, y) > 0.0
    ensures x == 0.0 ==> Product(x, y) == 0.0
  {
    if x > 0.0 && y > 0.0 {
      assert x * y > 0.0 * y;
    }
    if x < 0.0 && y < 0.0 {
      assert (-x) * y < 0.0 * y;
    }
  }

  /** A square is never negative, and it is zero only for zero. */
  function Square(x: real): (s: real)
    ensures s >= 0.0
    ensures s == 0.0 <==> x == 0.0
  {
    ProductSign(x, x);
    Product(x, x)
  }

  /** Sum of (a[i] - b[i])^2, accumulated from the first position to the last. */
  function SquaredDistance(a: seq<real>, b: seq<real>): (d: real)
    requires |a| == |b|
    ensures d >= 0.0
    decreases |a|
  {
    if |a| == 0 then 0.0
    else
      var n := |a| - 1;
      SquaredDistance(a[..n], b[..n]) + Square(a[n] - b[n])
  }

  /** getDistance: the accumulating loop over both descriptors. */
  method GetDistance(d1: seq<real>, d2: seq<real>) returns (distance: real)
    requires |d1| == |d2|
    ensures distance == SquaredDistance(d1, d2)
  {
    distance := 0.0;
    for i := 0 to |d1|
      invariant distance == SquaredDistance(d1[..i], d2[..i])
    {
      var diff := d1[i] - d2[i];
      distance := distance + Square(diff);
      assert d1[..i + 1][..i] == d1[..i] && d2[..i + 1][..i] == d2[..i];
    }
    assert d1[..|d1|] == d1 && d2[..|d2|] == d2;
  }

  lemma {:induction false} SquaredDistanceSymmetric(a: seq<real>, b: seq<real>)
    requires |a| == |b|
    ensures SquaredDistance(a, b) == SquaredDistance(b, a)
    decreases |a|
  {
    if |a| > 0 {
      var n := |a| - 1;
      SquaredDistanceSymmetric(a[..n], b[..n]);
      var x := a[n] - b[n];
      assert b[n] - a[n] == -x;
      assert Product(x, x) == Product(-x, -x);
    }
  }

  /** The distance is zero exactly when the two descriptors are identical. */
  lemma {:induction false} SquaredDistanceZeroIff(a: seq<real>, b: seq<real>)
    requires |a| == |b|
    ensures SquaredDistance(a, b) == 0.0 <==> a == b
    decreases |a|
  {
    if |a| > 0 {
      var n := |a| - 1;
      SquaredDistanceZeroIff(a[..n], b[..n]);
      assert a == a[..n] + [a[n]] && b == b[..n] + [b[n]];
      if SquaredDistance(a, b) == 0.0 {
        assert a[..n] == b[..n] && a[n] == b[n];
      }
    }
  }

  /** The distance-to-similarity map inside score(): near-duplicates (distance at most 1)
      score 2 - distance, farther documents 1 / distance. */
  function Similarity(distance: real): (s: real)
    ensures 0.0 <= distance <= 1.0 ==> 1.0 <= s <= 2.0
    ensures 1.0 < distance ==> 0.0 < s < 1.0
  {
    if distance <= 1.0 then 2.0 - distance else 1.0 / distance
  }

  /** A product of two non-negative reals is non-negative. */
  lemma NonNegativeProduct(u: real, k: real)
    requires 0.0 <= u && 0.0 <= k
    ensures 0.0 <= u * k
  {
  }

  /** Signs and bounds of a product with a non-negative factor k. */
  lemma ProductBounds(x: real, k: real)
    ensures 0.0 <= x && 0.0 <= k ==> 0.0 <= Product(x, k)
    ensures 0.0 < x && 0.0 < k ==> 0.0 < Product(x, k)
    ensures x <= 1.0 && 0.0 <= k ==> Product(x, k) <= k
    ensures 1.0 <= x && 0.0 <= k ==> k <= Product(x, k)
  {
    if x <= 1.0 && 0.0 <= k {
      NonNegativeProduct(1.0 - x, k);
      assert (1.0 - x) * k == k - x * k;
    }
    if 1.0 <= x && 0.0 <= k {
      NonNegativeProduct(x - 1.0, k);
      assert (x - 1.0) * k == x * k - k;
    }
  }

  /** For 0 < x <= y with reciprocals a and b, a - b is (a * b) * (y - x); from 1 <= x on
      both reciprocals are at most 1. */
  lemma ReciprocalGap(x: real, y: real, a: real, b: real)
    requires 0.0 < x <= y && 0.0 < a && 0.0 < b
    requires a * x == 1.0 && b * y == 1.0
    ensures Product(Product(a, b), y - x) == a - b
    ensures 1.0 <= x ==> a <= 1.0 && b <= 1.0
  {
    var p := a * b;
    assert p * y == a * (b * y) == a;
    assert p * x == b * (a * x) == b;
    assert Product(a, x) == 1.0 && Product(b, y) == 1.0;
    ProductBounds(x, a);
    ProductBounds(y, b);
  }

  /** Over all non-negative distances the similarity is strictly decreasing. */
  lemma SimilarityStrictlyDecreasing(d1: real, d2: real)
    requires 0.0 <= d1 < d2
    ensures Similarity(d1) > Similarity(d2)
  {
    if 1.0 < d1 {
      var a, b := 1.0 / d1, 1.0 / d2;
      ReciprocalGap(d1, d2, a, b);
      ProductBounds(a, b);
      ProductBounds(Product(a, b), d2 - d1);
    }
  }

  /** The two branches meet at distance 1, and the map never changes faster than the
      distance does: it is 1-Lipschitz, hence continuous, on all non-negative distances. */
  lemma SimilarityLipschitz(d1: real, d2: real)
    requires 0.0 <= d1 <= d2
    ensures Similarity(1.0) == 2.0 - 1.0 == 1.0 / 1.0
    ensures 0.0 <= Similarity(d1) - Similarity(d2) <= d2 - d1
  {
    if 1.0 < d1 {
      var a, b := 1.0 / d1, 1.0 / d2;
      ReciprocalGap(d1, d2, a, b);
      ProductBounds(a, b);
      ProductBounds(Product(a, b), d2 - d1);
    } else if 1.0 < d2 {
      var b := 1.0 / d2;
      ReciprocalGap(1.0, d2, 1.0, b);
      ProductBounds(1.0, b);
      ProductBounds(b, d2 - 1.0);
    }
  }

  /** The score returned for a distance: the similarity scaled by the clause boost. */
  function DistanceScore(distance: real, boost: real): (s: real)
    ensures distance <= 1.0 ==> s == 2.0 * boost - Product(distance, boost)
    ensures 1.0 < distance ==> Product(s, distance) == boost
  {
    var a := Similarity(distance);
    if 1.0 < distance then
      assert a * distance == 1.0;
      assert (a * boost) * distance == (a * distance) * boost;
      Product(a, boost)
    else
      assert (2.0 - distance) * boost == 2.0 * boost - distance * boost;
      Product(a, boost)
  }

  /** Multiplying by a non-negative (positive) factor keeps (strict) order. */
  lemma ScaleMonotone(x: real, y: real, k: real)
    ensures x <= y && 0.0 <= k ==> x * k <= y * k
    ensures x < y && 0.0 < k ==> x * k < y * k
  {
    if x <= y && 0.0 <= k {
      assert (y - x) * k >= 0.0;
    }
    if x < y && 0.0 < k {
      assert (y - x) * k > 0.0;
    }
  }

  /** Near-duplicate regime: a distance of at most 1 scores between boost and 2 * boost. */
  lemma NearScoreBounds(distance: real, boost: real)
    requires 0.0 <= distance <= 1.0 && 0.0 <= boost
    ensures boost <= DistanceScore(distance, boost) <= 2.0 * boost
  {
    ScaleMonotone(1.0, Similarity(distance), boost);
    ScaleMonotone(Similarity(distance), 2.0, boost);
  }

  /** Far regime: a distance above 1 scores strictly between 0 and boost. */
  lemma FarScoreBounds(distance: real, boost: real)
    requires 1.0 < distance && 0.0 < boost
    ensures 0.0 < DistanceScore(distance, boost) < boost
  {
    ScaleMonotone(0.0, Similarity(distance), boost);
    ScaleMonotone(Similarity(distance), 1.0, boost);
  }

  /** With a positive boost a larger distance always scores strictly lower. */
  lemma DistanceScoreStrictlyDecreasing(d1: real, d2: real, boost: real)
    requires 0.0 <= d1 < d2 && 0.0 < boost
    ensures DistanceScore(d1, boost) > DistanceScore(d2, boost)
  {
    var s1, s2 := Similarity(d1), Similarity(d2);
    SimilarityStrictlyDecreasing(d1, d2);
    ScaleMonotone(s2, s1, boost);
    var p1, p2 := s1 * boost, s2 * boost;
    assert p2 < p1;
    assert DistanceScore(d1, boost) == p1;
    assert DistanceScore(d2, boost) == p2;
  }

  /** A descriptor compared with itself scores exactly twice the boost; with a positive
      boost that happens for no other descriptor of the same length. */
  lemma ExactMatchScore(query: seq<real>, stored: seq<real>, boost: real)
    requires |query| == |stored|
    ensures query == stored ==> DistanceScore(SquaredDistance(query, stored), boost) == 2.0 * boost
    ensures 0.0 < boost && query != stored ==> DistanceScore(SquaredDistance(query, stored), boost) < 2.0 * boost
  {
    SquaredDistanceZeroIff(query, stored);
    var d := SquaredDistance(query, stored);
    if 0.0 < boost && query != stored {
      DistanceScoreStrictlyDecreasing(0.0, d, boost);
    }
  }

  /** The score of one document, given its stored bytes (None when the segment has no doc
      value for it) and the external byte decoder. */
  function ExpectedScore(query: seq<real>, stored: Option<Bytes>, decode: Bytes -> Option<seq<real>>, boost: real)
    : (r: Result<real, ScoreError>)
    ensures r.Ok? <==> stored.Some? && decode(stored.value).Some? && |decode(stored.value).value| == |query|
  {
    match stored
    case None => Err(NoDocValues)
    case Some(bytes) =>
      match decode(bytes)
      case None => Err(DecodeFailed)
      case Some(vector) =>
        if |vector| != |query| then Err(DimensionMismatch)
        else Ok(DistanceScore(SquaredDistance(query, vector), boost))
  }

  /** With a positive boost every computed score lies in (0, 2 * boost], and it reaches
      2 * boost exactly for a stored descriptor equal to the query. */
  lemma ExpectedScoreRange(query: seq<real>, stored: Option<Bytes>, decode: Bytes -> Option<seq<real>>, boost: real)
    requires 0.0 < boost
    ensures var r := ExpectedScore(query, stored, decode, boost);
      r.Ok? ==> 0.0 < r.value <= 2.0 * boost && (r.value == 2.0 * boost <==> decode(stored.value).value == query)
  {
    var r := ExpectedScore(query, stored, decode, boost);
    if r.Ok? {
      var vector := decode(stored.value).value;
      var d := SquaredDistance(query, vector);
      assert r.value == DistanceScore(d, boost);
      if d <= 1.0 {
        NearScoreBounds(d, boost);
      } else {
        FarScoreBounds(d, boost);
      }
      ExactMatchScore(query, vector, boost);
    }
  }

  /** score(): decode the stored descriptor, measure the distance, map it to a score. */
  method Score(query: seq<real>, stored: Option<Bytes>, decode: Bytes -> Option<seq<real>>, boost: real)
    returns (r: Result<real, ScoreError>)
    ensures r == ExpectedScore(query, stored, decode, boost)
  {
    match stored
    case None =>
      r := Err(NoDocValues);
    case Some(bytes) =>
      match decode(bytes)
      case None =>
        r := Err(DecodeFailed);
      case Some(vector) =>
        if |vector| != |query| {
          r := Err(DimensionMismatch);
        } else {
          var distance := GetDistance(query, vector);
          var score: real;
          if distance <= 1.0 {
            score := 2.0 - distance;
          } else {
            score := 1.0 / distance;
          }
          assert score == Similarity(distance);
          r := Ok(Product(score, boost));
        }
  }

  /** freq(): every matching document counts as one occurrence. */
  function Freq(): (f: int)
    ensures f == 1
  {
    1
  }

  /** getDistance as the loop actually runs when the JVM's assertions are disabled: the
      bound is the query's length, so a shorter stored vector raises an index error (None)
      and a longer one is silently cut to the query's length. */
  function DistanceUnchecked(d1: seq<real>, d2: seq<real>): (r: Option<real>)
    ensures r.None? <==> |d2| < |d1|
  {
    if |d2| < |d1| then None else Some(SquaredDistance(d1, d2[..|d1|]))
  }

  /** score() as written, with the unchecked distance. */
  function ScoreUnchecked(query: seq<real>, stored: Option<Bytes>, decode: Bytes -> Option<seq<real>>, boost: real)
    : (r: Result<real, ScoreError>)
    ensures r.Ok? ==> stored.Some? && decode(stored.value).Some? && |query| <= |decode(stored.value).value|
  {
    match stored
    case None => Err(NoDocValues)
    case Some(bytes) =>
      match decode(bytes)
      case None => Err(DecodeFailed)
      case Some(vector) =>
        match DistanceUnchecked(query, vector)
        case None => Err(DimensionMismatch)
        case Some(d) => Ok(DistanceScore(d, boost))
  }

  /** A stored vector that extends the query by one more dimension is scored as an exact
      match by the unchecked loop, while the checked score rejects it. */
  lemma TruncatedDistanceCounterexample(bytes: Bytes)
    ensures var decode := (b: Bytes) => Some([0.0, 5.0]);
      && ScoreUnchecked([0.0], Some(bytes), decode, 1.0) == Ok(2.0)
      && ExpectedScore([0.0], Some(bytes), decode, 1.0) == Err(DimensionMismatch)
  {
    var v: seq<real> := [0.0, 5.0];
    assert v[..1] == [0.0];
    assert SquaredDistance([0.0], [0.0]) == 0.0 by {
      SquaredDistanceZeroIff([0.0], [0.0]);
    }
  }
}
