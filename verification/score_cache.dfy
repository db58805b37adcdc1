/**
 * The per-query score cache (DescriptorScoreCache.java): a mutable map from a document key to
 * the score already computed for it. Accessed sequentially here.
 */
module ScoreCache {
  import opened Wrappers

  class DescriptorScoreCache {
    /** The scoreCache map. */
    var scores: map<string, real>

    /** A new cache holds no keys. */
    constructor()
      ensures scores == map[]
    {
      scores := map[];
    }

    /** getScore: the stored score, or None (Java's null) for a key never stored. */
    method GetScore(key: string) returns (r: Option<real>)
      ensures r.None? <==> key !in scores
      ensures r.Some? ==> r.value == scores[key]
    {
      if key !in scores {
        return None;
      }
      return Some(scores[key]);
    }

    /** setScore: store (or overwrite) the score under the key; every other entry is kept. */
    method SetScore(key: string, score: real)
      modifies this
      ensures scores == old(scores)[key := score]
    {
      scores := scores[key := score];
    }
  }
}
