/**
 * Scoring a run of clause hits through the one cache all hash clauses of a descriptor query
 * share. The disjunction adds up the clause scores of each document; since every clause after
 * the first one to score a (reader, document) pair returns 0, the total counts each distinct
 * pair once.
 */
module Dedup {
  import opened Wrappers
  import opened DescriptorScorer
  import opened ScoreCache
  import opened HashQuery

  /** A document of a segment, identified by the segment reader's text and the document id. */
  datatype Hit = Hit(reader: string, doc: nat)

  /** One call of score(): the index of the clause whose scorer is on the hit, and the hit. */
  datatype ClauseHit = ClauseHit(clause: nat, hit: Hit)

  function Key(h: Hit): string
  {
    CacheKey(h.reader, h.doc)
  }

  /** Adds a score to a total; the first failure is what the run reports. */
  function Plus(s: real, rest: Result<real, ScoreError>): Result<real, ScoreError>
  {
    match rest
    case Ok(t) => Ok(s + t)
    case Err(e) => Err(e)
  }

  /** The hits of a run of clause hits, in order: the k-th hit is the hit of the k-th clause
      hit. */
  function HitsOf(events: seq<ClauseHit>): (hits: seq<Hit>)
    ensures |hits| == |events|
    ensures forall k {:trigger events[k]} | 0 <= k < |events| :: hits[k] == events[k].hit
  {
    if |events| == 0 then [] else [events[0].hit] + HitsOf(events[1..])
  }

  /** The hits in order of first occurrence, leaving out those already seen. */
  function Distinct(hits: seq<Hit>, seen: set<Hit>): seq<Hit>
    decreases |hits|
  {
    if |hits| == 0 then []
    else if hits[0] in seen then Distinct(hits[1..], seen)
    else [hits[0]] + Distinct(hits[1..], seen + {hits[0]})
  }

  /** The sum of the base scores of a list of hits, or the first failure. */
  function SumScores(hits: seq<Hit>, base: Hit -> Result<real, ScoreError>): Result<real, ScoreError>
    decreases |hits|
  {
    if |hits| == 0 then Ok(0.0)
    else
      match base(hits[0])
      case Err(e) => Err(e)
      case Ok(s) => Plus(s, SumScores(hits[1..], base))
  }

  /** Distinct holds every hit not seen before exactly once. */
  lemma {:induction false} DistinctIsSetOfNewHits(hits: seq<Hit>, seen: set<Hit>)
    ensures var d := Distinct(hits, seen);
      (forall h :: h in d <==> h in hits && h !in seen)
      && (forall i, j | 0 <= i < j < |d| :: d[i] != d[j])
    decreases |hits|
  {
    if |hits| > 0 {
      var h0 := hits[0];
      assert hits == [h0] + hits[1..];
      if h0 in seen {
        DistinctIsSetOfNewHits(hits[1..], seen);
      } else {
        DistinctIsSetOfNewHits(hits[1..], seen + {h0});
        var d := Distinct(hits, seen);
        assert d[1..] == Distinct(hits[1..], seen + {h0});
        forall i, j | 0 <= i < j < |d|
          ensures d[i] != d[j]
        {
          if i == 0 {
            assert d[j] in d[1..];
          }
        }
      }
    }
  }

  /** A hit repeated later in the run, or already seen, adds nothing to the distinct hits. */
  lemma {:induction false} DistinctIgnoresRepeat(hits: seq<Hit>, seen: set<Hit>, h: Hit)
    requires h in hits || h in seen
    ensures Distinct(hits + [h], seen) == Distinct(hits, seen)
    decreases |hits|
  {
    if |hits| == 0 {
      assert [h] == hits + [h];
    } else {
      var h0 := hits[0];
      assert (hits + [h])[0] == h0 && (hits + [h])[1..] == hits[1..] + [h];
      if h0 in seen {
        DistinctIgnoresRepeat(hits[1..], seen, h);
      } else {
        assert h == h0 || h in hits[1..] || h in seen;
        DistinctIgnoresRepeat(hits[1..], seen + {h0}, h);
      }
    }
  }

  /** Adding s to a total and then the rest equals adding total + s to the rest. A step for
      the solver only. */
  lemma PlusShift(total: real, s: real, rest: Result<real, ScoreError>)
    ensures Plus(total, Plus(s, rest)) == Plus(total + s, rest)
  {
  }

  /** Adding to a total of 0 changes nothing. A step for the solver only. */
  lemma PlusZero(rest: Result<real, ScoreError>)
    ensures Plus(0.0, rest) == rest
  {
  }

  /** One step of the run: the next hit adds 0 when it was seen before, otherwise its base
      score (or the run fails with its error), and it is seen from then on. */
  lemma SumStep(hits: seq<Hit>, i: nat, seen: set<Hit>, base: Hit -> Result<real, ScoreError>,
                total: real, r: Result<real, ScoreError>, next: set<Hit>)
    requires i < |hits|
    requires hits[i] in seen ==> r == Ok(0.0) && next == seen
    requires hits[i] !in seen ==> r == base(hits[i]) && next == seen + {hits[i]}
    ensures r.Err? ==> Plus(total, SumScores(Distinct(hits[i..], seen), base)) == Err(r.error)
    ensures r.Ok? ==> Plus(total, SumScores(Distinct(hits[i..], seen), base))
                      == Plus(total + r.value, SumScores(Distinct(hits[i + 1..], next), base))
  {
    var h := hits[i];
    assert hits[i..][0] == h && hits[i..][1..] == hits[i + 1..];
    var rest := Distinct(hits[i + 1..], next);
    if h in seen {
      assert Distinct(hits[i..], seen) == rest;
    } else {
      assert Distinct(hits[i..], seen) == [h] + rest;
      assert ([h] + rest)[0] == h && ([h] + rest)[1..] == rest;
      if r.Ok? {
        PlusShift(total, r.value, SumScores(rest, base));
      }
    }
  }

  /** The base score of a hit for clauses with the given descriptor, boost and field. */
  function BaseOf(index: map<string, Segment>, descriptor: seq<real>, boost: real, fieldName: string,
                  decode: Bytes -> Option<seq<real>>, h: Hit): Result<real, ScoreError>
  {
    if h.reader in index then ExpectedScore(descriptor, StoredBytes(index[h.reader], fieldName, h.doc), decode, boost)
    else Err(NoDocValues)
  }

  /** What the driver needs about one clause hit: its clause shares the cache and settings, its
      segment's key is the hit's key, and that clause's base score is the hit's. */
  lemma EventFacts(clauses: seq<DescriptorHashQuery>, cache: DescriptorScoreCache, descriptor: seq<real>,
                   boost: real, fieldName: string, events: seq<ClauseHit>, index: map<string, Segment>,
                   decode: Bytes -> Option<seq<real>>, i: nat)
    requires forall c <- clauses :: c.cache == cache && c.descriptor == descriptor && c.boost == boost && c.fieldName == fieldName
    requires forall e <- events :: e.clause < |clauses| && e.hit.reader in index && index[e.hit.reader].name == e.hit.reader
    requires i < |events|
    ensures var e := events[i];
      && e.clause < |clauses| && e.hit.reader in index
      && var q := clauses[e.clause]; var seg := index[e.hit.reader];
      && q.cache == cache
      && Key(e.hit) == CacheKey(seg.name, e.hit.doc)
      && HitsOf(events)[i] == e.hit
      && BaseOf(index, descriptor, boost, fieldName, decode, e.hit) == q.BaseScore(seg, e.hit.doc, decode)
  {
    var e := events[i];
    assert e in events;
    assert clauses[e.clause] in clauses;
  }

  /** The cache holds a score under the key of a hit exactly when the hit is in `seen`. */
  ghost predicate Tracks(scores: map<string, real>, seen: set<Hit>)
  {
    forall h {:trigger Key(h)} :: Key(h) in scores <==> h in seen
  }

  /** The cache after one score() call on a hit: unchanged for a cached key or a failed base
      score, otherwise holding the base score under the hit's key. */
  function CacheStep(scores: map<string, real>, h: Hit, base: Hit -> Result<real, ScoreError>): map<string, real>
  {
    if Key(h) in scores then scores
    else
      match base(h)
      case Ok(v) => scores[Key(h) := v]
      case Err(_) => scores
  }

  /** One score() call on a hit, from the cache `before` to the cache `after`, returning `s`:
      0 for a cached key, otherwise the base score, stored when it succeeds. */
  ghost predicate ScoredStep(before: map<string, real>, after: map<string, real>, h: Hit,
                             base: Hit -> Result<real, ScoreError>, s: Result<real, ScoreError>)
  {
    && s == (if Key(h) in before then Ok(0.0) else base(h))
    && after == CacheStep(before, h, base)
  }

  /** A score() call on the hit fails: its key is not cached and its base score fails. */
  predicate Fails(scores: map<string, real>, h: Hit, base: Hit -> Result<real, ScoreError>)
  {
    Key(h) !in scores && base(h).Err?
  }

  /** The cache after a run of hits: each hit in turn, up to the first failing base score. */
  function CacheRun(scores: map<string, real>, hits: seq<Hit>, base: Hit -> Result<real, ScoreError>): map<string, real>
    decreases |hits|
  {
    if |hits| == 0 then scores
    else if Fails(scores, hits[0], base) then scores
    else CacheRun(CacheStep(scores, hits[0], base), hits[1..], base)
  }

  /** The cache after the first n hits of a run, each in turn. */
  function CacheUpTo(scores: map<string, real>, hits: seq<Hit>, n: nat, base: Hit -> Result<real, ScoreError>): map<string, real>
    requires n <= |hits|
    decreases n
  {
    if n == 0 then scores else CacheStep(CacheUpTo(scores, hits, n - 1, base), hits[n - 1], base)
  }

  /** None of the first n hits of a run fails. */
  ghost predicate CleanUpTo(scores: map<string, real>, hits: seq<Hit>, n: nat, base: Hit -> Result<real, ScoreError>)
    requires n <= |hits|
    decreases n
  {
    n == 0 || (CleanUpTo(scores, hits, n - 1, base) && !Fails(CacheUpTo(scores, hits, n - 1, base), hits[n - 1], base))
  }

  /** A score() call on the n-th hit that does not fail moves the run's cache on by that hit. */
  lemma CacheUpToStep(scores: map<string, real>, hits: seq<Hit>, n: nat, base: Hit -> Result<real, ScoreError>,
                      before: map<string, real>, after: map<string, real>, s: Result<real, ScoreError>)
    requires n < |hits| && before == CacheUpTo(scores, hits, n, base) && CleanUpTo(scores, hits, n, base)
    requires ScoredStep(before, after, hits[n], base, s) && s.Ok?
    ensures after == CacheUpTo(scores, hits, n + 1, base) && CleanUpTo(scores, hits, n + 1, base)
  {
  }

  /** Once the first n hits of a run have gone through without a failure, the run is the rest
      of it from the cache they left. */
  lemma {:induction false} CacheRunUpTo(scores: map<string, real>, hits: seq<Hit>, n: nat, base: Hit -> Result<real, ScoreError>)
    requires n <= |hits| && CleanUpTo(scores, hits, n, base)
    ensures CacheRun(scores, hits, base) == CacheRun(CacheUpTo(scores, hits, n, base), hits[n..], base)
  {
    if n == 0 {
      assert hits[0..] == hits;
    } else {
      CacheRunUpTo(scores, hits, n - 1, base);
      assert hits[n - 1..][0] == hits[n - 1] && hits[n - 1..][1..] == hits[n..];
    }
  }

  /** A run whose first failure is its n-th hit leaves the cache the first n hits left. */
  lemma CacheRunStops(scores: map<string, real>, hits: seq<Hit>, n: nat, base: Hit -> Result<real, ScoreError>)
    requires n < |hits| && CleanUpTo(scores, hits, n, base) && Fails(CacheUpTo(scores, hits, n, base), hits[n], base)
    ensures CacheRun(scores, hits, base) == CacheUpTo(scores, hits, n, base)
  {
    CacheRunUpTo(scores, hits, n, base);
    assert hits[n..][0] == hits[n];
  }


  /** Every entry of `before` is in `after` with the same score. */
  ghost predicate Keeps(before: map<string, real>, after: map<string, real>)
  {
    forall k <- before :: k in after && after[k] == before[k]
  }

  /** A run never drops or changes an entry the cache already held. */
  lemma {:induction false} CacheRunKeeps(scores: map<string, real>, hits: seq<Hit>, base: Hit -> Result<real, ScoreError>)
    ensures Keeps(scores, CacheRun(scores, hits, base))
    decreases |hits|
  {
    if |hits| > 0 && !(Key(hits[0]) !in scores && base(hits[0]).Err?) {
      var s1 := CacheStep(scores, hits[0], base);
      assert Keeps(scores, s1);
      CacheRunKeeps(s1, hits[1..], base);
    }
  }

  /** Storing a score under a new hit's key tracks that hit as well. */
  lemma TracksStep(scores: map<string, real>, seen: set<Hit>, h: Hit, v: real)
    requires Tracks(scores, seen)
    ensures Tracks(scores[Key(h) := v], seen + {h})
  {
    forall g
      ensures Key(g) in scores[Key(h) := v] <==> g in seen + {h}
    {
      CacheKeyInjective(g.reader, g.doc, h.reader, h.doc);
    }
  }

  /** The hits of a run, as a set. */
  function Elems(hits: seq<Hit>): set<Hit>
    decreases |hits|
  {
    if |hits| == 0 then {} else {hits[0]} + Elems(hits[1..])
  }

  /** Elems holds exactly the hits of the run. */
  lemma {:induction false} ElemsIsSetOf(hits: seq<Hit>)
    ensures forall h :: h in Elems(hits) <==> h in hits
    decreases |hits|
  {
    if |hits| > 0 {
      ElemsIsSetOf(hits[1..]);
      assert hits == [hits[0]] + hits[1..];
    }
  }

  /** No hit of the run that is new at its turn has a failing base score. */
  ghost predicate RunOk(hits: seq<Hit>, seen: set<Hit>, base: Hit -> Result<real, ScoreError>)
    decreases |hits|
  {
    |hits| == 0
    || (hits[0] in seen && RunOk(hits[1..], seen, base))
    || (hits[0] !in seen && base(hits[0]).Ok? && RunOk(hits[1..], seen + {hits[0]}, base))
  }

  /** The distinct-hit total exists exactly when no new hit of the run fails. */
  lemma {:induction false} SumOkIffRunOk(hits: seq<Hit>, seen: set<Hit>, base: Hit -> Result<real, ScoreError>)
    ensures SumScores(Distinct(hits, seen), base).Ok? <==> RunOk(hits, seen, base)
    decreases |hits|
  {
    if |hits| > 0 {
      var h0, rest := hits[0], hits[1..];
      if h0 in seen {
        SumOkIffRunOk(rest, seen, base);
      } else {
        var d := Distinct(rest, seen + {h0});
        assert Distinct(hits, seen) == [h0] + d;
        assert ([h0] + d)[0] == h0 && ([h0] + d)[1..] == d;
        SumOkIffRunOk(rest, seen + {h0}, base);
      }
    }
  }

  /** A run that does not fail leaves a cache holding the keys of exactly the hits seen
      before or during it. */
  lemma {:induction false} CacheRunTracks(scores: map<string, real>, hits: seq<Hit>, seen: set<Hit>,
                                          base: Hit -> Result<real, ScoreError>)
    requires Tracks(scores, seen) && RunOk(hits, seen, base)
    ensures Tracks(CacheRun(scores, hits, base), seen + Elems(hits))
    decreases |hits|
  {
    if |hits| == 0 {
      assert seen + Elems(hits) == seen;
    } else {
      var h0, rest := hits[0], hits[1..];
      var after := CacheRun(scores, hits, base);
      if h0 in seen {
        assert Key(h0) in scores;
        assert after == CacheRun(scores, rest, base);
        CacheRunTracks(scores, rest, seen, base);
        assert seen + Elems(hits) == seen + Elems(rest);
      } else {
        assert Key(h0) !in scores;
        var s1 := scores[Key(h0) := base(h0).value];
        assert after == CacheRun(s1, rest, base);
        TracksStep(scores, seen, h0, base(h0).value);
        CacheRunTracks(s1, rest, seen + {h0}, base);
        assert seen + Elems(hits) == seen + {h0} + Elems(rest);
      }
    }
  }

  /** A run that does not fail leaves each hit that was new to the cache under its base
      score. */
  lemma {:induction false} CacheRunValues(scores: map<string, real>, hits: seq<Hit>, seen: set<Hit>,
                                          base: Hit -> Result<real, ScoreError>)
    requires Tracks(scores, seen) && RunOk(hits, seen, base)
    ensures var after := CacheRun(scores, hits, base);
      forall h <- hits :: h !in seen ==> Key(h) in after && base(h) == Ok(after[Key(h)])
    decreases |hits|
  {
    if |hits| > 0 {
      var after := CacheRun(scores, hits, base);
      var h0, rest := hits[0], hits[1..];
      assert hits == [h0] + rest;
      if h0 in seen {
        assert Key(h0) in scores;
        assert after == CacheRun(scores, rest, base);
        CacheRunValues(scores, rest, seen, base);
        forall h | h in hits && h !in seen
          ensures Key(h) in after && base(h) == Ok(after[Key(h)])
        {
          assert h in rest;
        }
      } else {
        assert Key(h0) !in scores;
        var v := base(h0).value;
        var s1 := scores[Key(h0) := v];
        assert after == CacheRun(s1, rest, base);
        TracksStep(scores, seen, h0, v);
        CacheRunValues(s1, rest, seen + {h0}, base);
        CacheRunKeeps(s1, rest, base);
        assert Key(h0) in after && after[Key(h0)] == v;
        forall h | h in hits && h !in seen
          ensures Key(h) in after && base(h) == Ok(after[Key(h)])
        {
          if h != h0 {
            assert h in rest;
          }
        }
      }
    }
  }

  /** Midway through a run, before its i-th clause hit: the distinct-hit total of the whole run
      is the total so far plus that of the hits from the i-th on that are not in `current`. */
  ghost predicate SumInv(events: seq<ClauseHit>, base: Hit -> Result<real, ScoreError>, i: nat, total: real,
                         seen: set<Hit>, current: set<Hit>)
  {
    && i <= |events|
    && SumScores(Distinct(HitsOf(events), seen), base) == Plus(total, SumScores(Distinct(HitsOf(events)[i..], current), base))
  }

  /** What a run leaves in a cache that holds the keys of exactly the hits in `seen`: every
      earlier entry as it was; and when no new hit fails, the keys of exactly the hits seen
      before or during the run, each new hit under its base score. */
  lemma CacheRunFacts(scores: map<string, real>, hits: seq<Hit>, seen: set<Hit>, base: Hit -> Result<real, ScoreError>)
    requires Tracks(scores, seen)
    ensures var after := CacheRun(scores, hits, base);
      && Keeps(scores, after)
      && (SumScores(Distinct(hits, seen), base).Ok? ==>
            && Tracks(after, seen + Elems(hits))
            && forall h <- hits :: h !in seen ==> Key(h) in after && base(h) == Ok(after[Key(h)]))
  {
    CacheRunKeeps(scores, hits, base);
    SumOkIffRunOk(hits, seen, base);
    if RunOk(hits, seen, base) {
      CacheRunTracks(scores, hits, seen, base);
      CacheRunValues(scores, hits, seen, base);
    }
  }

  /** At the end of a run the total so far is the distinct-hit total of the whole run. */
  lemma SumInvDone(events: seq<ClauseHit>, base: Hit -> Result<real, ScoreError>, total: real,
                   seen: set<Hit>, current: set<Hit>)
    requires SumInv(events, base, |events|, total, seen, current)
    ensures SumScores(Distinct(HitsOf(events), seen), base) == Ok(total)
  {
    assert HitsOf(events)[|events|..] == [];
  }

  /** Where a run over the clause hits stands before the i-th: the cache holds the keys of
      exactly the hits in `current`, the total so far completes to the sum over all hits, and
      the cache is what the first i hits, none of them failing, left of the cache `start`. */
  ghost predicate Progress(events: seq<ClauseHit>, base: Hit -> Result<real, ScoreError>, i: nat, total: real,
                           seen: set<Hit>, current: set<Hit>, scores: map<string, real>, start: map<string, real>)
  {
    && i <= |events|
    && Tracks(scores, current)
    && SumInv(events, base, i, total, seen, current)
    && scores == CacheUpTo(start, HitsOf(events), i, base)
    && CleanUpTo(start, HitsOf(events), i, base)
  }

  /** A run starts from nothing added and every hit still to come. */
  lemma ProgressStart(events: seq<ClauseHit>, base: Hit -> Result<real, ScoreError>, seen: set<Hit>, scores: map<string, real>)
    requires Tracks(scores, seen)
    ensures Progress(events, base, 0, 0.0, seen, seen, scores, scores)
  {
    assert HitsOf(events)[0..] == HitsOf(events);
    PlusZero(SumScores(Distinct(HitsOf(events), seen), base));
  }

  /** A run past the last hit has its sum in hand and the cache the whole run leaves. */
  lemma ProgressDone(events: seq<ClauseHit>, base: Hit -> Result<real, ScoreError>, total: real, seen: set<Hit>,
                     current: set<Hit>, scores: map<string, real>, start: map<string, real>)
    requires Progress(events, base, |events|, total, seen, current, scores, start)
    ensures SumScores(Distinct(HitsOf(events), seen), base) == Ok(total)
    ensures scores == CacheRun(start, HitsOf(events), base)
  {
    SumInvDone(events, base, total, seen, current);
    CacheRunUpTo(start, HitsOf(events), |events|, base);
    assert HitsOf(events)[|events|..] == [];
  }

  /** The i-th clause hit: its clause scores the document through the shared cache, the run
      total moves one hit on, and the cache then holds exactly the keys of the hits seen. */
  method ScoreEvent(clauses: seq<DescriptorHashQuery>, cache: DescriptorScoreCache, descriptor: seq<real>,
                    boost: real, fieldName: string, events: seq<ClauseHit>, index: map<string, Segment>,
                    decode: Bytes -> Option<seq<real>>, ghost base: Hit -> Result<real, ScoreError>, i: nat,
                    ghost total: real, ghost seen: set<Hit>, ghost current: set<Hit>, ghost start: map<string, real>)
    returns (s: Result<real, ScoreError>, ghost next: set<Hit>)
    requires forall c <- clauses :: c.cache == cache && c.descriptor == descriptor && c.boost == boost && c.fieldName == fieldName
    requires forall e <- events :: e.clause < |clauses| && e.hit.reader in index && index[e.hit.reader].name == e.hit.reader
    requires forall h :: base(h) == BaseOf(index, descriptor, boost, fieldName, decode, h)
    requires i < |events|
    requires Progress(events, base, i, total, seen, current, cache.scores, start)
    modifies cache
    ensures s.Err? ==> cache.scores == CacheRun(start, HitsOf(events), base)
    ensures s.Err? ==> SumScores(Distinct(HitsOf(events), seen), base) == Err(s.error)
    ensures s.Ok? ==> Progress(events, base, i + 1, total + s.value, seen, next, cache.scores, start)
  {
    var e := events[i];
    var q := clauses[e.clause];
    var seg := index[e.hit.reader];
    EventFacts(clauses, cache, descriptor, boost, fieldName, events, index, decode, i);
    ghost var before := cache.scores;
    s := q.Score(seg, e.hit.doc, decode);
    next := if e.hit in current then current else current + {e.hit};
    if s.Ok? && e.hit !in current {
      forall h
        ensures Key(h) in cache.scores <==> h in next
      {
        CacheKeyInjective(h.reader, h.doc, e.hit.reader, e.hit.doc);
      }
    }
    SumStep(HitsOf(events), i, current, base, total, s, next);
    if s.Err? {
      CacheRunStops(start, HitsOf(events), i, base);
    } else {
      CacheUpToStep(start, HitsOf(events), i, base, before, cache.scores, s);
    }
  }

  /** The clause hits from the i-th on, in a run that has reached `Progress`: the result is
      the sum over the whole run and the cache is what the whole run leaves. */
  method ScoreFrom(clauses: seq<DescriptorHashQuery>, cache: DescriptorScoreCache, descriptor: seq<real>,
                   boost: real, fieldName: string, events: seq<ClauseHit>, index: map<string, Segment>,
                   decode: Bytes -> Option<seq<real>>, ghost base: Hit -> Result<real, ScoreError>, i: nat,
                   total: real, ghost seen: set<Hit>, ghost current: set<Hit>, ghost start: map<string, real>)
    returns (r: Result<real, ScoreError>)
    requires forall c <- clauses :: c.cache == cache && c.descriptor == descriptor && c.boost == boost && c.fieldName == fieldName
    requires forall e <- events :: e.clause < |clauses| && e.hit.reader in index && index[e.hit.reader].name == e.hit.reader
    requires forall h :: base(h) == BaseOf(index, descriptor, boost, fieldName, decode, h)
    requires Progress(events, base, i, total, seen, current, cache.scores, start)
    modifies cache
    ensures r == SumScores(Distinct(HitsOf(events), seen), base)
    ensures cache.scores == CacheRun(start, HitsOf(events), base)
    decreases |events| - i
  {
    if i == |events| {
      ProgressDone(events, base, total, seen, current, cache.scores, start);
      return Ok(total);
    }
    var s, next := ScoreEvent(clauses, cache, descriptor, boost, fieldName, events, index, decode, base, i, total, seen, current, start);
    if s.Err? {
      return Err(s.error);
    }
    r := ScoreFrom(clauses, cache, descriptor, boost, fieldName, events, index, decode, base, i + 1, total + s.value, seen, next, start);
  }

  /** The disjunction adding up the clause scores of a run of clause hits: all clauses share
      one cache, descriptor, boost and field, and each hit's segment prints as its reader text.
      When the cache holds the keys of exactly the hits in `seen`, the total is the sum of the
      base scores of the distinct hits not in `seen`, each counted once however often it
      recurs, and the cache is what the run leaves: every earlier entry as it was and, when no
      hit fails, exactly the keys of the hits seen, each new one under its base score. The run
      stops at the first failure. */
  method ScoreHits(clauses: seq<DescriptorHashQuery>, cache: DescriptorScoreCache, descriptor: seq<real>,
                   boost: real, fieldName: string, events: seq<ClauseHit>, index: map<string, Segment>,
                   decode: Bytes -> Option<seq<real>>, ghost base: Hit -> Result<real, ScoreError>,
                   ghost seen: set<Hit>)
    returns (r: Result<real, ScoreError>)
    requires forall c <- clauses :: c.cache == cache && c.descriptor == descriptor && c.boost == boost && c.fieldName == fieldName
    requires forall e <- events :: e.clause < |clauses| && e.hit.reader in index && index[e.hit.reader].name == e.hit.reader
    requires forall h :: base(h) == BaseOf(index, descriptor, boost, fieldName, decode, h)
    requires Tracks(cache.scores, seen)
    modifies cache
    ensures r == SumScores(Distinct(HitsOf(events), seen), base)
    ensures cache.scores == CacheRun(old(cache.scores), HitsOf(events), base)
    ensures Keeps(old(cache.scores), cache.scores)
    ensures r.Ok? ==> Tracks(cache.scores, seen + Elems(HitsOf(events)))
    ensures r.Ok? ==> forall h <- HitsOf(events) :: h !in seen ==>
      Key(h) in cache.scores && base(h) == Ok(cache.scores[Key(h)])
  {
    ghost var before := cache.scores;
    ProgressStart(events, base, seen, before);
    r := ScoreFrom(clauses, cache, descriptor, boost, fieldName, events, index, decode, base, 0, 0.0, seen, seen, before);
    CacheRunFacts(before, HitsOf(events), seen, base);
  }

}
