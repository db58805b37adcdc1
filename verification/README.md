# Descriptor query model (elasticsearch-image)

This is a Dafny model of the descriptor-query path of the elasticsearch-image plugin. A
descriptor query holds an image descriptor, which is a vector of doubles. It asks for
documents whose stored descriptor falls into the same hash buckets, then re-scores every
candidate exactly by distance.

The model covers five parts:

- **Scoring** (`descriptor_scorer.dfy`, module `DescriptorScorer`). `getDistance` is the
  squared Euclidean distance, computed by a loop. Its result goes through the piecewise map
  `2 - d` (when `d <= 1`) or `1 / d` (otherwise), multiplied by the boost. `freq` is always 1.
- **The per-query score cache** (`score_cache.dfy`, module `ScoreCache`). This is a class whose
  `scores` map is read by `GetScore` and updated in place by `SetScore`.
- **The hash clause** (`hash_query.dfy`, module `HashQuery`). Its scorer checks the shared
  cache under the key `reader + ":" + docId`. A cached document contributes 0. Otherwise the
  scorer computes the score, stores it and returns it. The module also covers `toString`, the
  weight's text, normalisation, `scorer` ("no postings, no scorer") and `explain`.
  `dedup.dfy` (module `Dedup`) drives a sequence of clause hits through one shared cache, as
  the disjunction does. It proves that the total is the sum of base scores over *distinct*
  (reader, document) pairs.
- **The parser** (`query_parser.dfy`, module `QueryParser`). It reads a token sequence shaped
  like `{field: {descriptor: [...], hash: ..., boost: ...}}` with a token loop. It rejects a
  missing field name, unknown keys and a missing hash. It then builds one SHOULD clause per hash
  code, and all clauses share one fresh cache.
- **The builder** (`query_builder.dfy`, module `QueryBuilder`). It has fluent setters and
  `doXContent`, which writes the keys in a fixed order behind their guards. The boost uses the
  sentinel -1. A round-trip lemma connects the builder to the parser.

Supporting modules:

- `wrappers.dfy` provides `Option` and `Result`.
- `text.dfy` provides `Integer.toString` and proves it injective.
- `xcontent.dfy` provides the token datatype and the output builder.

Numbers are modelled as reals, not as IEEE doubles or floats. Several external calls become
parameters:

- the byte decoder `SerializationUtils.toDoubleArray`: `decode: Bytes -> Option<seq<real>>`;
- `HashEnum.getByName`, the two hash generators, the text of a number token, the number a
  string token reads as, and `Float.toString`: fields of `Externals` or function parameters.

Index segments are values (`Segment`). Each has the text its reader prints, its postings per
term and its binary doc values per field.

## Model

| member | source | states |
|---|---|---|
| DescriptorScorer.SquaredDistance | src/main/java/org/elasticsearch/index/query/descriptor/AbstractDescriptorScorer.java:65-71 | The sum of squared component differences is never negative |
| DescriptorScorer.GetDistance | src/main/java/org/elasticsearch/index/query/descriptor/AbstractDescriptorScorer.java:62-72 | The accumulating loop returns the sum over i of (d1[i] - d2[i])^2; both vectors must have the same length (the assertion on line 63) |
| DescriptorScorer.SquaredDistanceSymmetric | src/main/java/org/elasticsearch/index/query/descriptor/AbstractDescriptorScorer.java:62-72 | The distance does not depend on the order of its arguments |
| DescriptorScorer.SquaredDistanceZeroIff | src/main/java/org/elasticsearch/index/query/descriptor/AbstractDescriptorScorer.java:62-72 | The distance is 0 if and only if the two vectors are equal |
| DescriptorScorer.Similarity | src/main/java/org/elasticsearch/index/query/descriptor/AbstractDescriptorScorer.java:51-55 | A distance of at most 1 maps into [1, 2]; a larger distance maps into (0, 1) |
| DescriptorScorer.DistanceScore | src/main/java/org/elasticsearch/index/query/descriptor/AbstractDescriptorScorer.java:51-56 | A distance of at most 1 scores 2 * boost - distance * boost; a larger distance scores s with s * distance == boost, that is boost / distance |
| DescriptorScorer.SimilarityStrictlyDecreasing | src/main/java/org/elasticsearch/index/query/descriptor/AbstractDescriptorScorer.java:51-55 | Over all non-negative distances, a larger distance gives a strictly smaller similarity, across the branch point too |
| DescriptorScorer.SimilarityLipschitz | src/main/java/org/elasticsearch/index/query/descriptor/AbstractDescriptorScorer.java:51-55 | Both branches give 1 at distance 1; the similarity never falls by more than the distance grows, so the map is continuous and non-increasing |
| DescriptorScorer.NearScoreBounds | src/main/java/org/elasticsearch/index/query/descriptor/AbstractDescriptorScorer.java:51-56 | With distance at most 1 and a non-negative boost, the score lies in [boost, 2 * boost] |
| DescriptorScorer.FarScoreBounds | src/main/java/org/elasticsearch/index/query/descriptor/AbstractDescriptorScorer.java:53-56 | With distance above 1 and a positive boost, the score lies in (0, boost) |
| DescriptorScorer.DistanceScoreStrictlyDecreasing | src/main/java/org/elasticsearch/index/query/descriptor/AbstractDescriptorScorer.java:49-56 | With a positive boost, the score strictly decreases as the distance grows |
| DescriptorScorer.ExactMatchScore | src/main/java/org/elasticsearch/index/query/descriptor/AbstractDescriptorScorer.java:49-56 | A descriptor compared with itself scores exactly 2 * boost; with a positive boost, any other descriptor of the same length scores less |
| DescriptorScorer.ExpectedScore | src/main/java/org/elasticsearch/index/query/descriptor/AbstractDescriptorScorer.java:45-59 | A score is produced if and only if the document has stored bytes, they decode, and the lengths agree; every other case is a scoring error |
| DescriptorScorer.ExpectedScoreRange | src/main/java/org/elasticsearch/index/query/descriptor/AbstractDescriptorScorer.java:45-59 | With a positive boost, every produced score lies in (0, 2 * boost] and equals 2 * boost exactly when the stored descriptor is the query's |
| DescriptorScorer.Score | src/main/java/org/elasticsearch/index/query/descriptor/AbstractDescriptorScorer.java:36-60 | score() computes exactly ExpectedScore: decode, distance loop, piecewise map, times boost, or the failure |
| DescriptorScorer.Freq | src/main/java/org/elasticsearch/index/query/descriptor/AbstractDescriptorScorer.java:74-77 | freq() is always 1 |
| DescriptorScorer.DistanceUnchecked | src/main/java/org/elasticsearch/index/query/descriptor/AbstractDescriptorScorer.java:62-72 | With the assertion disabled, the loop fails exactly when the stored vector is shorter than the query |
| DescriptorScorer.ScoreUnchecked | src/main/java/org/elasticsearch/index/query/descriptor/AbstractDescriptorScorer.java:45-59 | score() as it runs with assertions disabled produces a value only for decoded vectors at least as long as the query |
| DescriptorScorer.TruncatedDistanceCounterexample | src/main/java/org/elasticsearch/index/query/descriptor/AbstractDescriptorScorer.java:62-72 | For query [0] and stored [0, 5], the unchecked score is the exact-match 2 * boost, while the checked score is a dimension mismatch |
| ScoreCache.DescriptorScoreCache.constructor | src/main/java/org/elasticsearch/index/query/descriptor/DescriptorScoreCache.java:11 | A new cache holds no keys |
| ScoreCache.DescriptorScoreCache.GetScore | src/main/java/org/elasticsearch/index/query/descriptor/DescriptorScoreCache.java:13-18 | Returns null (None) exactly for a key never stored, otherwise the stored score; the cache is not modified |
| ScoreCache.DescriptorScoreCache.SetScore | src/main/java/org/elasticsearch/index/query/descriptor/DescriptorScoreCache.java:20-22 | The key now maps to the score, overwriting any earlier value; every other entry is unchanged |
| HashQuery.CacheKeyLayout | src/main/java/org/elasticsearch/index/query/descriptor/DescriptorHashQuery.java:143 | The key is the reader text, then a colon, then a colon-free document number, so the reader text is recoverable from the key |
| HashQuery.StoredBytes | src/main/java/org/elasticsearch/index/query/descriptor/AbstractDescriptorScorer.java:42-46 | A document has stored bytes exactly when the segment's doc values for the field hold that document |
| HashQuery.CacheKeyInjective | src/main/java/org/elasticsearch/index/query/descriptor/DescriptorHashQuery.java:143 | Two (reader text, document id) pairs share the key reader + ":" + docId only if they are equal, because the id's decimal text has no colon |
| HashQuery.Advance | src/main/java/org/elasticsearch/index/query/descriptor/DescriptorHashQuery.java:100 | advance(target) returns NO_MORE_DOCS exactly when every posting is before the target, and otherwise a posting at or after it; on ascending postings it is the least such posting |
| HashQuery.AdvanceLandsIff | src/main/java/org/elasticsearch/index/query/descriptor/DescriptorHashQuery.java:100 | On ascending postings, the iterator lands on the document if and only if the document is in the postings |
| HashQuery.BoostSuffix | src/main/java/org/elasticsearch/index/query/descriptor/DescriptorHashQuery.java:44 | The boost suffix is empty exactly for boost 1, and otherwise starts with '^' |
| HashQuery.ExplainMatchAsWritten | src/main/java/org/elasticsearch/index/query/descriptor/DescriptorHashQuery.java:102-110 | The match explanation as written: a "product of:" description whose value is score / boost when the boost is not 1 and the score otherwise (so value times boost is the score), with details [boost, score / boost], or [score] for boost 1 |
| HashQuery.ExplainMatch | src/main/java/org/elasticsearch/index/query/descriptor/DescriptorHashQuery.java:102-110 | The corrected explanation reports the clause's score as its value and differs from the explanation as written in nothing else: same description, same details |
| HashQuery.ExplainMatchIsProduct | src/main/java/org/elasticsearch/index/query/descriptor/DescriptorHashQuery.java:105-110 | The corrected explanation's value equals the product of its details and equals the score |
| HashQuery.ExplainAsWrittenCounterexample | src/main/java/org/elasticsearch/index/query/descriptor/DescriptorHashQuery.java:105-110 | With boost 2 and score 4, the written explanation reports 2, while its "product of" details multiply to 4 |
| HashQuery.DescriptorHashQuery.constructor | src/main/java/org/elasticsearch/index/query/descriptor/DescriptorHashQuery.java:19-25 | The clause keeps its term, descriptor, boost, field name and shared cache |
| HashQuery.DescriptorHashQuery.ToString | src/main/java/org/elasticsearch/index/query/descriptor/DescriptorHashQuery.java:36-46 | The appended text is the term's field and a colon (only when it differs from the given field), then the term text, then the boost suffix |
| HashQuery.DescriptorHashQuery.QueryTextQualified | src/main/java/org/elasticsearch/index/query/descriptor/DescriptorHashQuery.java:39-45 | For any other field, the text is the own-field text qualified by "field:"; with boost 1, the own-field text is just the term text |
| HashQuery.DescriptorHashQuery.QueryText | src/main/java/org/elasticsearch/index/query/descriptor/DescriptorHashQuery.java:37-46 | For another field the text starts with the term's field and a colon; for its own field and boost 1 it is exactly the term text; any other boost adds a ^ suffix |
| HashQuery.DescriptorHashQuery.WeightText | src/main/java/org/elasticsearch/index/query/descriptor/DescriptorHashQuery.java:59 | The weight prints as "weight(" followed by the query text for the empty field and ")" |
| HashQuery.DescriptorHashQuery.ValueForNormalization | src/main/java/org/elasticsearch/index/query/descriptor/DescriptorHashQuery.java:61-64 | The weight's normalisation value is always 1 |
| HashQuery.DescriptorHashQuery.Normalize | src/main/java/org/elasticsearch/index/query/descriptor/DescriptorHashQuery.java:66-68 | normalize changes neither the clause nor its cache |
| HashQuery.DescriptorHashQuery.Scorer | src/main/java/org/elasticsearch/index/query/descriptor/DescriptorHashQuery.java:71-91 | There is no scorer exactly when the term is absent from the segment; otherwise the scorer runs over the term's postings |
| HashQuery.DescriptorHashQuery.Matches | src/main/java/org/elasticsearch/index/query/descriptor/DescriptorHashQuery.java:99-100 | A document matches only if the segment has postings for the term; on ascending postings and a document below NO_MORE_DOCS it matches exactly when it is one of the postings |
| HashQuery.DescriptorHashQuery.BaseScore | src/main/java/org/elasticsearch/index/query/descriptor/DescriptorHashQuery.java:147 | Without a stored descriptor for the document the score fails with no doc values; with a positive boost every computed score lies in (0, 2 * boost] |
| HashQuery.DescriptorHashQuery.Score | src/main/java/org/elasticsearch/index/query/descriptor/DescriptorHashQuery.java:139-150 | A cached key returns 0 and leaves the cache unchanged. Otherwise the base score is returned and, when it succeeds, stored under exactly that key with every other entry kept. After a successful call the key is cached |
| HashQuery.DescriptorHashQuery.Explain | src/main/java/org/elasticsearch/index/query/descriptor/DescriptorHashQuery.java:97-115 | No scorer, or an iterator that misses the document, gives a no-match naming the id and leaves the cache alone. A cached document is explained as written with score 0 and the cache unchanged. Otherwise the base score is explained as written (value score / boost when the boost is not 1) and stored under the document's key, as score() does; a failure is returned and stores nothing |
| Dedup.DistinctIsSetOfNewHits | src/main/java/org/elasticsearch/index/query/descriptor/DescriptorHashQuery.java:144-146 | The distinct hits are exactly the hits not seen before, each listed once |
| Dedup.DistinctIgnoresRepeat | src/main/java/org/elasticsearch/index/query/descriptor/DescriptorHashQuery.java:144-146 | A further hit on a pair already hit or already cached adds nothing to the distinct hits |
| Dedup.SumStep | src/main/java/org/elasticsearch/index/query/descriptor/DescriptorHashQuery.java:143-149 | One hit moves the running total forward: 0 for a seen hit, its base score (or the run's failure) for a new one |
| Dedup.ScoreEvent | src/main/java/org/elasticsearch/index/query/descriptor/DescriptorHashQuery.java:139-150 | One clause's score() call either fails, and then the whole run's distinct-hit sum is that error and the cache is what the whole run leaves, or it keeps the invariant: the cache holds the keys of exactly the hits seen and is the cache the hits so far left, and the total plus what remains is the distinct-hit sum |
| Dedup.ScoreFrom | src/main/java/org/elasticsearch/index/query/descriptor/DescriptorHashQuery.java:143-149 | Scoring the remaining hits of a run that has kept the invariant gives the distinct-hit sum of the whole run and leaves the cache the whole run leaves |
| Dedup.ScoreHits | src/main/java/org/elasticsearch/index/query/descriptor/DescriptorHashQuery.java:143-149 | Driving a run of clause hits through one shared cache totals the base scores of the distinct (reader, document) pairs not already cached, each counted once however many clauses hit it; the run stops at the first failure. The cache afterwards is what the run leaves (each hit in turn, up to the first failure); no entry it held is dropped or changed; after a successful run it holds the keys of exactly the pairs cached before or hit, and each newly hit pair under its base score |
| Dedup.CacheRunUpTo | src/main/java/org/elasticsearch/index/query/descriptor/DescriptorHashQuery.java:143-149 | A run whose first n hits go through without a failure is the rest of the run applied to the cache those n hits left |
| Dedup.CacheRunStops | src/main/java/org/elasticsearch/index/query/descriptor/DescriptorHashQuery.java:143-149 | A run stops at its first failing hit: the cache is what the hits before it left |
| Dedup.CacheRunKeeps | src/main/java/org/elasticsearch/index/query/descriptor/DescriptorScoreCache.java:20-22 | A run never drops or changes an entry the cache already held, since it only stores under keys that were absent |
| Dedup.CacheRunTracks | src/main/java/org/elasticsearch/index/query/descriptor/DescriptorHashQuery.java:143-149 | After a run without a failure the cache holds the keys of exactly the pairs cached before or hit in the run |
| Dedup.CacheRunValues | src/main/java/org/elasticsearch/index/query/descriptor/DescriptorHashQuery.java:146-148 | After a run without a failure every pair new to the cache is stored under its base score |
| Dedup.CacheRunFacts | src/main/java/org/elasticsearch/index/query/descriptor/DescriptorHashQuery.java:143-149 | The cache a run leaves keeps every old entry; when the distinct-hit sum exists it also tracks exactly the old and the hit pairs and holds each new pair's base score |
| Dedup.SumOkIffRunOk | src/main/java/org/elasticsearch/index/query/descriptor/DescriptorHashQuery.java:143-149 | The distinct-hit sum exists exactly when no hit that is new at its turn has a failing base score, in both directions |
| Dedup.ElemsIsSetOf | src/main/java/org/elasticsearch/index/query/descriptor/DescriptorHashQuery.java:143-149 | The set of a run's hits holds exactly the hits of the run |
| Dedup.ProgressDone | src/main/java/org/elasticsearch/index/query/descriptor/DescriptorHashQuery.java:143-149 | Past the last hit the running total is the distinct-hit sum and the cache is what the whole run leaves |
| Text.NatToString | src/main/java/org/elasticsearch/index/query/descriptor/DescriptorQueryParser.java:105 | Decimal text of a natural number: at least one character, all digits, a single character exactly below 10 |
| Text.IntToString | src/main/java/org/elasticsearch/index/query/descriptor/DescriptorQueryParser.java:105 | Integer.toString: digits with a leading '-' exactly for negative numbers |
| Text.IntToStringInjective | src/main/java/org/elasticsearch/index/query/descriptor/DescriptorQueryParser.java:105 | Distinct integers have distinct decimal texts |
| QueryParser.Message | src/main/java/org/elasticsearch/index/query/descriptor/DescriptorQueryParser.java:44-89 | The parser's own error messages: "no field", "does not support [key]" (null for no key), and "No hash found" |
| QueryParser.ScalarText | src/main/java/org/elasticsearch/index/query/descriptor/DescriptorQueryParser.java:77 | text() succeeds exactly on string and number tokens |
| QueryParser.NumberValue | src/main/java/org/elasticsearch/index/query/descriptor/DescriptorQueryParser.java:68-79 | A number token reads as its value; a token that is neither a number nor a string is not a number |
| QueryParser.ReadArray | src/main/java/org/elasticsearch/index/query/descriptor/DescriptorQueryParser.java:66-70 | Reading elements up to END_ARRAY keeps the values already read as a prefix and ends just past an END_ARRAY token; it fails only on end of input or a non-number |
| QueryParser.ReadObject | src/main/java/org/elasticsearch/index/query/descriptor/DescriptorQueryParser.java:59-84 | The key/value loop ends just past an END_OBJECT token, and fails only with errors raised inside the object |
| QueryParser.ReadArrayOfNumbers | src/main/java/org/elasticsearch/index/query/descriptor/DescriptorQueryParser.java:66-75 | An array of number tokens is read in full: same length, same order, and it ends just past END_ARRAY |
| QueryParser.RepeatedBoostOverwrites | src/main/java/org/elasticsearch/index/query/descriptor/DescriptorQueryParser.java:78-79 | Two boost entries in a row leave the second value and the boost key as the current name |
| QueryParser.HashEntry | src/main/java/org/elasticsearch/index/query/descriptor/DescriptorQueryParser.java:76-77 | A hash entry sets the hash to the family getByName gives for its text and changes no other field |
| QueryParser.BoostEntry | src/main/java/org/elasticsearch/index/query/descriptor/DescriptorQueryParser.java:78-79 | A boost entry sets the boost to its number and changes no other field |
| QueryParser.DescriptorEntry | src/main/java/org/elasticsearch/index/query/descriptor/DescriptorQueryParser.java:63-75 | A descriptor entry sets the descriptor to the numbers of its array, resumes just past the array and changes no other field |
| QueryParser.RepeatedHashOverwrites | src/main/java/org/elasticsearch/index/query/descriptor/DescriptorQueryParser.java:76-77 | Two hash entries in a row leave the family of the second text |
| QueryParser.RepeatedDescriptorOverwrites | src/main/java/org/elasticsearch/index/query/descriptor/DescriptorQueryParser.java:63-75 | Two descriptor entries in a row leave the second array's numbers |
| QueryParser.BoostOverwritesAcrossHash | src/main/java/org/elasticsearch/index/query/descriptor/DescriptorQueryParser.java:76-79 | A boost repeated after a hash entry still overwrites the first boost, and the hash keeps its value |
| QueryParser.UnsupportedKeyRejected | src/main/java/org/elasticsearch/index/query/descriptor/DescriptorQueryParser.java:80-81 | A value under any key other than descriptor, hash and boost fails, naming that key |
| QueryParser.ReadQuery | src/main/java/org/elasticsearch/index/query/descriptor/DescriptorQueryParser.java:44-89 | Fails with "no field" exactly when the first token is not a field name; on success, the field name is that token's |
| QueryParser.NoObjectNoHash | src/main/java/org/elasticsearch/index/query/descriptor/DescriptorQueryParser.java:52-89 | A field name not followed by an object leaves the hash unset, so parsing fails with "No hash found" |
| QueryParser.GenerateHashes | src/main/java/org/elasticsearch/index/query/descriptor/DescriptorQueryParser.java:91-99 | Hash generation fails exactly when no descriptor was given |
| QueryParser.ClauseTerm | src/main/java/org/elasticsearch/index/query/descriptor/DescriptorQueryParser.java:105 | A clause's term lies in the field's ".hash" sub-field |
| QueryParser.ClauseTermInjective | src/main/java/org/elasticsearch/index/query/descriptor/DescriptorQueryParser.java:105 | Distinct hash codes give distinct clause terms |
| QueryParser.ReadDescriptorArray | src/main/java/org/elasticsearch/index/query/descriptor/DescriptorQueryParser.java:63-75 | The list-then-array-copy loops read exactly what ReadArray describes |
| QueryParser.ReadQueryObject | src/main/java/org/elasticsearch/index/query/descriptor/DescriptorQueryParser.java:56-86 | The token loop over the object computes exactly what ReadObject describes, starting from the defaults (boost 1) |
| QueryParser.BuildClauses | src/main/java/org/elasticsearch/index/query/descriptor/DescriptorQueryParser.java:101-106 | One SHOULD clause per code, in code order, with term (field.hash, decimal code), the same descriptor, boost and field; all clauses share one fresh, empty cache |
| QueryParser.Parse | src/main/java/org/elasticsearch/index/query/descriptor/DescriptorQueryParser.java:41-109 | Every read error is returned as such; otherwise the result has coordination disabled and one SHOULD clause per generated code, in order, sharing one fresh, empty cache |
| XContent.NumTokens | src/main/java/org/elasticsearch/index/query/descriptor/DescriptorQueryBuilder.java:82 | A number array is written as one number token per element, in order |
| XContent.XContentBuilder.StartNamedObject | src/main/java/org/elasticsearch/index/query/descriptor/DescriptorQueryBuilder.java:78-80 | startObject(name) appends the key and an object opening |
| XContent.XContentBuilder.EndNamedObject | src/main/java/org/elasticsearch/index/query/descriptor/DescriptorQueryBuilder.java:108-109 | endObject appends an object closing |
| XContent.XContentBuilder.StringField | src/main/java/org/elasticsearch/index/query/descriptor/DescriptorQueryBuilder.java:81 | field(name, string) appends the key and the string, or null |
| XContent.XContentBuilder.NumberField | src/main/java/org/elasticsearch/index/query/descriptor/DescriptorQueryBuilder.java:85 | field(name, number) appends the key and the number |
| XContent.XContentBuilder.ArrayField | src/main/java/org/elasticsearch/index/query/descriptor/DescriptorQueryBuilder.java:82 | field(name, double[]) appends the key and the array's numbers in order, or null |
| QueryBuilder.OptionalField | src/main/java/org/elasticsearch/index/query/descriptor/DescriptorQueryBuilder.java:88-106 | A lookup field contributes two tokens, its key and its value, when set, and nothing when null |
| QueryBuilder.BoostPart | src/main/java/org/elasticsearch/index/query/descriptor/DescriptorQueryBuilder.java:84-86 | The boost is written exactly when it differs from the sentinel -1 |
| QueryBuilder.Lookups | src/main/java/org/elasticsearch/index/query/descriptor/DescriptorQueryBuilder.java:88-106 | Nothing is written exactly when every lookup field is null; otherwise the first key written is one of index, type, field, id, routing |
| QueryBuilder.HashAndDescriptor | src/main/java/org/elasticsearch/index/query/descriptor/DescriptorQueryBuilder.java:81-82 | The hash field comes first and the descriptor field third; when the descriptor is set, hash and descriptor take 5 + its length tokens (the array itself, with its two brackets, takes its length + 2), and a null descriptor is a single null, 4 tokens in all |
| QueryBuilder.OptionalTail | src/main/java/org/elasticsearch/index/query/descriptor/DescriptorQueryBuilder.java:84-109 | The tail holds the boost field first when the boost is set, then the lookup fields, and always ends by closing both objects |
| QueryBuilder.Serialize | src/main/java/org/elasticsearch/index/query/descriptor/DescriptorQueryBuilder.java:76-109 | The output opens the query-name object and the field object, holds at least ten tokens and ends by closing both objects |
| QueryBuilder.ExpectedParse | src/main/java/org/elasticsearch/index/query/descriptor/DescriptorQueryParser.java:41-109 | Reading the query succeeds exactly when hash and descriptor are set, no lookup field is written and the hash family is known; it then carries the field, hash, descriptor and boost (1 when unset); with hash and descriptor set, a written lookup field makes it fail as unsupported, naming the first one written |
| QueryBuilder.SerializedHead | src/main/java/org/elasticsearch/index/query/descriptor/DescriptorQueryBuilder.java:78-82 | Inside the query's object come the field's object, then hash and descriptor, always and in that order |
| QueryBuilder.SerializedArray | src/main/java/org/elasticsearch/index/query/descriptor/DescriptorQueryBuilder.java:82-109 | A set descriptor is written as its numbers in order, followed by the optional fields and both closings |
| QueryBuilder.OptionalTailParse | src/main/java/org/elasticsearch/index/query/descriptor/DescriptorQueryBuilder.java:84-108 | The parser takes the optional fields as written: the boost when set; otherwise it fails on the first lookup key written |
| QueryBuilder.DescriptorArrayParse | src/main/java/org/elasticsearch/index/query/descriptor/DescriptorQueryParser.java:63-75 | The written descriptor array becomes the parsed descriptor |
| QueryBuilder.HashValueParse | src/main/java/org/elasticsearch/index/query/descriptor/DescriptorQueryParser.java:76-77 | The written hash name sets the hash family that getByName gives for it |
| QueryBuilder.ParseOfLayout | src/main/java/org/elasticsearch/index/query/descriptor/DescriptorQueryParser.java:41-89 | The parser reads any token sequence laid out as a builder's output back as ExpectedParse says |
| QueryBuilder.ParseOfSerialize | src/main/java/org/elasticsearch/index/query/descriptor/DescriptorQueryBuilder.java:76-110 | Round trip: the output opens the "descriptor" object, and parsing the rest gives back the field name, hash, descriptor and boost (1 when never set). A null hash or descriptor fails on its value, and a set lookup field fails naming its key |
| QueryBuilder.WriteBoostIfSet | src/main/java/org/elasticsearch/index/query/descriptor/DescriptorQueryBuilder.java:84-86 | Appends the boost field only when the boost is not -1 |
| QueryBuilder.WriteIfSet | src/main/java/org/elasticsearch/index/query/descriptor/DescriptorQueryBuilder.java:88-90 | Appends a string field only when it is not null |
| QueryBuilder.WriteHead | src/main/java/org/elasticsearch/index/query/descriptor/DescriptorQueryBuilder.java:78-82 | Appends both object openings, then hash and descriptor |
| QueryBuilder.WriteLookups | src/main/java/org/elasticsearch/index/query/descriptor/DescriptorQueryBuilder.java:88-106 | Appends the set lookup fields in the order index, type, field, id, routing |
| QueryBuilder.WriteTail | src/main/java/org/elasticsearch/index/query/descriptor/DescriptorQueryBuilder.java:84-109 | Appends the optional fields and both closings |
| QueryBuilder.DescriptorQueryBuilder.constructor | src/main/java/org/elasticsearch/index/query/descriptor/DescriptorQueryBuilder.java:30-32 | A new builder has the field name, boost -1 and every other setting null |
| QueryBuilder.DescriptorQueryBuilder.Boost | src/main/java/org/elasticsearch/index/query/descriptor/DescriptorQueryBuilder.java:34-38 | Sets the boost, returns the same builder, and changes nothing else |
| QueryBuilder.DescriptorQueryBuilder.Hash | src/main/java/org/elasticsearch/index/query/descriptor/DescriptorQueryBuilder.java:40-43 | Sets the hash, returns the same builder, and changes nothing else |
| QueryBuilder.DescriptorQueryBuilder.Descriptor | src/main/java/org/elasticsearch/index/query/descriptor/DescriptorQueryBuilder.java:45-48 | Sets the descriptor, returns the same builder, and changes nothing else |
| QueryBuilder.DescriptorQueryBuilder.LookupIndex | src/main/java/org/elasticsearch/index/query/descriptor/DescriptorQueryBuilder.java:50-53 | Sets the lookup index, returns the same builder, and changes nothing else |
| QueryBuilder.DescriptorQueryBuilder.LookupField | src/main/java/org/elasticsearch/index/query/descriptor/DescriptorQueryBuilder.java:55-58 | Sets the lookup field, returns the same builder, and changes nothing else |
| QueryBuilder.DescriptorQueryBuilder.LookupType | src/main/java/org/elasticsearch/index/query/descriptor/DescriptorQueryBuilder.java:60-63 | Sets the lookup type, returns the same builder, and changes nothing else |
| QueryBuilder.DescriptorQueryBuilder.LookupId | src/main/java/org/elasticsearch/index/query/descriptor/DescriptorQueryBuilder.java:65-68 | Sets the lookup id, returns the same builder, and changes nothing else |
| QueryBuilder.DescriptorQueryBuilder.LookupRouting | src/main/java/org/elasticsearch/index/query/descriptor/DescriptorQueryBuilder.java:70-73 | Sets the lookup routing, returns the same builder, and changes nothing else |
| QueryBuilder.DescriptorQueryBuilder.DoXContent | src/main/java/org/elasticsearch/index/query/descriptor/DescriptorQueryBuilder.java:75-110 | Appends exactly Serialize of the builder's settings, whose parse ParseOfSerialize gives |

## Left out

- Floating point. Doubles and floats are reals, so IEEE rounding and the `(float)` cast in
  `score()` are not modelled (AbstractDescriptorScorer.java:56). Neither is NaN from a zero
  boost.
- HashQuery.DescriptorHashQuery.Explain: requires a boost other than 0. The source divides by
  the boost and would report NaN or infinity. It builds the explanation as the source writes
  it; the corrected form with the score as its value is HashQuery.ExplainMatch.
- The lazy fetch of `binaryDocValues` (AbstractDescriptorScorer.java:40-43) is I/O against the
  index. A segment's doc values are part of the `Segment` value instead.
- The byte decoder `SerializationUtils.toDoubleArray` is a parameter that may fail. The source
  hands it `bytesRef.bytes`, the whole backing array of the doc value, without the value's
  offset and length (AbstractDescriptorScorer.java:47). The model passes it exactly the stored
  value, so a decoder that depends on bytes outside the value is not captured.
- DescriptorScorer.ExpectedScore: a dimension mismatch is the error `DimensionMismatch`. With
  JVM assertions enabled the source raises an `AssertionError` at line 63, which is not an
  `Exception`. The `catch` at line 57 therefore does not wrap it as "Failed to calculate
  score". With assertions disabled the loop truncates, as the first finding below shows.
  The model does not tell these kinds of failure apart.
- XContent.XContentBuilder.ArrayField: writes a null value for a null descriptor. This is how
  the model takes `XContentBuilder.field(String, double...)` to behave. That library method
  is not part of this model; XContent.XContentBuilder.StringField takes the same view of a
  null string.
- DescriptorScorer.Score: the thrown "Failed to calculate score" error becomes a `ScoreError`
  result. The assertion `docID() != NO_MORE_DOCS` is a precondition of the host and is not
  modelled.
- HashQuery.DescriptorHashQuery.Score: a failed computation stores nothing and returns the
  error. In the source it throws, so "the key is cached after the call" holds only for
  successful calls.
- The score cache is modelled sequentially. The concurrent map and multi-threaded segment
  scoring are out.
- Lucene machinery is out: `createWeight`, `TermContext`, `TermsEnum`, `PostingsEnum`, the
  `DocIdSetIterator` wrapper, `extractTerms`, and the reader-context and term-state
  assertions. A clause's postings come from the `Segment` value. The text `reader.toString()`
  is the segment's `name`, and the driver assumes it identifies the segment.
- Dedup.ScoreHits: the disjunction's traversal order is its input, a sequence of
  (clause, hit) calls to score(). The ghost set `seen` must name exactly the pairs already
  cached, and each hit's reader text must name its segment. The ghost function `base` stands
  for the clauses' base score and must agree with it on every hit.
- Query.toString() without a field (used by the weight's text) delegates to `toString("")`.
  `ToStringUtils.boost` formats the boost with a `floatText` parameter that stands for
  `Float.toString`.
- `HashEnum.getByName` and the two hash generators are functions in `Externals`. They are
  deterministic, and the model has the two families BIT_SAMPLING and LSH. The parser's
  `IllegalArgumentException` branch for a third family therefore cannot occur
  (DescriptorQueryParser.java:97-98).
- `maxClauseCount` of the boolean query builder is not modelled.
- QueryParser.ReadObject: some cases where the host parser would throw become explicit errors:
  - A hash value that is not a string or a number becomes `NotAScalar`.
  - A descriptor element or boost that is not a number becomes `NotANumber`.
  - A descriptor value that does not open an array becomes `NotAnArray`. The source only
    asserts this (line 64).
  - The end of input inside the object becomes `UnexpectedEnd`.
  - A number token's text comes from `numberText`, and a string token's number from
    `parseNumber`.
  - Boolean tokens are not part of the token datatype.
- QueryParser.Parse: the final `parser.nextToken()` after the object (line 85) only moves the
  host's cursor and is not modelled.
- QueryParser.GenerateHashes: a hash family with a null descriptor fails with
  `MissingDescriptor`, where the library would throw.
- A descriptor array is shared by reference between the parser's clauses. Here it is a value.
- `names()`, the plugin registration, the mapper and the integration harness are out. The
  mapper's only model-relevant item is its `HASH` constant "hash"
  (src/main/java/org/elasticsearch/index/mapper/descriptor/DescriptorMapper.java:26), which is
  `QueryParser.HashSuffix`.

## Findings

| source | as written | input that shows it | evidently intended | confidence | as-written member | corrected member |
|---|---|---|---|---|---|---|
| src/main/java/org/elasticsearch/index/query/descriptor/AbstractDescriptorScorer.java:62-72 | The length check is only a Java `assert`, which is off by default. The loop runs to the query's length, so a longer stored vector is silently truncated. | query [0.0], stored [0.0, 5.0], boost 1: scored 2.0, an exact match | vectors of different lengths are rejected, as the assertion says | medium, not executed | DescriptorScorer.ScoreUnchecked, DescriptorScorer.TruncatedDistanceCounterexample | DescriptorScorer.ExpectedScore, DescriptorScorer.ExpectedScoreRange |
| src/main/java/org/elasticsearch/index/query/descriptor/DescriptorHashQuery.java:105-110 | For boost ≠ 1, explain reports score / boost as the value of a "product of" explanation whose details are the boost and score / boost | boost 2, score 4: the value is 2, but the details multiply to 4 | the explanation's value is the clause's score, the product of its details | medium, not executed | HashQuery.ExplainMatchAsWritten, HashQuery.ExplainAsWrittenCounterexample, HashQuery.DescriptorHashQuery.Explain | HashQuery.ExplainMatch, HashQuery.ExplainMatchIsProduct |
