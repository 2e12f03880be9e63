/** `SimilaritySearcher`: a vector-store query followed by optional reranking and an optional
    relevance-threshold filter. The store and the reranking service are supplied as functions. */
module SimilaritySearcher {
  import opened PyValues
  import opened ContextManager

  /** One search hit: the page content of a retrieved chunk and its relevance score. */
  datatype Hit = Hit(content: string, score: real)

  /** What the store gives back for a query. `Scored` when one of its two relevance score
      functions worked; `Unscored` when both warned and only a plain similarity search was
      possible. */
  datatype StoreAnswer = Scored(hits: seq<Hit>) | Unscored(contents: seq<string>)

  /** A search-pipeline flag is on only when the configuration value is the string 'True'. */
  predicate FlagEnabled(v: PyValue)
    ensures FlagEnabled(v) ==> v.PyStr? && !BoolEquals(true, v)
    ensures v.PyBool? || v.PyNone? ==> !FlagEnabled(v)
  {
    v == PyStr("True")
  }

  /** The keys the searcher reads its two flags from. The default configuration defines
      neither, so both flags are off by default. */
  lemma DefaultsDisableBothFlags()
    ensures !FlagEnabled(Lookup(Defaults(), "RERANKING"))
    ensures !FlagEnabled(Lookup(Defaults(), "RELEVANCE_THRESHOLD"))
    ensures "RERANKING" !in Defaults() && "RELEVANCE_THRESHOLD" !in Defaults()
  {
  }

  /** A bool `True` stored under a flag's key does not switch the flag on. */
  lemma BoolTrueIsNotEnabled()
    ensures !FlagEnabled(PyBool(true))
  {
  }

  // ---------------------------------------------------------------- the threshold filter

  /** `__apply_relevance_threshold_method`: the hits scored strictly above the threshold, in
      their order. */
  function ApplyRelevanceThreshold(results: seq<Hit>, threshold: real): (kept: seq<Hit>)
    ensures |kept| <= |results|
    decreases |results|
  {
    if |results| == 0 then []
    else
      var head := if results[0].score > threshold then [results[0]] else [];
      head + ApplyRelevanceThreshold(results[1..], threshold)
  }

  /** `xs` can be obtained from `ys` by deleting elements. */
  predicate IsSubsequence(xs: seq<Hit>, ys: seq<Hit>)
    decreases |ys|
  {
    if |ys| == 0 then |xs| == 0
    else (|xs| > 0 && xs[0] == ys[0] && IsSubsequence(xs[1..], ys[1..])) || IsSubsequence(xs, ys[1..])
  }

  /** A hit survives exactly when it was among the results and its score is above the threshold. */
  lemma {:induction false} ThresholdKeepsExactly(results: seq<Hit>, threshold: real, h: Hit)
    ensures h in ApplyRelevanceThreshold(results, threshold) <==> h in results && h.score > threshold
    decreases |results|
  {
    if |results| > 0 {
      ThresholdKeepsExactly(results[1..], threshold, h);
      assert h in results <==> h == results[0] || h in results[1..];
    }
  }

  /** Every surviving hit is scored above the threshold. */
  lemma {:induction false} ThresholdScoresAbove(results: seq<Hit>, threshold: real)
    ensures forall i :: 0 <= i < |ApplyRelevanceThreshold(results, threshold)| ==>
      ApplyRelevanceThreshold(results, threshold)[i].score > threshold
    decreases |results|
  {
    if |results| > 0 {
      ThresholdScoresAbove(results[1..], threshold);
    }
  }

  /** The filter keeps the order of its input: the output is a subsequence of it. */
  lemma {:induction false} ThresholdIsSubsequence(results: seq<Hit>, threshold: real)
    ensures IsSubsequence(ApplyRelevanceThreshold(results, threshold), results)
    decreases |results|
  {
    if |results| > 0 {
      var rest := ApplyRelevanceThreshold(results[1..], threshold);
      ThresholdIsSubsequence(results[1..], threshold);
      if results[0].score > threshold {
        var once := [results[0]] + rest;
        assert ApplyRelevanceThreshold(results, threshold) == once;
        assert once[0] == results[0] && once[1..] == rest;
      } else {
        assert ApplyRelevanceThreshold(results, threshold) == rest;
      }
    }
  }

  /** Filtering twice is filtering once. */
  lemma {:induction false} ThresholdIdempotent(results: seq<Hit>, threshold: real)
    ensures ApplyRelevanceThreshold(ApplyRelevanceThreshold(results, threshold), threshold)
         == ApplyRelevanceThreshold(results, threshold)
    decreases |results|
  {
    if |results| > 0 {
      var rest := ApplyRelevanceThreshold(results[1..], threshold);
      ThresholdIdempotent(results[1..], threshold);
      if results[0].score > threshold {
        var once := [results[0]] + rest;
        assert ApplyRelevanceThreshold(results, threshold) == once;
        assert once[0] == results[0] && once[1..] == rest;
        assert ApplyRelevanceThreshold(once, threshold) == [results[0]] + ApplyRelevanceThreshold(rest, threshold);
      } else {
        assert ApplyRelevanceThreshold(results, threshold) == rest;
      }
    }
  }

  // ---------------------------------------------------------------- the fallback scores

  /** The store's results as (content, score) pairs: without a working score function every
      document is given the threshold itself as its score. */
  function StoredHits(answer: StoreAnswer, threshold: real): (hits: seq<Hit>)
    ensures answer.Scored? ==> hits == answer.hits
    ensures answer.Unscored? ==> |hits| == |answer.contents|
    ensures answer.Unscored? ==> forall i :: 0 <= i < |hits| ==> hits[i] == Hit(answer.contents[i], threshold)
  {
    match answer
    case Scored(hits) => hits
    case Unscored(contents) => seq(|contents|, i requires 0 <= i < |contents| => Hit(contents[i], threshold))
  }

  /** Hits scored exactly at the threshold are all dropped by the strict filter. */
  lemma {:induction false} AtThresholdDropped(results: seq<Hit>, threshold: real)
    requires forall i :: 0 <= i < |results| ==> results[i].score == threshold
    ensures ApplyRelevanceThreshold(results, threshold) == []
    decreases |results|
  {
    if |results| > 0 {
      AtThresholdDropped(results[1..], threshold);
    }
  }

  /** The fallback results never pass the threshold filter. */
  lemma FallbackFilteredOut(contents: seq<string>, threshold: real)
    ensures ApplyRelevanceThreshold(StoredHits(Unscored(contents), threshold), threshold) == []
  {
    AtThresholdDropped(StoredHits(Unscored(contents), threshold), threshold);
  }

  /** The page contents of some hits, in order (what is sent to the reranker). */
  function Contents(hits: seq<Hit>): (contents: seq<string>)
    ensures |contents| == |hits|
    ensures forall i :: 0 <= i < |hits| ==> contents[i] == hits[i].content
  {
    seq(|hits|, i requires 0 <= i < |hits| => hits[i].content)
  }

  // ---------------------------------------------------------------- the searcher

  class SimilaritySearcher {
    /** `int(SIMILARITY_SEARCH_K)` and `float(RELEVANCE_THRESHOLD_CUTOFF)`, converted by the caller. */
    const k: int
    const relevanceThreshold: real
    const applyReranking: bool
    const applyRelevanceThreshold: bool
    /** The vector store of a title, queried for the `k` nearest chunks. */
    const store: (string, string, int) -> StoreAnswer
    /** The reranking service: a query and documents to scored documents. */
    const rerank: (string, seq<string>) -> seq<Hit>
    /** Every (title, query) searched so far, in order. */
    var queries: seq<(string, string)>

    constructor (cm: ContextManager, k: int, relevanceThreshold: real,
                 store: (string, string, int) -> StoreAnswer, rerank: (string, seq<string>) -> seq<Hit>)
      ensures this.k == k && this.relevanceThreshold == relevanceThreshold
      ensures this.store == store && this.rerank == rerank
      ensures applyReranking == FlagEnabled(Lookup(cm.cls.config, "RERANKING"))
      ensures applyRelevanceThreshold == FlagEnabled(Lookup(cm.cls.config, "RELEVANCE_THRESHOLD"))
      ensures queries == []
    {
      this.k := k;
      this.relevanceThreshold := relevanceThreshold;
      var reranking := cm.GetConfig("RERANKING");
      var thresholding := cm.GetConfig("RELEVANCE_THRESHOLD");
      this.applyReranking := reranking == PyStr("True");
      this.applyRelevanceThreshold := thresholding == PyStr("True");
      this.store := store;
      this.rerank := rerank;
      this.queries := [];
    }

    /** The hits the store returns for a query, fallback scores included. */
    function Retrieved(title: string, query: string): seq<Hit>
    {
      StoredHits(store(title, query, k), relevanceThreshold)
    }

    /** The hits a search for `query` in the store of `title` returns. */
    function Results(title: string, query: string): (hits: seq<Hit>)
      ensures !applyReranking && !applyRelevanceThreshold ==> hits == Retrieved(title, query)
      ensures applyRelevanceThreshold ==> forall i :: 0 <= i < |hits| ==> hits[i].score > relevanceThreshold
      ensures !applyReranking && applyRelevanceThreshold && store(title, query, k).Unscored? ==> hits == []
    {
      var retrieved := Retrieved(title, query);
      var reranked := if applyReranking then rerank(query, Contents(retrieved)) else retrieved;
      var answer := store(title, query, k);
      ThresholdScoresAbove(reranked, relevanceThreshold);
      FallbackFilteredOut(if answer.Unscored? then answer.contents else [], relevanceThreshold);
      if applyRelevanceThreshold then ApplyRelevanceThreshold(reranked, relevanceThreshold) else reranked
    }

    /** `similarity_search`: the store's hits, reranked when that flag is on, and then
        filtered when the threshold flag is on. */
    method SimilaritySearch(title: string, query: string) returns (results: seq<Hit>)
      modifies this
      ensures queries == old(queries) + [(title, query)]
      ensures results == Results(title, query)
      ensures !applyReranking && !applyRelevanceThreshold ==> results == Retrieved(title, query)
      ensures applyReranking && !applyRelevanceThreshold ==> results == rerank(query, Contents(Retrieved(title, query)))
      ensures !applyReranking && applyRelevanceThreshold ==>
        results == ApplyRelevanceThreshold(Retrieved(title, query), relevanceThreshold)
      ensures applyReranking && applyRelevanceThreshold ==>
        results == ApplyRelevanceThreshold(rerank(query, Contents(Retrieved(title, query))), relevanceThreshold)
    {
      queries := queries + [(title, query)];
      var answer := store(title, query, k);
      match answer {
        case Scored(hits) =>
          results := hits;
        case Unscored(contents) =>
          results := [];
          for i := 0 to |contents|
            invariant results == StoredHits(Unscored(contents[..i]), relevanceThreshold)
          {
            results := results + [Hit(contents[i], relevanceThreshold)];
          }
          assert contents[..|contents|] == contents;
      }
      if applyReranking {
        results := rerank(query, Contents(results));
      }
      if applyRelevanceThreshold {
        results := ApplyRelevanceThreshold(results, relevanceThreshold);
      }
    }
  }
}
