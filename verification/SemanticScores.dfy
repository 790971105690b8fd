/** What a query's meaning scores each record: its best chunk. The embeddings may
    come from the cache; the scores are those of embedding everything anew. */
module SemanticScores {
  import opened Text
  import opened ScopedModel
  import opened Windows
  import opened EmbeddingCache

  /** The similarity of a query to a vector, or an error. */
  type Similarity = Vector -> Option<real>

  /** Each record with a chunk has the score of its best one. */
  ghost predicate Best(chunks: seq<Chunk>, score: Chunk -> Option<real>, scores: map<string, real>) {
    && (forall c :: c in chunks ==>
          score(c).Some? && c.recordID in scores && score(c).value <= scores[c.recordID])
    && (forall r :: r in scores ==> exists c :: c in chunks && c.recordID == r && score(c) == Some(scores[r]))
  }

  lemma BestUnique(chunks: seq<Chunk>, score: Chunk -> Option<real>, a: map<string, real>, b: map<string, real>)
    requires Best(chunks, score, a) && Best(chunks, score, b)
    ensures a == b
  {
    forall r | r in a || r in b ensures r in a && r in b && a[r] == b[r] {
      if r in a {
        var c :| c in chunks && c.recordID == r && score(c) == Some(a[r]);
      }
      if r in b {
        var c :| c in chunks && c.recordID == r && score(c) == Some(b[r]);
      }
    }
  }

  /** The score of a chunk embedded on the spot. */
  ghost function Direct(e: Embedder, like: Similarity): Chunk -> Option<real> {
    (c: Chunk) => like(e.embed(c.text))
  }

  /** The loop over chunks for one query. */
  method ScoreChunks(chunks: seq<Chunk>, vectors: map<string, Vector>, like: Similarity, ghost e: Embedder)
    returns (ok: bool, scores: map<string, real>)
    requires Embedded(chunks, e, vectors)
    ensures ok <==> forall c :: c in chunks ==> Direct(e, like)(c).Some?
    ensures ok ==> Best(chunks, Direct(e, like), scores)
  {
    scores := map[];
    for n := 0 to |chunks|
      invariant Best(chunks[..n], Direct(e, like), scores)
    {
      var c := chunks[n];
      var score := like(vectors[c.id]);
      assert score == Direct(e, like)(c);
      if score.None? {
        return false, map[];
      }
      NextBest(chunks, n, Direct(e, like), scores);
      if c.recordID !in scores || score.value > scores[c.recordID] {
        scores := scores[c.recordID := score.value];
      }
    }
    assert chunks[..|chunks|] == chunks;
    ok := true;
  }

  lemma NextBest(chunks: seq<Chunk>, n: nat, score: Chunk -> Option<real>, scores: map<string, real>)
    requires n < |chunks| && Best(chunks[..n], score, scores) && score(chunks[n]).Some?
    ensures var c, v := chunks[n], score(chunks[n]).value;
            Best(chunks[..n + 1], score,
                 if c.recordID !in scores || v > scores[c.recordID] then scores[c.recordID := v] else scores)
  {
    var c, v, next := chunks[n], score(chunks[n]).value, chunks[..n + 1];
    var after := if c.recordID !in scores || v > scores[c.recordID] then scores[c.recordID := v] else scores;
    assert next[n] == c;
    forall d | d in next ensures d == c || d in chunks[..n] {}
    forall r | r in after ensures exists d :: d in next && d.recordID == r && score(d) == Some(after[r]) {
      if r == c.recordID && after != scores {
        assert c in next;
      } else {
        var d :| d in chunks[..n] && d.recordID == r && score(d) == Some(scores[r]);
        assert d in next;
      }
    }
  }

  /** A query as it is embedded: trimmed, and cut to the length of a chunk. */
  function Prepared(query: string): (text: string)
    ensures text <= Trim(query) && |text| <= 2000 && (|Trim(query)| <= 2000 ==> text == Trim(query))
    ensures |Trim(query)| >= 2000 ==> |text| == 2000
  {
    if |Trim(query)| <= CHUNK then Trim(query) else Trim(query)[..CHUNK]
  }

  function AllPrepared(queries: seq<string>): (texts: seq<string>)
    ensures |texts| == |queries| && forall q :: 0 <= q < |queries| ==> texts[q] == Prepared(queries[q])
  {
    seq(|queries|, q requires 0 <= q < |queries| => Prepared(queries[q]))
  }

  method PrepareQueries(queries: seq<string>) returns (ok: bool, texts: seq<string>)
    ensures ok <==> forall q :: 0 <= q < |queries| ==> !Blank(queries[q])
    ensures ok ==> texts == AllPrepared(queries)
  {
    texts := [];
    for q := 0 to |queries|
      invariant |texts| == q && forall p :: 0 <= p < q ==> texts[p] == Prepared(queries[p]) && !Blank(queries[p])
    {
      var text := Prepared(queries[q]);
      if text == "" {
        return false, texts;
      }
      texts := texts + [text];
    }
    ok := true;
  }

  /** semanticScoreSets: one score table for each query, the same whatever the cache
      held. answer is how the embedder answers each batch of texts it is sent, and
      ask how it answers the queries. */
  method ScoreSets(store: EmbeddingStore, documents: seq<Document>, embedder: Option<Embedder>, answer: nat -> Answer,
                   queries: seq<string>, ask: seq<string> -> Option<seq<Similarity>>)
    returns (ok: bool, sets: seq<map<string, real>>)
    requires forall i, j :: 0 <= i < j < |documents| ==> documents[i].id != documents[j].id
    requires embedder.Some? ==> Honest(store.rows, embedder.value)
    modifies store
    ensures ok <==>
              && embedder.Some? && queries != []
              && Answered(old(store.rows), store.secretLike, AllChunks(documents), embedder.value, answer)
              && (forall q :: 0 <= q < |queries| ==> !Blank(queries[q]))
              && ask(AllPrepared(queries)).Some? && |ask(AllPrepared(queries)).value| == |queries|
              && forall q :: 0 <= q < |queries| ==>
                   forall c :: c in AllChunks(documents) ==>
                     Direct(embedder.value, ask(AllPrepared(queries)).value[q])(c).Some?
    ensures ok ==> |sets| == |queries| && forall q :: 0 <= q < |queries| ==>
                     Best(AllChunks(documents), Direct(embedder.value, ask(AllPrepared(queries)).value[q]), sets[q])
  {
    hide Best, Direct, Honest, AllChunks, Embedded, Savable, Missing, Blank, Prepared;
    sets := [];
    if embedder.None? || queries == [] {
      return false, sets;
    }
    var e := embedder.value;
    var chunks := SemanticChunks(documents);
    ChunksDistinct(documents);
    var vectors;
    ghost var sent, saved, pruned;
    ok, vectors, sent, saved, pruned := store.Prepare(chunks, e, answer);
    if !ok {
      return;
    }
    var texts;
    ok, texts := PrepareQueries(queries);
    if !ok {
      return;
    }
    var asked := ask(texts);
    if asked.None? || |asked.value| != |texts| {
      return false, sets;
    }
    ok, sets := ScoreEach(chunks, vectors, asked.value, e);
  }

  /** The loop over queries. */
  method ScoreEach(chunks: seq<Chunk>, vectors: map<string, Vector>, likes: seq<Similarity>, ghost e: Embedder)
    returns (ok: bool, sets: seq<map<string, real>>)
    requires Embedded(chunks, e, vectors)
    ensures ok <==> forall q :: 0 <= q < |likes| ==> forall c :: c in chunks ==> Direct(e, likes[q])(c).Some?
    ensures ok ==> |sets| == |likes| && forall q :: 0 <= q < |likes| ==> Best(chunks, Direct(e, likes[q]), sets[q])
  {
    hide Best, Direct, Embedded;
    sets := [];
    for q := 0 to |likes|
      invariant |sets| == q
      invariant forall p :: 0 <= p < q ==> Best(chunks, Direct(e, likes[p]), sets[p])
      invariant forall p :: 0 <= p < q ==> forall c :: c in chunks ==> Direct(e, likes[p])(c).Some?
    {
      var scores;
      ok, scores := ScoreChunks(chunks, vectors, likes[q], e);
      if !ok {
        return;
      }
      sets := sets + [scores];
    }
    ok := true;
  }

  /** The embedder answers every batch of missing texts in full, and each vector can be stored. */
  ghost predicate Answered(rows: map<string, Row>, secretLike: string -> bool, chunks: seq<Chunk>, e: Embedder,
                           answer: nat -> Answer) {
    var missing := Missing(rows, e.model, chunks);
    && (forall b :: 0 <= b < Batches(|missing|) ==> answer(b).Full?)
    && (forall k :: 0 <= k < |missing| ==> Savable(secretLike, e, missing[k]))
  }

  /** Two runs that both succeed agree, however different their caches were. */
  lemma CacheDoesNotShow(documents: seq<Document>, e: Embedder, likes: seq<Similarity>, a: seq<map<string, real>>,
                         b: seq<map<string, real>>)
    requires |a| == |b| == |likes|
    requires forall q :: 0 <= q < |likes| ==> Best(AllChunks(documents), Direct(e, likes[q]), a[q])
    requires forall q :: 0 <= q < |likes| ==> Best(AllChunks(documents), Direct(e, likes[q]), b[q])
    ensures a == b
  {
    hide Best, AllChunks, Direct;
    forall q | 0 <= q < |likes| ensures a[q] == b[q] {
      BestUnique(AllChunks(documents), Direct(e, likes[q]), a[q], b[q]);
    }
  }
}
