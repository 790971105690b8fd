/** The embedding cache: rows keyed by chunk, valid for one text and one model.
    Preparing an index through it gives what embedding every chunk would give. */
module EmbeddingCache {
  import opened ScopedModel
  import opened Windows
  import opened Text

  const BATCH: nat := 32
  const LONGEST: nat := 16384

  type Vector = seq<real>
  datatype Chunk = Chunk(id: string, recordID: string, text: string)

  /** A stored row. Fingerprints do not collide, so the row names its text; the
      stored vector may fail to decode or have the wrong length. */
  datatype Row = Row(text: string, model: string, dimensions: int, decoded: Option<Vector>)

  datatype Embedder = Embedder(model: string, embed: string -> Vector)

  /** What the embedder answers one batch with: an error, too few vectors, or all of them. */
  datatype Answer = Fails | Short | Full

  predicate Intact(row: Row) {
    row.decoded.Some? && |row.decoded.value| == row.dimensions && 0 < row.dimensions <= LONGEST
  }

  predicate Usable(rows: map<string, Row>, id: string, text: string, model: string) {
    id in rows && rows[id].text == text && rows[id].model == model && Intact(rows[id])
  }

  /** Every usable row of this model holds its own text's embedding. */
  ghost predicate Honest(rows: map<string, Row>, e: Embedder) {
    forall id :: id in rows && rows[id].model == e.model && Intact(rows[id]) ==>
      rows[id].decoded.value == e.embed(rows[id].text)
  }

  function Fresh(e: Embedder, text: string): Row {
    Row(text, e.model, |e.embed(text)|, Some(e.embed(text)))
  }

  /** The chunks with no usable row, in order. */
  function Missing(rows: map<string, Row>, model: string, chunks: seq<Chunk>): (m: seq<Chunk>)
    ensures |m| <= |chunks|
  {
    if chunks == [] then []
    else
      var c := chunks[|chunks| - 1];
      var rest := Missing(rows, model, chunks[..|chunks| - 1]);
      if Usable(rows, c.id, c.text, model) then rest else rest + [c]
  }

  function TextsOf(chunks: seq<Chunk>): seq<string> {
    seq(|chunks|, i requires 0 <= i < |chunks| => chunks[i].text)
  }

  ghost predicate DistinctIDs(chunks: seq<Chunk>) {
    forall i, j :: 0 <= i < j < |chunks| ==> chunks[i].id != chunks[j].id
  }

  /** The rows after these chunks were embedded and saved. */
  function Saved(rows: map<string, Row>, e: Embedder, chunks: seq<Chunk>): map<string, Row> {
    if chunks == [] then rows
    else
      var c := chunks[|chunks| - 1];
      Saved(rows, e, chunks[..|chunks| - 1])[c.id := Fresh(e, c.text)]
  }

  /** The vectors once these chunks' were added. */
  function Added(vectors: map<string, Vector>, e: Embedder, chunks: seq<Chunk>): map<string, Vector> {
    if chunks == [] then vectors
    else
      var c := chunks[|chunks| - 1];
      Added(vectors, e, chunks[..|chunks| - 1])[c.id := e.embed(c.text)]
  }

  /** Exactly these chunks, each with its own text's embedding. */
  ghost predicate Embedded(chunks: seq<Chunk>, e: Embedder, vectors: map<string, Vector>) {
    && (forall i :: 0 <= i < |chunks| ==> chunks[i].id in vectors && vectors[chunks[i].id] == e.embed(chunks[i].text))
    && (forall id :: id in vectors ==> exists i :: 0 <= i < |chunks| && chunks[i].id == id)
  }

  /** The i-th batch of a list of texts: thirty-two, or what is left. */
  function BatchAt(texts: seq<string>, i: nat): seq<string>
    requires i * BATCH <= |texts|
  {
    texts[i * BATCH..if (i + 1) * BATCH > |texts| then |texts| else (i + 1) * BATCH]
  }

  function Batches(n: nat): nat {
    (n + BATCH - 1) / BATCH
  }

  ghost function Flat(batches: seq<seq<string>>): seq<string> {
    if batches == [] then [] else Flat(batches[..|batches| - 1]) + batches[|batches| - 1]
  }

  /** The bounds on a row's texts, and the scan for secrets. */
  predicate Storable(secretLike: string -> bool, id: string, model: string) {
    Bounded(id, 1024) && Bounded(model, 512) && !secretLike(id) && !secretLike(model)
  }

  ghost predicate Savable(secretLike: string -> bool, e: Embedder, c: Chunk) {
    Storable(secretLike, c.id, e.model) && 0 < |e.embed(c.text)| <= LONGEST
  }

  class EmbeddingStore {
    var rows: map<string, Row>
    const secretLike: string -> bool

    constructor (secretLike: string -> bool)
      ensures rows == map[] && this.secretLike == secretLike
    {
      rows := map[];
      this.secretLike := secretLike;
    }

    /** LoadEmbedding: a matching row that does not decode is deleted. */
    method Load(id: string, text: string, model: string) returns (v: Option<Vector>)
      modifies this
      ensures if Usable(old(rows), id, text, model) then v == old(rows)[id].decoded && rows == old(rows)
              else v.None? && rows == if id in old(rows) && old(rows)[id].text == text && old(rows)[id].model == model
                                      then old(rows) - {id} else old(rows)
      ensures v.Some? <==>
                && id in old(rows) && old(rows)[id].text == text && old(rows)[id].model == model
                && old(rows)[id].decoded.Some? && |old(rows)[id].decoded.value| == old(rows)[id].dimensions
                && 0 < old(rows)[id].dimensions <= 16384
    {
      if id !in rows || rows[id].text != text || rows[id].model != model {
        return None;
      }
      if !Intact(rows[id]) {
        rows := rows - {id};
        return None;
      }
      v := rows[id].decoded;
    }

    /** SaveEmbedding: one row per chunk, replaced whole. */
    method Save(id: string, text: string, model: string, v: Vector) returns (ok: bool)
      modifies this
      ensures ok <==> Storable(secretLike, id, model) && 0 < |v| <= LONGEST
      ensures ok <==>
                && Bounded(id, 1024) && Bounded(model, 512) && !secretLike(id) && !secretLike(model)
                && 0 < |v| <= 16384
      ensures rows == if ok then old(rows)[id := Row(text, model, |v|, Some(v))] else old(rows)
    {
      ok := Storable(secretLike, id, model) && 0 < |v| <= LONGEST;
      if ok {
        rows := rows[id := Row(text, model, |v|, Some(v))];
      }
    }

    /** The lookups: usable vectors are taken, the rest is listed as missing. */
    method Lookup(chunks: seq<Chunk>, e: Embedder) returns (vectors: map<string, Vector>, missing: seq<Chunk>)
      requires DistinctIDs(chunks) && Honest(rows, e)
      modifies this
      ensures missing == Missing(old(rows), e.model, chunks)
      ensures Pruned(old(rows), rows, chunks, e) && Served(old(rows), chunks, e, vectors)
    {
      vectors, missing := map[], [];
      for i := 0 to |chunks|
        invariant missing == Missing(old(rows), e.model, chunks[..i])
        invariant Pruned(old(rows), rows, chunks[..i], e)
        invariant Served(old(rows), chunks[..i], e, vectors)
      {
        var c := chunks[i];
        assert chunks[..i + 1][..i] == chunks[..i] && chunks[..i + 1][i] == c;
        ghost var was, seen := rows, vectors;
        var v := Load(c.id, c.text, e.model);
        PrunedNext(old(rows), was, rows, chunks, i, e);
        if v.Some? {
          vectors := vectors[c.id := v.value];
        } else {
          missing := missing + [c];
        }
        ServedNext(old(rows), chunks, i, e, seen, vectors);
      }
      assert chunks[..|chunks|] == chunks;
    }

    /** One batch of answers is saved row by row, until one is refused. */
    method SaveBatch(missing: seq<Chunk>, start: nat, end: nat, e: Embedder, vectors: map<string, Vector>)
      returns (ok: bool, after: map<string, Vector>, ghost saved: nat)
      requires start <= end <= |missing|
      modifies this
      ensures start <= saved <= end
      ensures rows == Saved(old(rows), e, missing[start..saved])
      ensures ok ==> saved == end
      ensures forall i :: start <= i < saved ==> Savable(secretLike, e, missing[i])
      ensures !ok ==> saved < end && !Savable(secretLike, e, missing[saved])
      ensures ok ==> after == Added(vectors, e, missing[start..end])
    {
      hide Saved, Added;
      NothingSaved(rows, vectors, e);
      assert missing[start..start] == [];
      after, saved := vectors, start;
      for i := start to end
        invariant saved == i && rows == Saved(old(rows), e, missing[start..i])
        invariant forall k :: start <= k < i ==> Savable(secretLike, e, missing[k])
        invariant after == Added(vectors, e, missing[start..i])
      {
        var c := missing[i];
        after := after[c.id := e.embed(c.text)];
        ok := Save(c.id, c.text, e.model, e.embed(c.text));
        if !ok {
          return;
        }
        OneMore(old(rows), vectors, e, missing, start, i);
        saved := i + 1;
      }
      ok := true;
    }

    /** The loop over batches of missing chunks. */
    method EmbedMissing(missing: seq<Chunk>, found: map<string, Vector>, e: Embedder, answer: nat -> Answer)
      returns (ok: bool, vectors: map<string, Vector>, ghost sent: seq<seq<string>>, ghost saved: nat)
      modifies this
      ensures saved <= |missing| && rows == Saved(old(rows), e, missing[..saved])
      ensures forall k :: 0 <= k < saved ==> Savable(secretLike, e, missing[k])
      ensures Sent(missing, sent)
      ensures ok ==> saved == |missing| && |sent| == Batches(|missing|) && vectors == Added(found, e, missing)
      ensures ok ==> forall b :: 0 <= b < Batches(|missing|) ==> answer(b).Full?
      ensures !ok ==> (saved < |missing| && !Savable(secretLike, e, missing[saved])) ||
                      (exists b :: 0 <= b < Batches(|missing|) && !answer(b).Full?)
    {
      hide Savable, Saved, Added, BatchAt, TextsOf, Usable;
      NothingSaved(rows, found, e);
      vectors, sent, saved := found, [], 0;
      var start := 0;
      while start < |missing|
        invariant start == |sent| * BATCH && |sent| <= Batches(|missing|)
        invariant saved == if start > |missing| then |missing| else start
        invariant start >= |missing| ==> |sent| == Batches(|missing|)
        invariant rows == Saved(old(rows), e, missing[..saved]) && vectors == Added(found, e, missing[..saved])
        invariant forall k :: 0 <= k < saved ==> Savable(secretLike, e, missing[k])
        invariant Sent(missing, sent)
        invariant forall b :: 0 <= b < |sent| ==> answer(b).Full?
        decreases |missing| - start
      {
        var end := if start + BATCH > |missing| then |missing| else start + BATCH;
        BatchText(missing, |sent|, start, end);
        sent := sent + [TextsOf(missing)[start..end]];
        if !answer(start / BATCH).Full? {
          return false, map[], sent, saved;
        }
        var after;
        ok, after, saved := SaveBatch(missing, start, end, e, vectors);
        SavedTogether(old(rows), e, missing[..start], missing[start..saved]);
        assert missing[..start] + missing[start..saved] == missing[..saved];
        if !ok {
          return false, map[], sent, saved;
        }
        AddedTogether(found, e, missing[..start], missing[start..end]);
        vectors := after;
        start := start + BATCH;
      }
      assert missing[..saved] == missing;
      ok := true;
    }

    /** prepareDocumentEmbeddings. sent is the batches the embedder was given and
        saved how many missing chunks were stored; pruned is the cache after the
        lookups. */
    method Prepare(chunks: seq<Chunk>, e: Embedder, answer: nat -> Answer)
      returns (ok: bool, vectors: map<string, Vector>, ghost sent: seq<seq<string>>, ghost saved: nat,
               ghost pruned: map<string, Row>)
      requires DistinctIDs(chunks) && Honest(rows, e)
      modifies this
      ensures Prepared(old(rows), rows, chunks, e, pruned, saved)
      ensures var missing := Missing(old(rows), e.model, chunks);
              && (forall k :: 0 <= k < saved ==> Savable(secretLike, e, missing[k]))
              && Sent(missing, sent)
              && (ok <==> (forall b :: 0 <= b < Batches(|missing|) ==> answer(b).Full?) &&
                          (forall k :: 0 <= k < |missing| ==> Savable(secretLike, e, missing[k])))
              && (ok ==> saved == |missing| && |sent| == Batches(|missing|))
      ensures ok ==> Embedded(chunks, e, vectors)
    {
      var missing;
      vectors, missing := Lookup(chunks, e);
      pruned := rows;
      ghost var found := vectors;
      ok, vectors, sent, saved := EmbedMissing(missing, vectors, e, answer);
      hide Savable, Saved, Added, Served, Embedded, Pruned, Missing, Usable, Honest;
      if ok {
        assert missing[..saved] == missing;
        AllEmbedded(old(rows), chunks, e, found, missing);
      }
    }
  }

  /** What was sent: the first batches of the missing texts. */
  ghost predicate Sent(missing: seq<Chunk>, sent: seq<seq<string>>) {
    && |sent| <= Batches(|missing|)
    && (forall b :: 0 <= b < |sent| ==> b * BATCH <= |missing| && sent[b] == BatchAt(TextsOf(missing), b))
  }

  /** The cache after preparing: lookups pruned it, then the first missing chunks were saved. */
  ghost predicate Prepared(was: map<string, Row>, rows: map<string, Row>, chunks: seq<Chunk>, e: Embedder,
                           pruned: map<string, Row>, saved: nat) {
    var missing := Missing(was, e.model, chunks);
    Pruned(was, pruned, chunks, e) && saved <= |missing| && rows == Saved(pruned, e, missing[..saved])
  }

  lemma OneMore(rows: map<string, Row>, vectors: map<string, Vector>, e: Embedder, chunks: seq<Chunk>, start: nat,
                i: nat)
    requires start <= i < |chunks|
    ensures Saved(rows, e, chunks[start..i + 1]) ==
            Saved(rows, e, chunks[start..i])[chunks[i].id := Fresh(e, chunks[i].text)]
    ensures Added(vectors, e, chunks[start..i + 1]) ==
            Added(vectors, e, chunks[start..i])[chunks[i].id := e.embed(chunks[i].text)]
  {
    var next := chunks[start..i + 1];
    assert next[..|next| - 1] == chunks[start..i] && next[|next| - 1] == chunks[i];
  }

  lemma NothingSaved(rows: map<string, Row>, vectors: map<string, Vector>, e: Embedder)
    ensures Saved(rows, e, []) == rows && Added(vectors, e, []) == vectors
  {
  }

  lemma BatchText(missing: seq<Chunk>, b: nat, start: nat, end: nat)
    requires start == b * BATCH < |missing| && end == if start + BATCH > |missing| then |missing| else start + BATCH
    ensures |TextsOf(missing)| == |missing| && TextsOf(missing)[start..end] == BatchAt(TextsOf(missing), b)
    ensures start / BATCH == b < Batches(|missing|) && (end == |missing| <==> b + 1 == Batches(|missing|))
  {
  }

  lemma {:induction false} SavedTogether(rows: map<string, Row>, e: Embedder, a: seq<Chunk>, b: seq<Chunk>)
    ensures Saved(Saved(rows, e, a), e, b) == Saved(rows, e, a + b)
  {
    if b == [] {
      assert a + b == a;
    } else {
      SavedTogether(rows, e, a, b[..|b| - 1]);
      assert (a + b)[..|a + b| - 1] == a + b[..|b| - 1];
    }
  }

  lemma {:induction false} AddedTogether(vectors: map<string, Vector>, e: Embedder, a: seq<Chunk>, b: seq<Chunk>)
    ensures Added(Added(vectors, e, a), e, b) == Added(vectors, e, a + b)
  {
    if b == [] {
      assert a + b == a;
    } else {
      AddedTogether(vectors, e, a, b[..|b| - 1]);
      assert (a + b)[..|a + b| - 1] == a + b[..|b| - 1];
    }
  }

  lemma {:induction false} AddedAt(vectors: map<string, Vector>, e: Embedder, chunks: seq<Chunk>, id: string)
    ensures id in Added(vectors, e, chunks) <==> id in vectors || exists i :: 0 <= i < |chunks| && chunks[i].id == id
    ensures (forall i :: 0 <= i < |chunks| ==> chunks[i].id != id) && id in vectors ==>
              Added(vectors, e, chunks)[id] == vectors[id]
    ensures DistinctIDs(chunks) ==> forall i :: 0 <= i < |chunks| && chunks[i].id == id ==>
              Added(vectors, e, chunks)[id] == e.embed(chunks[i].text)
  {
    if chunks != [] {
      var front := chunks[..|chunks| - 1];
      AddedAt(vectors, e, front, id);
      assert forall i :: 0 <= i < |front| ==> front[i] == chunks[i];
    }
  }

  /** Missing lists exactly the chunks without a usable row. */
  lemma {:induction false} MissingOf(rows: map<string, Row>, model: string, chunks: seq<Chunk>)
    ensures forall c :: c in Missing(rows, model, chunks) <==> c in chunks && !Usable(rows, c.id, c.text, model)
    ensures DistinctIDs(chunks) ==> DistinctIDs(Missing(rows, model, chunks))
  {
    if chunks != [] {
      var front, last := chunks[..|chunks| - 1], chunks[|chunks| - 1];
      assert chunks == front + [last];
      MissingOf(rows, model, front);
      var m := Missing(rows, model, front);
      if DistinctIDs(chunks) {
        assert forall i :: 0 <= i < |front| ==> front[i] == chunks[i];
        forall k | 0 <= k < |m| ensures m[k].id != last.id {
          assert m[k] in front;
        }
      }
    }
  }

  lemma AllEmbedded(was: map<string, Row>, chunks: seq<Chunk>, e: Embedder, found: map<string, Vector>,
                    missing: seq<Chunk>)
    requires DistinctIDs(chunks) && Served(was, chunks, e, found) && missing == Missing(was, e.model, chunks)
    ensures Embedded(chunks, e, Added(found, e, missing))
  {
    hide Usable, Missing, Added, Served, DistinctIDs;
    var all := Added(found, e, missing);
    forall i | 0 <= i < |chunks| ensures chunks[i].id in all && all[chunks[i].id] == e.embed(chunks[i].text) {
      OneEmbedded(was, chunks, e, found, missing, i);
    }
    forall id | id in all ensures exists i :: 0 <= i < |chunks| && chunks[i].id == id {
      NoOther(was, chunks, e, found, missing, id);
    }
  }

  lemma OneEmbedded(was: map<string, Row>, chunks: seq<Chunk>, e: Embedder, found: map<string, Vector>,
                    missing: seq<Chunk>, i: nat)
    requires DistinctIDs(chunks) && Served(was, chunks, e, found) && missing == Missing(was, e.model, chunks) &&
             i < |chunks|
    ensures chunks[i].id in Added(found, e, missing) &&
            Added(found, e, missing)[chunks[i].id] == e.embed(chunks[i].text)
  {
    hide Usable, Missing, Added;
    MissingOf(was, e.model, chunks);
    AddedAt(found, e, missing, chunks[i].id);
    if Usable(was, chunks[i].id, chunks[i].text, e.model) {
      forall k | 0 <= k < |missing| ensures missing[k].id != chunks[i].id {
        assert missing[k] in chunks;
        var j :| 0 <= j < |chunks| && chunks[j] == missing[k];
      }
    } else {
      hide DistinctIDs, Served;
      var k :| 0 <= k < |missing| && missing[k] == chunks[i];
    }
  }

  lemma NoOther(was: map<string, Row>, chunks: seq<Chunk>, e: Embedder, found: map<string, Vector>, missing: seq<Chunk>,
                id: string)
    requires Served(was, chunks, e, found) && missing == Missing(was, e.model, chunks) && id in Added(found, e, missing)
    ensures exists i :: 0 <= i < |chunks| && chunks[i].id == id
  {
    hide Usable, Missing, Added;
    MissingOf(was, e.model, chunks);
    AddedAt(found, e, missing, id);
    if k: nat :| k < |missing| && missing[k].id == id {
      assert missing[k] in chunks;
    }
  }

  /** Only unusable rows of these chunks are gone. */
  ghost predicate Pruned(was: map<string, Row>, rows: map<string, Row>, chunks: seq<Chunk>, e: Embedder) {
    && (forall id :: id in rows ==> id in was && rows[id] == was[id])
    && (forall id :: id in was && id !in rows ==>
          exists k :: 0 <= k < |chunks| && chunks[k].id == id && !Usable(was, id, chunks[k].text, e.model))
  }

  /** The vectors of exactly the chunks whose rows were usable. */
  ghost predicate Served(was: map<string, Row>, chunks: seq<Chunk>, e: Embedder, vectors: map<string, Vector>) {
    && (forall k :: 0 <= k < |chunks| && Usable(was, chunks[k].id, chunks[k].text, e.model) ==>
          chunks[k].id in vectors && vectors[chunks[k].id] == e.embed(chunks[k].text))
    && (forall id :: id in vectors ==>
          exists k :: 0 <= k < |chunks| && chunks[k].id == id && Usable(was, id, chunks[k].text, e.model))
  }

  lemma PrunedNext(was: map<string, Row>, rows: map<string, Row>, after: map<string, Row>, chunks: seq<Chunk>, i: nat,
                   e: Embedder)
    requires i < |chunks| && DistinctIDs(chunks) && Pruned(was, rows, chunks[..i], e)
    requires var c := chunks[i];
             after == if !Usable(rows, c.id, c.text, e.model) && c.id in rows && rows[c.id].text == c.text &&
               rows[c.id].model == e.model
                      then rows - {c.id} else rows
    ensures Pruned(was, after, chunks[..i + 1], e)
    ensures Usable(rows, chunks[i].id, chunks[i].text, e.model) <==> Usable(was, chunks[i].id, chunks[i].text, e.model)
  {
    hide Intact;
    var next := chunks[..i + 1];
    forall id | id in was && id !in after
      ensures exists k :: 0 <= k < |next| && next[k].id == id && !Usable(was, id, next[k].text, e.model)
    {
      if id in rows {
        assert next[i].id == id;
      } else {
        var k :| 0 <= k < i && chunks[..i][k].id == id && !Usable(was, id, chunks[..i][k].text, e.model);
        assert next[k] == chunks[..i][k];
      }
    }
    forall k | 0 <= k < i ensures chunks[..i][k].id != chunks[i].id {
    }
  }

  lemma ServedNext(was: map<string, Row>, chunks: seq<Chunk>, i: nat, e: Embedder, vectors: map<string, Vector>,
                   after: map<string, Vector>)
    requires i < |chunks| && DistinctIDs(chunks) && Served(was, chunks[..i], e, vectors) && Honest(was, e)
    requires var c := chunks[i];
             after == if Usable(was, c.id, c.text, e.model) then vectors[c.id := was[c.id].decoded.value] else vectors
    ensures Served(was, chunks[..i + 1], e, after)
  {
    var next := chunks[..i + 1];
    assert next[..i] == chunks[..i] && next[i] == chunks[i];
    forall id | id in after
      ensures exists k :: 0 <= k < |next| && next[k].id == id && Usable(was, id, next[k].text, e.model)
    {
      if id in vectors {
        var k :| 0 <= k < i && chunks[..i][k].id == id && Usable(was, id, chunks[..i][k].text, e.model);
        assert next[k] == chunks[..i][k];
      } else {
        assert next[i].id == id;
      }
    }
    forall k | 0 <= k < |next| && Usable(was, next[k].id, next[k].text, e.model)
      ensures next[k].id in after && after[next[k].id] == e.embed(next[k].text)
    {
      if k < i {
        assert chunks[..i][k] == next[k];
      }
    }
  }

  /** A finished run sends each missing text once, in order, at most thirty-two at a time. */
  lemma EachSentOnce(missing: seq<Chunk>, sent: seq<seq<string>>)
    requires Sent(missing, sent)
    ensures forall b :: 0 <= b < |sent| ==> 1 <= |sent[b]| <= 32 && (b < |sent| - 1 ==> |sent[b]| == 32)
    ensures Flat(sent) <= TextsOf(missing)
    ensures |sent| == Batches(|missing|) ==> Flat(sent) == TextsOf(missing)
  {
    FlatPrefix(TextsOf(missing), sent);
    assert |sent| == Batches(|missing|) ==> |sent| * BATCH >= |missing|;
  }

  lemma {:induction false} FlatPrefix(texts: seq<string>, sent: seq<seq<string>>)
    requires |sent| <= Batches(|texts|)
    requires forall b :: 0 <= b < |sent| ==> b * BATCH <= |texts| && sent[b] == BatchAt(texts, b)
    ensures forall b :: 0 <= b < |sent| ==> 1 <= |sent[b]| <= BATCH
    ensures Flat(sent) == texts[..if |sent| * BATCH > |texts| then |texts| else |sent| * BATCH]
  {
    if sent != [] {
      FlatPrefix(texts, sent[..|sent| - 1]);
    }
  }

  lemma {:induction false} SavedAt(rows: map<string, Row>, e: Embedder, chunks: seq<Chunk>, id: string)
    ensures (forall i :: 0 <= i < |chunks| ==> chunks[i].id != id) ==>
              (id in Saved(rows, e, chunks) <==> id in rows) && (id in rows ==> Saved(rows, e, chunks)[id] == rows[id])
    ensures forall i :: 0 <= i < |chunks| && chunks[i].id == id && DistinctIDs(chunks) ==>
              id in Saved(rows, e, chunks) && Saved(rows, e, chunks)[id] == Fresh(e, chunks[i].text)
    ensures id in Saved(rows, e, chunks) ==>
              (id in rows && Saved(rows, e, chunks)[id] == rows[id]) ||
              exists i :: 0 <= i < |chunks| && chunks[i].id == id &&
                Saved(rows, e, chunks)[id] == Fresh(e, chunks[i].text)
  {
    if chunks != [] {
      var front, n := chunks[..|chunks| - 1], |chunks| - 1;
      SavedAt(rows, e, front, id);
      assert forall i :: 0 <= i < |front| ==> front[i] == chunks[i];
      if id != chunks[n].id && id in Saved(rows, e, chunks) && !(id in rows && Saved(rows, e, chunks)[id] == rows[id]) {
        var i :| 0 <= i < |front| && front[i].id == id && Saved(rows, e, front)[id] == Fresh(e, front[i].text);
        assert chunks[i] == front[i];
      }
    }
  }

  /** Whatever happened, the cache still tells the truth, and rows of other
      chunks are untouched. */
  lemma StaysHonest(was: map<string, Row>, rows: map<string, Row>, chunks: seq<Chunk>, e: Embedder,
                    pruned: map<string, Row>, saved: nat, id: string)
    requires Honest(was, e) && Prepared(was, rows, chunks, e, pruned, saved)
    ensures id in rows && rows[id].model == e.model && Intact(rows[id]) ==>
              rows[id].decoded.value == e.embed(rows[id].text)
    ensures (forall i :: 0 <= i < |chunks| ==> chunks[i].id != id) ==>
              (id in rows <==> id in was) && (id in was ==> rows[id] == was[id])
  {
    var missing := Missing(was, e.model, chunks);
    SavedAt(pruned, e, missing[..saved], id);
    MissingOf(was, e.model, chunks);
    if forall i :: 0 <= i < |chunks| ==> chunks[i].id != id {
      forall i | 0 <= i < saved ensures missing[..saved][i].id != id {
        assert missing[i] in chunks;
      }
    }
  }

  /** A chunk is cached afterwards exactly when it was before or was saved now. */
  lemma CachedAfter(was: map<string, Row>, rows: map<string, Row>, chunks: seq<Chunk>, e: Embedder,
                    secretLike: string -> bool, pruned: map<string, Row>, saved: nat, i: nat)
    requires Prepared(was, rows, chunks, e, pruned, saved) && DistinctIDs(chunks) && i < |chunks|
    requires forall k :: 0 <= k < saved ==> Savable(secretLike, e, Missing(was, e.model, chunks)[k])
    ensures Usable(rows, chunks[i].id, chunks[i].text, e.model) <==>
            Usable(was, chunks[i].id, chunks[i].text, e.model) || chunks[i] in Missing(was, e.model, chunks)[..saved]
  {
    if chunks[i] in Missing(was, e.model, chunks)[..saved] {
      CachedNow(was, rows, chunks, e, secretLike, pruned, saved, i);
    } else {
      CachedBefore(was, rows, chunks, e, pruned, saved, i);
    }
    hide *;
  }

  lemma CachedNow(was: map<string, Row>, rows: map<string, Row>, chunks: seq<Chunk>, e: Embedder,
                  secretLike: string -> bool, pruned: map<string, Row>, saved: nat, i: nat)
    requires Prepared(was, rows, chunks, e, pruned, saved) && DistinctIDs(chunks) && i < |chunks|
    requires forall k :: 0 <= k < saved ==> Savable(secretLike, e, Missing(was, e.model, chunks)[k])
    requires chunks[i] in Missing(was, e.model, chunks)[..saved]
    ensures Usable(rows, chunks[i].id, chunks[i].text, e.model)
  {
    var c, missing := chunks[i], Missing(was, e.model, chunks);
    var done := missing[..saved];
    MissingOf(was, e.model, chunks);
    SavedAt(pruned, e, done, c.id);
    hide Missing, Saved, Savable, Intact, Pruned;
    var k :| 0 <= k < saved && done[k] == c;
    SavedUsable(secretLike, e, missing[k]);
    hide DistinctIDs;
  }

  lemma CachedBefore(was: map<string, Row>, rows: map<string, Row>, chunks: seq<Chunk>, e: Embedder,
                     pruned: map<string, Row>, saved: nat, i: nat)
    requires Prepared(was, rows, chunks, e, pruned, saved) && DistinctIDs(chunks) && i < |chunks|
    requires chunks[i] !in Missing(was, e.model, chunks)[..saved]
    ensures Usable(rows, chunks[i].id, chunks[i].text, e.model) <==> Usable(was, chunks[i].id, chunks[i].text, e.model)
  {
    var c, missing := chunks[i], Missing(was, e.model, chunks);
    var done := missing[..saved];
    MissingOf(was, e.model, chunks);
    SavedAt(pruned, e, done, c.id);
    hide Missing, Saved, Usable, Pruned;
    forall k | 0 <= k < |done| ensures done[k].id != c.id {
      assert done[k] == missing[k] && missing[k] in chunks;
      var j :| 0 <= j < |chunks| && chunks[j] == missing[k];
    }
    NotSaved(was, rows, pruned, chunks, e, i);
  }

  lemma SavedUsable(secretLike: string -> bool, e: Embedder, c: Chunk)
    requires Savable(secretLike, e, c)
    ensures Intact(Fresh(e, c.text))
  {
  }

  lemma NotSaved(was: map<string, Row>, rows: map<string, Row>, pruned: map<string, Row>, chunks: seq<Chunk>,
                 e: Embedder, i: nat)
    requires DistinctIDs(chunks) && Pruned(was, pruned, chunks, e) && i < |chunks|
    requires chunks[i].id in rows <==> chunks[i].id in pruned
    requires chunks[i].id in pruned ==> rows[chunks[i].id] == pruned[chunks[i].id]
    ensures Usable(rows, chunks[i].id, chunks[i].text, e.model) <==> Usable(was, chunks[i].id, chunks[i].text, e.model)
  {
    hide Intact;
  }

  /** A rerun starts where the last one stopped: its missing chunks are those
      that were not saved. */
  lemma {:induction false} ResumesWhereItStopped(was: map<string, Row>, rows: map<string, Row>, chunks: seq<Chunk>,
                                                 e: Embedder, secretLike: string -> bool, pruned: map<string, Row>,
                                                 saved: nat)
    requires Prepared(was, rows, chunks, e, pruned, saved) && DistinctIDs(chunks)
    requires forall k :: 0 <= k < saved ==> Savable(secretLike, e, Missing(was, e.model, chunks)[k])
    ensures Missing(rows, e.model, chunks) == Missing(was, e.model, chunks)[saved..]
  {
    hide Usable, Savable;
    forall i | 0 <= i < |chunks|
      ensures Usable(rows, chunks[i].id, chunks[i].text, e.model) <==>
              Usable(was, chunks[i].id, chunks[i].text, e.model) || chunks[i] in Missing(was, e.model, chunks)[..saved]
    {
      CachedAfter(was, rows, chunks, e, secretLike, pruned, saved, i);
    }
    MissingFiltered(was, rows, chunks, e.model, saved);
  }

  /** Row by row: after the run, these chunks' rows are usable if they were, or
      if the chunk is among the first saved ones that were not. */
  ghost predicate CachedUpTo(was: map<string, Row>, rows: map<string, Row>, chunks: seq<Chunk>, model: string,
                             saved: nat) {
    var m := Missing(was, model, chunks);
    forall i :: 0 <= i < |chunks| ==>
      (Usable(rows, chunks[i].id, chunks[i].text, model) <==>
       Usable(was, chunks[i].id, chunks[i].text, model) || chunks[i] in m[..Least(saved, |m|)])
  }

  lemma CachedUpToFront(was: map<string, Row>, rows: map<string, Row>, chunks: seq<Chunk>, model: string, saved: nat)
    requires chunks != [] && DistinctIDs(chunks) && CachedUpTo(was, rows, chunks, model, saved)
    ensures CachedUpTo(was, rows, chunks[..|chunks| - 1], model, saved)
  {
    hide Usable;
    var front, last := chunks[..|chunks| - 1], chunks[|chunks| - 1];
    var m, n := Missing(was, model, chunks), Missing(was, model, front);
    var p, q := m[..Least(saved, |m|)], n[..Least(saved, |n|)];
    assert p == q || p == q + [last];
    forall i | 0 <= i < |front| ensures front[i] in p <==> front[i] in q {
      assert front[i] == chunks[i] && chunks[i].id != last.id;
    }
    assert forall i :: 0 <= i < |front| ==> front[i] == chunks[i];
  }

  lemma FrontDistinct(chunks: seq<Chunk>)
    requires DistinctIDs(chunks) && chunks != []
    ensures DistinctIDs(chunks[..|chunks| - 1])
  {
  }

  lemma LastIsNew(was: map<string, Row>, chunks: seq<Chunk>, model: string)
    requires DistinctIDs(chunks) && chunks != []
    ensures chunks[|chunks| - 1] !in Missing(was, model, chunks[..|chunks| - 1])
  {
    var front, last := chunks[..|chunks| - 1], chunks[|chunks| - 1];
    MissingOf(was, model, front);
    hide Usable;
    forall i | 0 <= i < |front| ensures front[i] != last {
      assert chunks[i].id != chunks[|chunks| - 1].id;
    }
  }

  lemma {:induction false} MissingFiltered(was: map<string, Row>, rows: map<string, Row>, chunks: seq<Chunk>,
                                           model: string, saved: nat)
    requires DistinctIDs(chunks) && CachedUpTo(was, rows, chunks, model, saved)
    ensures var m := Missing(was, model, chunks); Missing(rows, model, chunks) == m[Least(saved, |m|)..]
  {
    hide Usable, CachedUpTo, DistinctIDs;
    if chunks != [] {
      var front, last := chunks[..|chunks| - 1], chunks[|chunks| - 1];
      FrontDistinct(chunks);
      CachedUpToFront(was, rows, chunks, model, saved);
      MissingFiltered(was, rows, front, model, saved);
      LastIsNew(was, chunks, model);
      LastAmong(Missing(was, model, front), last, saved);
      assert chunks[|chunks| - 1] == last;
      MissingLast(was, rows, chunks, model, saved);
    }
  }

  lemma MissingLast(was: map<string, Row>, rows: map<string, Row>, chunks: seq<Chunk>, model: string, saved: nat)
    requires chunks != [] && CachedUpTo(was, rows, chunks, model, saved)
    ensures var last, m := chunks[|chunks| - 1], Missing(was, model, chunks);
            Usable(rows, last.id, last.text, model) <==>
            Usable(was, last.id, last.text, model) || last in m[..Least(saved, |m|)]
  {
    hide Usable, Missing, Least;
  }

  lemma LastAmong<T>(n: seq<T>, last: T, saved: nat)
    requires last !in n
    ensures last in (n + [last])[..Least(saved, |n| + 1)] <==> saved > |n|
    ensures (n + [last])[Least(saved, |n| + 1)..] == if saved > |n| then [] else n[saved..] + [last]
  {
    if saved > |n| {
      assert (n + [last])[..Least(saved, |n| + 1)][|n|] == last;
    } else {
      assert (n + [last])[..Least(saved, |n| + 1)] == n[..saved];
    }
  }

  function Least(a: nat, b: nat): nat {
    if a < b then a else b
  }

  // ------------------------------------------------------------- chunk names

  /** stringID */
  function Digit(i: nat): char {
    if i < 10 then '0' + i as char else if i < 36 then 'a' + (i - 10) as char else 'x'
  }

  const SEPARATOR := "\0chunk:"

  function ChunkID(documentID: string, index: nat): string {
    documentID + SEPARATOR + [Digit(index)]
  }

  /** Below thirty-six windows a chunk's name gives back its document and index. */
  lemma ChunkIDInjective(a: string, i: nat, b: string, j: nat)
    requires i < 36 && j < 36 && ChunkID(a, i) == ChunkID(b, j)
    ensures a == b && i == j
  {
    var x, y := ChunkID(a, i), ChunkID(b, j);
    assert |x| == |a| + |SEPARATOR| + 1 && |y| == |b| + |SEPARATOR| + 1;
    assert x[..|a|] == a && y[..|b|] == b;
    assert x[|x| - 1] == Digit(i) && y[|y| - 1] == Digit(j);
  }

  datatype Document = Document(id: string, text: string)

  /** One document's chunks: its texts in order, named by their place. */
  ghost function DocumentChunks(d: Document): seq<Chunk> {
    var texts := ChunkTexts(d.text);
    seq(|texts|, k requires 0 <= k < |texts| => Chunk(ChunkID(d.id, k), d.id, texts[k]))
  }

  ghost function AllChunks(documents: seq<Document>): seq<Chunk> {
    if documents == [] then []
    else AllChunks(documents[..|documents| - 1]) + DocumentChunks(documents[|documents| - 1])
  }

  /** semanticChunks */
  method SemanticChunks(documents: seq<Document>) returns (chunks: seq<Chunk>)
    ensures chunks == AllChunks(documents)
  {
    hide DocumentChunks, ChunkID, ChunkTexts;
    chunks := [];
    for n := 0 to |documents|
      invariant chunks == AllChunks(documents[..n])
    {
      var more := CutDocument(documents[n]);
      assert documents[..n + 1][..n] == documents[..n];
      chunks := chunks + more;
    }
    assert documents[..|documents|] == documents;
  }

  method CutDocument(d: Document) returns (chunks: seq<Chunk>)
    ensures chunks == DocumentChunks(d)
  {
    hide ChunkID, ChunkTexts;
    var texts := EmbeddingChunks(d.text);
    chunks := [];
    for k := 0 to |texts|
      invariant |chunks| == k && forall i :: 0 <= i < k ==> chunks[i] == Chunk(ChunkID(d.id, i), d.id, texts[i])
    {
      chunks := chunks + [Chunk(ChunkID(d.id, k), d.id, texts[k])];
    }
  }

  /** The chunk names one document's windows get. */
  ghost predicate Names(c: Chunk, d: Document, k: nat) {
    k < MOST && c.recordID == d.id && c.id == ChunkID(d.id, k)
  }

  ghost predicate NamedBy(c: Chunk, documents: seq<Document>) {
    exists d, k :: d in documents && Names(c, d, k)
  }

  lemma FewChunkTexts(value: string)
    ensures |ChunkTexts(value)| <= MOST
  {
    var n := |Trim(value)|;
    TilingIff(n, WindowsOf(n));
    FewTexts(Trim(value), WindowsOf(n));
    hide Trim, Texts, WindowsOf;
  }

  lemma DocumentNames(d: Document)
    ensures DistinctIDs(DocumentChunks(d)) && forall c :: c in DocumentChunks(d) ==> exists k :: Names(c, d, k)
  {
    FewChunkTexts(d.text);
    hide ChunkID, ChunkTexts;
    var chunks := DocumentChunks(d);
    forall i, j | 0 <= i < j < |chunks| ensures chunks[i].id != chunks[j].id {
      if chunks[i].id == chunks[j].id {
        ChunkIDInjective(d.id, i, d.id, j);
      }
    }
    forall i | 0 <= i < |chunks| ensures Names(chunks[i], d, i) {
    }
  }

  /** Distinct documents give distinct chunk names. */
  lemma {:induction false} ChunksDistinct(documents: seq<Document>)
    requires forall i, j :: 0 <= i < j < |documents| ==> documents[i].id != documents[j].id
    ensures DistinctIDs(AllChunks(documents)) && forall c :: c in AllChunks(documents) ==> NamedBy(c, documents)
  {
    if documents != [] {
      var n := |documents| - 1;
      var front, last := documents[..n], documents[n];
      ChunksDistinct(front);
      DocumentNames(last);
      hide Names, DocumentChunks;
      forall a, b | a in AllChunks(front) && b in DocumentChunks(last) ensures a.id != b.id {
        NamesApart(documents, n, a, b);
      }
      forall c | c in AllChunks(documents) ensures NamedBy(c, documents) {
        if c in AllChunks(front) {
          var d, k :| d in front && Names(c, d, k);
        } else {
          var k :| Names(c, last, k);
        }
      }
    }
  }

  lemma {:induction false} FewTexts(text: string, ws: seq<Window>)
    requires forall i :: 0 <= i < |ws| ==> ws[i].start <= ws[i].end <= |text|
    ensures |Texts(text, ws)| <= |ws|
  {
    hide Trim;
    if ws != [] {
      FewTexts(text, ws[..|ws| - 1]);
    }
  }

  lemma NamesApart(documents: seq<Document>, n: nat, a: Chunk, b: Chunk)
    requires forall i, j :: 0 <= i < j < |documents| ==> documents[i].id != documents[j].id
    requires n < |documents| && NamedBy(a, documents[..n]) && exists k :: Names(b, documents[n], k)
    ensures a.id != b.id
  {
    hide ChunkID;
    var d, j :| d in documents[..n] && Names(a, d, j);
    var k :| Names(b, documents[n], k);
    var i :| 0 <= i < n && documents[..n][i] == d;
    assert documents[i].id != documents[n].id;
    if a.id == b.id {
      ChunkIDInjective(d.id, j, documents[n].id, k);
    }
  }
}
