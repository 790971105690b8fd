/** What feedback does to the order of hits, read off the hits a search returns. */
module RankingLaws {
  import opened Text
  import opened Ordering
  import opened ScopedModel
  import opened Ranking

  /** What the caller said about a document, or nothing. */
  function Liked(relevance: map<string, real>, id: string): real {
    if id in relevance then relevance[id] else 0.0
  }

  /** Every hit scores its base and what was said about it, on top; its base does not
      depend on what was said. */
  lemma HitSays(documents: seq<string>, s: Signals, relevance: map<string, real>, limit: nat, hits: seq<Hit>, i: nat)
    requires Ranked(s, documents, relevance, limit, hits) && i < |hits|
    ensures hits[i].feedback == Liked(relevance, hits[i].id)
    ensures hits[i].score == hits[i].base + Liked(relevance, hits[i].id)
    ensures hits[i].base == Normalised(s, documents, hits[i].id) && hits[i].id in Pool(s, documents)
  {
    assert hits[i] in Rows(hits);
    hide Pool, Normalised, HitLess;
  }

  /** The order of any two hits: base and feedback together decide, and among equals
      the smaller id. */
  lemma OrderIff(documents: seq<string>, s: Signals, relevance: map<string, real>, limit: nat, hits: seq<Hit>,
                 i: nat, j: nat)
    requires Ranked(s, documents, relevance, limit, hits) && i < |hits| && j < |hits| && i != j
    ensures var a, b := hits[i].base + Liked(relevance, hits[i].id), hits[j].base + Liked(relevance, hits[j].id);
            (i < j <==> a > b || (a == b && Before(hits[i].id, hits[j].id)))
  {
    HitSays(documents, s, relevance, limit, hits, i);
    HitSays(documents, s, relevance, limit, hits, j);
    assert Ascending(HitLess, hits);
    hide Ranked;
    BeforeIsOrder();
    if i < j {
      assert HitLess(hits[i], hits[j]);
    } else {
      assert HitLess(hits[j], hits[i]);
    }
  }

  /** Of two hits with one base the one with more feedback comes first. */
  lemma MoreFeedbackFirst(documents: seq<string>, s: Signals, relevance: map<string, real>, limit: nat,
                          hits: seq<Hit>, i: nat, j: nat)
    requires Ranked(s, documents, relevance, limit, hits) && i < |hits| && j < |hits|
    requires hits[i].base == hits[j].base && Liked(relevance, hits[i].id) > Liked(relevance, hits[j].id)
    ensures i < j
  {
    hide Ranked;
    OrderIff(documents, s, relevance, limit, hits, i, j);
  }

  /** A hit whose base leads by more than the other's feedback leads comes first. */
  lemma LeadDecides(documents: seq<string>, s: Signals, relevance: map<string, real>, limit: nat, hits: seq<Hit>,
                    i: nat, j: nat)
    requires Ranked(s, documents, relevance, limit, hits) && i < |hits| && j < |hits|
    requires hits[i].base - hits[j].base > Liked(relevance, hits[j].id) - Liked(relevance, hits[i].id)
    ensures i < j
  {
    hide Ranked;
    OrderIff(documents, s, relevance, limit, hits, i, j);
  }

  // ----------------------------------------------------------- raising feedback

  /** A hit stands where as many are ahead of it as its place says. */
  lemma PlaceIsAhead(documents: seq<string>, s: Signals, relevance: map<string, real>, limit: nat, hits: seq<Hit>,
                     j: nat)
    requires Ranked(s, documents, relevance, limit, hits) && j < |hits|
    ensures hits[j] in AllHits(s, documents, relevance)
    ensures |Ahead(HitLess, AllHits(s, documents, relevance), hits[j])| == j
    ensures s.scoped || j < limit
  {
    var all := AllHits(s, documents, relevance);
    HitOrder(s, documents, relevance);
    assert hits[j] in Rows(hits);
    forall h | h in Ahead(HitLess, all, hits[j]) ensures h in Rows(hits) {
      AheadIsShown(documents, s, relevance, limit, hits, h, j);
    }
    hide HitLess, AllHits;
    assert Ahead(HitLess, all, hits[j]) == Ahead(HitLess, Rows(hits), hits[j]);
    PositionIsAhead(HitLess, hits, j);
  }

  /** A hit of the pool that few enough are ahead of is shown in its place. */
  lemma ShownAt(documents: seq<string>, s: Signals, relevance: map<string, real>, limit: nat, hits: seq<Hit>, h: Hit)
    returns (i: nat)
    requires Ranked(s, documents, relevance, limit, hits) && h in AllHits(s, documents, relevance)
    requires s.scoped || |Ahead(HitLess, AllHits(s, documents, relevance), h)| < limit
    ensures i < |hits| && hits[i] == h && i == |Ahead(HitLess, AllHits(s, documents, relevance), h)|
  {
    assert h in Rows(hits);
    i :| 0 <= i < |hits| && hits[i] == h;
    hide *;
    PlaceIsAhead(documents, s, relevance, limit, hits, i);
  }

  /** Whoever is ahead after one document's feedback was raised was ahead before. */
  lemma AheadShrinks(documents: seq<string>, s: Signals, relevance: map<string, real>, x: string, more: real)
    requires x in Pool(s, documents) && more >= Liked(relevance, x)
    ensures var raised := relevance[x := more];
            |Ahead(HitLess, AllHits(s, documents, raised), HitOf(s, documents, raised, x))| <=
            |Ahead(HitLess, AllHits(s, documents, relevance), HitOf(s, documents, relevance, x))|
  {
    var raised := relevance[x := more];
    var was, now := HitOf(s, documents, relevance, x), HitOf(s, documents, raised, x);
    var before, after := AllHits(s, documents, relevance), AllHits(s, documents, raised);
    hide Pool, Normalised;
    forall h | h in Ahead(HitLess, after, now) ensures h in Ahead(HitLess, before, was) {
      var id :| id in Pool(s, documents) && h == HitOf(s, documents, raised, id);
      BeforeIrreflexive(x);
      assert id != x;
      assert h == HitOf(s, documents, relevance, id);
      assert HitLess(h, was);
    }
    SubsetCount(Ahead(HitLess, after, now), Ahead(HitLess, before, was));
  }

  /** Raising one document's feedback, and nothing else, never moves it down or out. */
  lemma RaisedNeverSinks(documents: seq<string>, s: Signals, relevance: map<string, real>, more: real, limit: nat,
                         before: seq<Hit>, after: seq<Hit>, j: nat)
    returns (i: nat)
    requires Ranked(s, documents, relevance, limit, before) && j < |before|
    requires more >= Liked(relevance, before[j].id)
    requires Ranked(s, documents, relevance[before[j].id := more], limit, after)
    ensures i <= j && i < |after| && after[i].id == before[j].id
  {
    var x := before[j].id;
    var raised := relevance[x := more];
    PlaceIsAhead(documents, s, relevance, limit, before, j);
    HitSays(documents, s, relevance, limit, before, j);
    HitNamed(s, documents, relevance, before[j]);
    HitNamed(s, documents, raised, HitOf(s, documents, raised, x));
    hide *;
    InAll(s, documents, raised, x);
    AheadShrinks(documents, s, relevance, x, more);
    i := ShownAt(documents, s, raised, limit, after, HitOf(s, documents, raised, x));
  }

  lemma InAll(s: Signals, documents: seq<string>, relevance: map<string, real>, x: string)
    requires x in Pool(s, documents)
    ensures HitOf(s, documents, relevance, x) in AllHits(s, documents, relevance)
    ensures HitOf(s, documents, relevance, x).id == x
  {
    hide Pool, Normalised;
  }

  lemma HitNamed(s: Signals, documents: seq<string>, relevance: map<string, real>, h: Hit)
    ensures h in AllHits(s, documents, relevance) ==> h == HitOf(s, documents, relevance, h.id)
  {
    hide Pool, Normalised;
  }

  // ------------------------------------------------------------------ the bases

  /** A rank's weight in the fusion; being unranked weighs nothing. */
  function Weight(rank: nat): real {
    if rank == 0 then 0.0 else 1.0 / (60 + rank) as real
  }

  /** Before it is normalised a base is twice the weight of the words' rank and once
      that of the meaning's; in a scope with a meaning of its own, the weights of both
      meanings. */
  ghost function Fused(s: Signals, id: string): real {
    if s.scoped && s.context.Some? && s.authorization.Some? then
      Weight(RankIn(s.authorization.value, id)) + Weight(RankIn(s.context.value, id))
    else
      2.0 * Weight(LexicalRank(s.hits, id)) +
      if s.authorization.None? then 0.0
      else Weight(RankIn(if s.context.Some? then s.context.value else s.authorization.value, id))
  }

  /** Bases are shares of the best document's: that one has all of it. */
  lemma BaseIsFused(documents: seq<string>, s: Signals, relevance: map<string, real>, limit: nat, hits: seq<Hit>,
                    i: nat) returns (best: string)
    requires Ranked(s, documents, relevance, limit, hits) && i < |hits|
    ensures best in documents && forall d :: d in documents ==> Fused(s, d) <= Fused(s, best)
    ensures Fused(s, best) > 0.0 ==> hits[i].base * Fused(s, best) == Fused(s, hits[i].id)
    ensures Fused(s, best) == 0.0 ==> hits[i].base == 0.0
  {
    hide *;
    HitSays(documents, s, relevance, limit, hits, i);
    PoolDocuments(s, documents);
    best := BestFused(s, documents);
    BaseShare(s, documents, hits[i].id, best);
  }

  lemma BaseShare(s: Signals, documents: seq<string>, id: string, best: string)
    requires id in documents && Fused(s, best) == MaximumBase(s, documents) && 0.0 <= Fused(s, id) <= Fused(s, best)
    ensures Fused(s, best) > 0.0 ==> Normalised(s, documents, id) * Fused(s, best) == Fused(s, id)
    ensures Fused(s, best) == 0.0 ==> Normalised(s, documents, id) == 0.0
  {
    SameFusion(s, id);
    hide RankingBase, Fused, MaximumBase;
    if Fused(s, best) > 0.0 {
      Shared(Fused(s, id), Fused(s, best), Normalised(s, documents, id));
    }
  }

  lemma BestFused(s: Signals, documents: seq<string>) returns (best: string)
    requires documents != []
    ensures best in documents && Fused(s, best) == MaximumBase(s, documents)
    ensures forall d :: d in documents ==> 0.0 <= Fused(s, d) <= Fused(s, best)
  {
    hide *;
    forall d ensures RankingBase(s, d) >= 0.0 && RankingBase(s, d) == Fused(s, d) {
      SameFusion(s, d);
      BaseNonNegative(s, d);
    }
    best := Best(s, documents);
  }

  lemma SameFusion(s: Signals, d: string)
    ensures RankingBase(s, d) == Fused(s, d)
  {
    hide RankIn, LexicalRank;
  }

  lemma Shared(part: real, whole: real, share: real)
    requires whole > 0.0 && share == part / whole
    ensures share * whole == part
  {
  }

  lemma {:induction false} Best(s: Signals, documents: seq<string>) returns (best: string)
    requires documents != [] && forall d :: RankingBase(s, d) >= 0.0
    ensures best in documents && RankingBase(s, best) == MaximumBase(s, documents)
    ensures forall d :: d in documents ==> RankingBase(s, d) <= RankingBase(s, best)
  {
    hide RankingBase;
    var front, last := documents[..|documents| - 1], documents[|documents| - 1];
    assert documents == front + [last];
    if front == [] {
      best := last;
    } else {
      best := Best(s, front);
      if RankingBase(s, last) > RankingBase(s, best) {
        best := last;
      }
    }
  }


  const WORDS: Signals := Signals(["a", "b"], None, None, false)

  /** Two documents found by their words, and the second one liked: it comes first, with
      its share of the first one's base and what was said on top. */
  lemma LikedOvertakes(hits: seq<Hit>)
    requires Ranked(WORDS, ["a", "b"], map["b" := 0.1], 10, hits)
    ensures |hits| == 2 && hits[0] == Hit("b", 61.0 / 62.0 + 0.1, 61.0 / 62.0, 0.1)
    ensures hits[1] == Hit("a", 1.0, 1.0, 0.0)
  {
    TwoHits();
    hide AllHits, HitOf, Pool;
    var x, y := Hit("b", 61.0 / 62.0 + 0.1, 61.0 / 62.0, 0.1), Hit("a", 1.0, 1.0, 0.0);
    assert HitLess(x, y) && !HitLess(y, x) && !HitLess(x, x) && !HitLess(y, y) by {
      BeforeIrreflexive("a");
      BeforeIrreflexive("b");
    }
    hide HitLess;
    assert Ahead(HitLess, {x, y}, x) == {} && Ahead(HitLess, {x, y}, y) == {x};
    assert Rows(hits) == {x, y};
    assert Ascending(HitLess, [x, y]) && Rows([x, y]) == {x, y};
    HitOrder(WORDS, ["a", "b"], map["b" := 0.1]);
    AscendingUnique(HitLess, hits, [x, y]);
  }

  lemma TwoHits()
    ensures AllHits(WORDS, ["a", "b"], map["b" := 0.1]) ==
            {Hit("b", 61.0 / 62.0 + 0.1, 61.0 / 62.0, 0.1), Hit("a", 1.0, 1.0, 0.0)}
  {
    TwoBases();
    var relevance := map["b" := 0.1];
    hide RankingBase, MaximumBase;
    assert Normalised(WORDS, ["a", "b"], "a") == 1.0 && Normalised(WORDS, ["a", "b"], "b") == 61.0 / 62.0;
    hide Normalised;
    assert Pool(WORDS, ["a", "b"]) == {"a", "b"};
    var x, y := HitOf(WORDS, ["a", "b"], relevance, "b"), HitOf(WORDS, ["a", "b"], relevance, "a");
    hide HitOf, Pool;
    assert AllHits(WORDS, ["a", "b"], relevance) == {x, y};
  }

  lemma TwoBases()
    ensures RankingBase(WORDS, "a") == 2.0 / 61.0 && RankingBase(WORDS, "b") == 2.0 / 62.0
    ensures MaximumBase(WORDS, ["a", "b"]) == 2.0 / 61.0
  {
    assert ["a", "b"][..1] == ["a"] && ["a"][..0] == [];
    assert LexicalRank(["a", "b"], "b") == 2;
    assert LexicalRank(["a"], "a") == 1 && "a" != "b";
    assert LexicalRank(["a", "b"], "a") == 1;
    assert RankingBase(WORDS, "a") == 2.0 / 61.0 && RankingBase(WORDS, "b") == 2.0 / 62.0;
    assert MaximumBase(WORDS, []) == 0.0 && MaximumBase(WORDS, ["a"]) == 2.0 / 61.0;
  }

  /** What eligibility weighs: twice the words, once the meaning of the query alone. */
  ghost function Authority(s: Signals, id: string): real {
    2.0 * Weight(LexicalRank(s.hits, id)) +
    if s.authorization.None? then 0.0 else Weight(RankIn(s.authorization.value, id))
  }

  /** A scoped search shows exactly the documents with any authority that fewer than a
      hundred others precede, by authority and, among equals, by id. */
  lemma EligibleIff(documents: seq<string>, s: Signals, relevance: map<string, real>, limit: nat, hits: seq<Hit>,
                    id: string)
    requires s.scoped && Ranked(s, documents, relevance, limit, hits)
    ensures (exists h :: h in hits && h.id == id) <==>
              && id in documents && Authority(s, id) > 0.0
              && |set d | d in documents && Precedes(s, d, id)| < 100
  {
    ShownIff(documents, s, relevance, limit, hits, id);
    hide *;
    EligibleCount(documents, s, id);
  }

  ghost predicate Precedes(s: Signals, d: string, id: string) {
    Authority(s, d) > Authority(s, id) || (Authority(s, d) == Authority(s, id) && Before(d, id))
  }

  lemma ShownIff(documents: seq<string>, s: Signals, relevance: map<string, real>, limit: nat, hits: seq<Hit>,
                 id: string)
    requires s.scoped && Ranked(s, documents, relevance, limit, hits)
    ensures (exists h :: h in hits && h.id == id) <==> id in EligibleIDs(s, documents)
  {
    hide EligibleIDs, Normalised, HitLess;
    if id in EligibleIDs(s, documents) {
      assert HitOf(s, documents, relevance, id) in AllHits(s, documents, relevance);
      assert HitOf(s, documents, relevance, id) in Rows(hits);
    }
    if h :| h in hits && h.id == id {
      assert h in Rows(hits);
    }
  }

  lemma SameAuthority(s: Signals, d: string)
    ensures AuthorizationBase(s, d) == Authority(s, d) >= 0.0
  {
    hide RankIn, LexicalRank;
  }

  lemma EligibleCount(documents: seq<string>, s: Signals, id: string)
    ensures id in EligibleIDs(s, documents) <==>
              && id in documents && Authority(s, id) > 0.0
              && |set d | d in documents && Precedes(s, d, id)| < 100
  {
    hide *;
    InEligible(documents, s, id);
    SameAuthority(s, id);
    if id in documents && Authority(s, id) > 0.0 {
      AheadCount(documents, s, id);
    }
  }

  lemma InEligible(documents: seq<string>, s: Signals, id: string)
    ensures id in EligibleIDs(s, documents) <==>
              && id in documents && AuthorizationBase(s, id) > 0.0
              && |Ahead(ItemLess, Authorized(s, documents), Item(id, AuthorizationBase(s, id)))| < 100
  {
    hide AuthorizationBase, ItemLess, Ahead;
    var item := Item(id, AuthorizationBase(s, id));
    if id in documents && AuthorizationBase(s, id) > 0.0 {
      assert item in Authorized(s, documents);
    }
    if i :| i in Authorized(s, documents) && i.id == id {
      assert i == item;
    }
  }

  lemma AheadCount(documents: seq<string>, s: Signals, id: string)
    requires id in documents && Authority(s, id) > 0.0
    ensures |Ahead(ItemLess, Authorized(s, documents), Item(id, AuthorizationBase(s, id)))| ==
            |set d | d in documents && Precedes(s, d, id)|
  {
    forall d ensures AuthorizationBase(s, d) == Authority(s, d) {
      SameAuthority(s, d);
    }
    hide AuthorizationBase, Authority;
    var item := (d: string) => Item(d, AuthorizationBase(s, d));
    var ahead := Ahead(ItemLess, Authorized(s, documents), item(id));
    var ids := set d | d in documents && Precedes(s, d, id);
    forall i ensures i in ahead <==> i in (set d | d in ids :: item(d)) {
      if i in ahead {
        var d :| d in documents && i == item(d);
        assert d in ids;
      }
      if d :| d in ids && i == item(d) {
        assert item(d) in Authorized(s, documents);
      }
    }
    SameCount(ahead, ids, item);
  }

  lemma {:induction false} SameCount(items: set<Item>, ids: set<string>, item: string -> Item)
    requires forall d :: item(d).id == d
    requires items == set d | d in ids :: item(d)
    ensures |items| == |ids|
  {
    if ids == {} {
      assert items == {};
    } else {
      var d :| d in ids;
      assert items - {item(d)} == set e | e in ids - {d} :: item(e);
      SameCount(items - {item(d)}, ids - {d}, item);
    }
  }
}
