/** Reciprocal rank fusion. Meaning and words decide which documents are
    eligible; scope, lens and feedback decide only their order. */
module Ranking {
  import opened Text
  import opened Ordering
  import opened ScopedModel

  const MAXIMUM_RANKS: nat := 100

  type Scores = map<string, Score>

  // ------------------------------------------------------------ ranks by score

  datatype Item = Item(id: string, score: real)

  /** Higher scores first, and ids in order among equals. */
  predicate ItemLess(a: Item, b: Item) {
    a.score > b.score || (a.score == b.score && Before(a.id, b.id))
  }

  lemma ItemOrder()
    ensures StrictOrder(ItemLess)
    ensures forall a: Item, b: Item :: a.id != b.id ==> ItemLess(a, b) || ItemLess(b, a)
  {
    BeforeIsOrder();
  }

  function Items(scores: Scores): set<Item> {
    set id | id in scores && scores[id].Finite? :: Item(id, scores[id].value)
  }

  /** The rows strictly ahead of one. */
  ghost function Ahead<R(!new)>(less: (R, R) -> bool, rows: set<R>, row: R): set<R> {
    set other | other in rows && less(other, row)
  }

  /** A rank counts who is ahead; none beyond the limit, nor for a score that is not finite. */
  ghost function RankIn(scores: Scores, id: string): nat {
    if id in scores && scores[id].Finite? &&
      |Ahead(ItemLess, Items(scores), Item(id, scores[id].value))| < MAXIMUM_RANKS
    then |Ahead(ItemLess, Items(scores), Item(id, scores[id].value))| + 1
    else 0
  }

  function Looked(ranks: map<string, nat>, id: string): nat {
    if id in ranks then ranks[id] else 0
  }

  /** In an ascending listing, position counts the rows ahead. */
  lemma PositionIsAhead<R(!new)>(less: (R, R) -> bool, s: seq<R>, k: nat)
    requires StrictOrder(less) && Ascending(less, s) && k < |s|
    ensures |Ahead(less, Rows(s), s[k])| == k
  {
    var ahead, front := Ahead(less, Rows(s), s[k]), s[..k];
    forall j | k <= j < |s| ensures !less(s[j], s[k]) {
      assert k < j ==> less(s[k], s[j]);
    }
    forall r ensures r in ahead <==> r in front {
      if r in ahead {
        var j :| 0 <= j < |s| && s[j] == r;
      }
      if r in front {
        var j :| 0 <= j < k && front[j] == r;
        assert s[j] == r && less(s[j], s[k]);
      }
    }
    assert ahead == Rows(front);
    DistinctCount(less, front);
  }

  lemma {:induction false} DistinctCount<R(!new)>(less: (R, R) -> bool, s: seq<R>)
    requires StrictOrder(less) && Ascending(less, s)
    ensures |Rows(s)| == |s|
  {
    if s != [] {
      var front, last := s[..|s| - 1], s[|s| - 1];
      DistinctCount(less, front);
      assert last !in front;
      assert Rows(s) == Rows(front) + {last};
    }
  }

  function Taken<R>(s: seq<R>, n: nat): seq<R> {
    if |s| > n then s[..n] else s
  }

  /** Cutting an ascending listing keeps the rows with fewer than n ahead. */
  lemma TakenAhead<R(!new)>(less: (R, R) -> bool, s: seq<R>, n: nat)
    requires StrictOrder(less) && Ascending(less, s)
    ensures Rows(Taken(s, n)) == set r | r in Rows(s) && |Ahead(less, Rows(s), r)| < n
    ensures Ascending(less, Taken(s, n))
  {
    forall k | 0 <= k < |s| ensures |Ahead(less, Rows(s), s[k])| == k {
      PositionIsAhead(less, s, k);
    }
    var t := Taken(s, n);
    forall r ensures r in t <==> r in s && |Ahead(less, Rows(s), r)| < n {
      if r in s {
        var k :| 0 <= k < |s| && s[k] == r;
        assert k < n ==> t[k] == r;
      }
    }
  }

  /** rankScores */
  method RankScores(scores: Scores) returns (ranks: map<string, nat>)
    ensures forall id :: Looked(ranks, id) == RankIn(scores, id)
  {
    ItemsComparable(scores);
    hide *;
    var items := SelectOrdered(ItemLess, Items(scores));
    IDsDiffer(scores, items);
    ranks := map[];
    NumberedNone(items);
    var index := 0;
    while index < |items| && index < MAXIMUM_RANKS
      invariant index <= |items| && index <= MAXIMUM_RANKS
      invariant Numbered(items, index, ranks)
    {
      NumberedNext(items, index, ranks);
      ranks := ranks[items[index].id := index + 1];
      index := index + 1;
    }
    forall id ensures Looked(ranks, id) == RankIn(scores, id) {
      RankCountsAhead(scores, items, index, ranks, id);
    }
  }

  ghost predicate Numbered(items: seq<Item>, n: nat, ranks: map<string, nat>)
    requires n <= |items|
  {
    && (forall k :: 0 <= k < n ==> items[k].id in ranks && ranks[items[k].id] == k + 1)
    && (forall id :: id in ranks ==> exists k :: 0 <= k < n && items[k].id == id)
  }

  ghost predicate DistinctItems(items: seq<Item>) {
    forall j, k :: 0 <= j < k < |items| ==> items[j].id != items[k].id
  }

  lemma NumberedNone(items: seq<Item>)
    ensures Numbered(items, 0, map[])
  {
  }

  lemma NumberedNext(items: seq<Item>, n: nat, ranks: map<string, nat>)
    requires n < |items| && Numbered(items, n, ranks)
    requires DistinctItems(items)
    ensures Numbered(items, n + 1, ranks[items[n].id := n + 1])
  {
  }

  lemma ItemsComparable(scores: Scores)
    ensures StrictOrder(ItemLess) && Comparable(ItemLess, Items(scores))
  {
    ItemOrder();
  }

  lemma IDsDiffer(scores: Scores, items: seq<Item>)
    requires Ascending(ItemLess, items) && Rows(items) == Items(scores)
    ensures DistinctItems(items)
  {
    ItemOrder();
    forall j, k | 0 <= j < k < |items| ensures items[j].id != items[k].id {
      assert ItemLess(items[j], items[k]) && items[j] in Rows(items) && items[k] in Rows(items);
    }
  }

  lemma RankCountsAhead(scores: Scores, items: seq<Item>, n: nat, ranks: map<string, nat>, id: string)
    requires Ascending(ItemLess, items) && Rows(items) == Items(scores)
    requires n <= |items| && n <= MAXIMUM_RANKS && (n < |items| ==> n == MAXIMUM_RANKS) && Numbered(items, n, ranks)
    ensures Looked(ranks, id) == RankIn(scores, id)
  {
    IDsDiffer(scores, items);
    ItemsComparable(scores);
    hide ItemLess;
    forall j | 0 <= j < n ensures items[j].id in scores && scores[items[j].id].Finite? {
      assert items[j] in Rows(items);
    }
    if id in scores && scores[id].Finite? {
      var item := Item(id, scores[id].value);
      assert item in Rows(items);
      var k :| 0 <= k < |items| && items[k] == item;
      PositionIsAhead(ItemLess, items, k);
    }
  }

  // ------------------------------------------------------------------- fusion

  function Reciprocal(rank: nat): (r: real)
    ensures 0.0 <= r <= 1.0 / 61.0
    ensures r == 0.0 <==> rank == 0
  {
    if rank == 0 then 0.0
    else
      assert 60 + rank >= 61;
      1.0 / (60 + rank) as real
  }

  lemma ReciprocalAntitone(a: nat, b: nat)
    requires 0 < a < b
    ensures Reciprocal(a) > Reciprocal(b)
  {
    InverseAntitone((60 + a) as real, (60 + b) as real);
  }

  lemma InverseAntitone(p: real, q: real)
    requires 0.0 < p < q
    ensures 1.0 / p > 1.0 / q
  {
    var x, y := 1.0 / p, 1.0 / q;
    assert x * p == 1.0 && y * q == 1.0 && y > 0.0;
    assert y * p < y * q;
    assert (x - y) * p == x * p - y * p;
  }

  /** The lexical hits in order. authorization is the query-only meaning, or
      nothing when it failed; context is the meaning of scope or lens, if any. */
  datatype Signals = Signals(hits: seq<string>, authorization: Option<Scores>, context: Option<Scores>, scoped: bool)

  /** A document's place among the lexical hits: its last one, from one. */
  ghost function LexicalRank(hits: seq<string>, id: string): nat {
    if hits == [] then 0
    else if hits[|hits| - 1] == id then |hits|
    else LexicalRank(hits[..|hits| - 1], id)
  }

  ghost function SemanticRank(s: Signals, id: string): nat {
    match s.authorization
    case None => 0
    case Some(query) => RankIn(if s.context.Some? then s.context.value else query, id)
  }

  ghost function AuthorizationRank(s: Signals, id: string): nat {
    if s.authorization.Some? then RankIn(s.authorization.value, id) else 0
  }

  /** What decides eligibility: words count double, query-only meaning once. */
  ghost function AuthorizationBase(s: Signals, id: string): real {
    2.0 * Reciprocal(LexicalRank(s.hits, id)) + Reciprocal(AuthorizationRank(s, id))
  }

  /** What decides order: for a scoped search with a context, meaning alone. */
  ghost function RankingBase(s: Signals, id: string): real {
    if s.scoped && s.context.Some? && s.authorization.Some? then
      Reciprocal(AuthorizationRank(s, id)) + Reciprocal(SemanticRank(s, id))
    else
      2.0 * Reciprocal(LexicalRank(s.hits, id)) + Reciprocal(SemanticRank(s, id))
  }

  // ------------------------------------------------------------ the ranked hits

  datatype Hit = Hit(id: string, score: real, base: real, feedback: real)

  predicate HitLess(a: Hit, b: Hit) {
    ItemLess(Item(a.id, a.score), Item(b.id, b.score))
  }

  /** The largest ranking base, or zero. */
  ghost function MaximumBase(s: Signals, documents: seq<string>): real {
    if documents == [] then 0.0
    else
      var rest, base := MaximumBase(s, documents[..|documents| - 1]), RankingBase(s, documents[|documents| - 1]);
      if base > rest then base else rest
  }

  /** A scoped search keeps the hundred best by authorization among those with any. */
  ghost function Authorized(s: Signals, documents: seq<string>): set<Item> {
    set d | d in documents && AuthorizationBase(s, d) > 0.0 :: Item(d, AuthorizationBase(s, d))
  }

  ghost function EligibleIDs(s: Signals, documents: seq<string>): set<string> {
    set i | i in Authorized(s, documents) && |Ahead(ItemLess, Authorized(s, documents), i)| < MAXIMUM_RANKS :: i.id
  }

  /** Context is not part of what decides membership. */
  lemma EligibilityIgnoresContext(s: Signals, documents: seq<string>, context: Option<Scores>)
    ensures EligibleIDs(s, documents) == EligibleIDs(s.(context := context), documents)
    ensures |EligibleIDs(s, documents)| <= MAXIMUM_RANKS
  {
    assert Authorized(s, documents) == Authorized(s.(context := context), documents);
    ItemOrder();
    AuthorizedComparable(s, documents);
    var listing := Listing(ItemLess, Authorized(s, documents));
    ListingAscending(ItemLess, Authorized(s, documents));
    TakenAhead(ItemLess, listing, MAXIMUM_RANKS);
    var taken := Taken(listing, MAXIMUM_RANKS);
    DistinctCount(ItemLess, taken);
    assert EligibleIDs(s, documents) == set i | i in Rows(taken) :: i.id;
    ImageCount(Rows(taken));
  }

  lemma AuthorizedComparable(s: Signals, documents: seq<string>)
    ensures Comparable(ItemLess, Authorized(s, documents))
  {
    ItemOrder();
  }

  lemma {:induction false} ImageCount(items: set<Item>)
    ensures |(set i | i in items :: i.id)| <= |items|
  {
    var ids := set i | i in items :: i.id;
    if items != {} {
      var i :| i in items;
      ImageCount(items - {i});
      assert ids == (set j | j in items - {i} :: j.id) + {i.id};
    }
  }

  ghost function Normalised(s: Signals, documents: seq<string>, id: string): real {
    if MaximumBase(s, documents) > 0.0 then RankingBase(s, id) / MaximumBase(s, documents) else RankingBase(s, id)
  }

  ghost function HitOf(s: Signals, documents: seq<string>, relevance: map<string, real>, id: string): Hit {
    var base, feedback := Normalised(s, documents, id), if id in relevance then relevance[id] else 0.0;
    Hit(id, base + feedback, base, feedback)
  }

  /** The ids a search can return: the eligible ones, or unscoped, any with a base. */
  ghost function Pool(s: Signals, documents: seq<string>): set<string> {
    if s.scoped then EligibleIDs(s, documents) else set d | d in documents && RankingBase(s, d) != 0.0
  }

  ghost function AllHits(s: Signals, documents: seq<string>, relevance: map<string, real>): set<Hit> {
    set id | id in Pool(s, documents) :: HitOf(s, documents, relevance, id)
  }

  /** All hits, best first; unscoped, only those with fewer than limit ahead. */
  ghost predicate Ranked(s: Signals, documents: seq<string>, relevance: map<string, real>, limit: nat, hits: seq<Hit>) {
    && Ascending(HitLess, hits)
    && Rows(hits) == set h | h in AllHits(s, documents, relevance) &&
                             (s.scoped || |Ahead(HitLess, AllHits(s, documents, relevance), h)| < limit)
  }

  ghost predicate DistinctTexts(documents: seq<string>) {
    forall i, j :: 0 <= i < j < |documents| ==> documents[i] != documents[j]
  }

  method LexicalRanks(hits: seq<string>) returns (ranks: map<string, nat>)
    ensures forall id :: Looked(ranks, id) == LexicalRank(hits, id)
  {
    ranks := map[];
    for i := 0 to |hits|
      invariant forall id :: Looked(ranks, id) == LexicalRank(hits[..i], id)
    {
      assert hits[..i + 1][..i] == hits[..i];
      ranks := ranks[hits[i] := i + 1];
    }
    assert hits[..|hits|] == hits;
  }

  /** One document's two bases, from the three rank tables. */
  method Bases(s: Signals, lexical: map<string, nat>, authorization: map<string, nat>, semantic: map<string, nat>,
               id: string)
    returns (base: real, authorizationBase: real)
    requires Looked(lexical, id) == LexicalRank(s.hits, id)
    requires Looked(authorization, id) == AuthorizationRank(s, id) && Looked(semantic, id) == SemanticRank(s, id)
    ensures base == RankingBase(s, id) && authorizationBase == AuthorizationBase(s, id)
  {
    hide Reciprocal;
    var lexicalPart, semanticPart := Reciprocal(Looked(lexical, id)), Reciprocal(Looked(semantic, id));
    var authorizationPart := Reciprocal(Looked(authorization, id));
    base := 2.0 * lexicalPart + semanticPart;
    authorizationBase := 2.0 * lexicalPart + authorizationPart;
    if s.scoped && s.context.Some? && s.authorization.Some? {
      base := authorizationPart + semanticPart;
    }
    if s.authorization.None? {
      NoMeaning(s, id);
      base := 2.0 * lexicalPart;
      authorizationBase := base;
    }
  }

  lemma NoMeaning(s: Signals, id: string)
    requires s.authorization.None?
    ensures Reciprocal(SemanticRank(s, id)) == 0.0 && Reciprocal(AuthorizationRank(s, id)) == 0.0
  {
  }

  /** Every document's bases and the largest of them. */
  method Candidates(s: Signals, documents: seq<string>)
    returns (candidates: seq<Item>, bases: map<string, real>, maximum: real)
    ensures |candidates| == |documents| && forall i :: 0 <= i < |documents| ==>
              candidates[i] == Item(documents[i], AuthorizationBase(s, documents[i]))
    ensures forall d :: d in documents ==> d in bases && bases[d] == RankingBase(s, d)
    ensures maximum == MaximumBase(s, documents)
  {
    var lexical := LexicalRanks(s.hits);
    var authorization := RankScores(if s.authorization.Some? then s.authorization.value else map[]);
    var semantic := RankScores(if s.authorization.None? then map[]
                               else if s.context.Some? then s.context.value else s.authorization.value);
    hide RankIn, LexicalRank, RankingBase, AuthorizationBase, Looked;
    candidates, bases, maximum := [], map[], 0.0;
    for i := 0 to |documents|
      invariant |candidates| == i && forall k :: 0 <= k < i ==>
                  candidates[k] == Item(documents[k], AuthorizationBase(s, documents[k]))
      invariant forall k :: 0 <= k < i ==> documents[k] in bases && bases[documents[k]] == RankingBase(s, documents[k])
      invariant maximum == MaximumBase(s, documents[..i])
    {
      NothingRanked(documents[i]);
      var base, authorizationBase := Bases(s, lexical, authorization, semantic, documents[i]);
      assert documents[..i + 1][..i] == documents[..i];
      if base > maximum {
        maximum := base;
      }
      candidates, bases := candidates + [Item(documents[i], authorizationBase)], bases[documents[i] := base];
    }
    assert documents[..|documents|] == documents;
  }

  lemma NothingRanked(id: string)
    ensures RankIn(map[], id) == 0
  {
  }

  /** The filter, sort and cut of a scoped search. */
  method Eligible(s: Signals, documents: seq<string>, candidates: seq<Item>) returns (kept: seq<Item>)
    requires DistinctTexts(documents) && |candidates| == |documents|
    requires forall i :: 0 <= i < |documents| ==>
               candidates[i] == Item(documents[i], AuthorizationBase(s, documents[i]))
    ensures (set i | i in kept :: i.id) == EligibleIDs(s, documents)
    ensures forall i, j :: 0 <= i < j < |kept| ==> kept[i].id != kept[j].id
  {
    kept := [];
    for n := 0 to |candidates|
      invariant forall i :: i in kept <==> i in candidates[..n] && i.score > 0.0
      invariant forall i, j :: 0 <= i < j < |kept| ==> kept[i].id != kept[j].id
    {
      if candidates[n].score > 0.0 {
        forall k | 0 <= k < |kept| ensures kept[k].id != candidates[n].id {
          assert kept[k] in candidates[..n];
          var m :| 0 <= m < n && candidates[m] == kept[k];
          assert documents[m] != documents[n];
        }
        kept := kept + [candidates[n]];
      }
    }
    assert candidates[..|candidates|] == candidates;
    AuthorizedRows(s, documents, candidates, kept);
    hide AuthorizationBase;
    ItemOrder();
    AuthorizedComparable(s, documents);
    SortedAscending(ItemLess, kept);
    var sorted := Sorted(ItemLess, kept);
    TakenAhead(ItemLess, sorted, MAXIMUM_RANKS);
    kept := Taken(sorted, MAXIMUM_RANKS);
    assert EligibleIDs(s, documents) == set i | i in Rows(kept) :: i.id;
    AscendingIDs(s, documents, kept);
  }

  lemma AuthorizedRows(s: Signals, documents: seq<string>, candidates: seq<Item>, kept: seq<Item>)
    requires |candidates| == |documents|
    requires forall i :: 0 <= i < |documents| ==>
               candidates[i] == Item(documents[i], AuthorizationBase(s, documents[i]))
    requires forall i :: i in kept <==> i in candidates && i.score > 0.0
    ensures Rows(kept) == Authorized(s, documents)
  {
    hide AuthorizationBase;
    forall i ensures i in kept <==> i in Authorized(s, documents) {
      if i in kept {
        var n :| 0 <= n < |candidates| && candidates[n] == i;
        assert documents[n] in documents;
      }
      if i in Authorized(s, documents) {
        var n :| 0 <= n < |documents| && documents[n] == i.id;
        assert candidates[n] == i;
      }
    }
  }

  lemma AscendingIDs(s: Signals, documents: seq<string>, kept: seq<Item>)
    requires Ascending(ItemLess, kept) && Rows(kept) <= Authorized(s, documents)
    ensures forall i, j :: 0 <= i < j < |kept| ==> kept[i].id != kept[j].id
  {
    hide AuthorizationBase;
    ItemOrder();
    forall i, j | 0 <= i < j < |kept| ensures kept[i].id != kept[j].id {
      assert kept[i] in Rows(kept) && kept[j] in Rows(kept) && ItemLess(kept[i], kept[j]);
    }
  }

  /** Rank: a limit of none or less means ten, and more than a hundred is an error.
      signals is none when the lexical search or the lens lookup failed, feedback
      when the store refused it. */
  method Rank(query: string, documents: seq<string>, signals: Option<Signals>, feedback: Option<map<string, real>>,
              limit: int)
    returns (ok: bool, hits: seq<Hit>)
    requires DistinctTexts(documents)
    ensures ok <==> !Blank(query) && limit <= 100 && signals.Some? && feedback.Some?
    ensures ok ==> Ranked(signals.value, documents, feedback.value, if limit <= 0 then 10 else limit, hits)
  {
    hits := [];
    var most := if limit <= 0 then 10 else limit;
    if Blank(query) || most > 100 || signals.None? || feedback.None? {
      return false, hits;
    }
    hide Blank;
    ok := true;
    hits := RankSignals(documents, signals.value, feedback.value, most);
  }

  method RankSignals(documents: seq<string>, s: Signals, relevance: map<string, real>, most: nat)
    returns (hits: seq<Hit>)
    requires DistinctTexts(documents)
    ensures Ranked(s, documents, relevance, most, hits)
  {
    var candidates, bases, maximum := Candidates(s, documents);
    ghost var all := candidates;
    if s.scoped {
      candidates := Eligible(s, documents, candidates);
    }
    hide AuthorizationBase, RankingBase;
    PoolOf(s, documents, all, candidates);
    hide Pool, EligibleIDs, HitOf, AllHits, HitLess;
    hits := Scored(s, documents, relevance, candidates, bases, maximum);
    HitOrder(s, documents, relevance);
    SortedAscending(HitLess, hits);
    hits := Sorted(HitLess, hits);
    TakenAhead(HitLess, hits, most);
    if !s.scoped {
      hits := Taken(hits, most);
    }
  }

  /** The loop that normalises and adds feedback; unscoped, a zero base is dropped. */
  method Scored(s: Signals, documents: seq<string>, relevance: map<string, real>, candidates: seq<Item>,
                bases: map<string, real>, maximum: real) returns (hits: seq<Hit>)
    requires forall d :: d in documents ==> d in bases && bases[d] == RankingBase(s, d)
    requires maximum == MaximumBase(s, documents)
    requires forall i, j :: 0 <= i < j < |candidates| ==> candidates[i].id != candidates[j].id
    requires forall k :: 0 <= k < |candidates| ==>
               && candidates[k].id in documents
               && (candidates[k].id in Pool(s, documents) <==> s.scoped || RankingBase(s, candidates[k].id) != 0.0)
    requires forall id :: id in Pool(s, documents) ==> exists k :: 0 <= k < |candidates| && candidates[k].id == id
    ensures Rows(hits) == AllHits(s, documents, relevance) && Distinct(hits)
  {
    hide Pool, RankingBase, MaximumBase;
    hits := [];
    for n := 0 to |candidates|
      invariant forall h :: h in hits ==> h.id in Pool(s, documents) && h == HitOf(s, documents, relevance, h.id)
      invariant forall h :: h in hits ==> exists k :: 0 <= k < n && candidates[k].id == h.id
      invariant forall k :: 0 <= k < n && candidates[k].id in Pool(s, documents) ==>
                  HitOf(s, documents, relevance, candidates[k].id) in hits
      invariant Distinct(hits)
    {
      var id := candidates[n].id;
      var base := bases[id];
      if base != 0.0 || s.scoped {
        if maximum > 0.0 {
          base := base / maximum;
        }
        var feedback := if id in relevance then relevance[id] else 0.0;
        var hit := Hit(id, base + feedback, base, feedback);
        assert hit == HitOf(s, documents, relevance, id);
        assert hit !in hits;
        hits := hits + [hit];
      }
    }
    hide HitOf;
    forall h | h in AllHits(s, documents, relevance) ensures h in hits {
      var id :| id in Pool(s, documents) && h == HitOf(s, documents, relevance, id);
      var k :| 0 <= k < |candidates| && candidates[k].id == id;
    }
  }

  /** Candidates left after the scoped cut, or all of them, cover the pool. */
  lemma PoolOf(s: Signals, documents: seq<string>, all: seq<Item>, candidates: seq<Item>)
    requires |all| == |documents| && DistinctTexts(documents)
    requires forall i :: 0 <= i < |documents| ==> all[i] == Item(documents[i], AuthorizationBase(s, documents[i]))
    requires if s.scoped then (set i | i in candidates :: i.id) == EligibleIDs(s, documents) else candidates == all
    requires s.scoped ==> forall i, j :: 0 <= i < j < |candidates| ==> candidates[i].id != candidates[j].id
    ensures forall i, j :: 0 <= i < j < |candidates| ==> candidates[i].id != candidates[j].id
    ensures forall k :: 0 <= k < |candidates| ==>
              && candidates[k].id in documents
              && (candidates[k].id in Pool(s, documents) <==> s.scoped || RankingBase(s, candidates[k].id) != 0.0)
    ensures forall id :: id in Pool(s, documents) ==> exists k :: 0 <= k < |candidates| && candidates[k].id == id
  {
    hide AuthorizationBase, RankingBase;
    forall id | id in Pool(s, documents) ensures exists k :: 0 <= k < |candidates| && candidates[k].id == id {
      if s.scoped {
        var i :| i in candidates && i.id == id;
      } else {
        var n :| 0 <= n < |documents| && documents[n] == id;
        assert candidates[n].id == id;
      }
    }
    forall k | 0 <= k < |candidates|
      ensures candidates[k].id in documents
      ensures candidates[k].id in Pool(s, documents) <==> s.scoped || RankingBase(s, candidates[k].id) != 0.0
    {
      assert candidates[k] in candidates;
      if s.scoped {
        assert candidates[k].id in EligibleIDs(s, documents);
      }
    }
  }

  lemma HitOrder(s: Signals, documents: seq<string>, relevance: map<string, real>)
    ensures StrictOrder(HitLess) && Comparable(HitLess, AllHits(s, documents, relevance))
  {
    ItemOrder();
    hide HitOf, Pool;
    forall a, b | a in AllHits(s, documents, relevance) && b in AllHits(s, documents, relevance)
      ensures a == b || HitLess(a, b) || HitLess(b, a)
    {
      var i :| i in Pool(s, documents) && a == HitOf(s, documents, relevance, i);
      var j :| j in Pool(s, documents) && b == HitOf(s, documents, relevance, j);
      HitID(s, documents, relevance, i);
      HitID(s, documents, relevance, j);
    }
  }

  lemma HitID(s: Signals, documents: seq<string>, relevance: map<string, real>, id: string)
    ensures HitOf(s, documents, relevance, id).id == id
  {
  }

  // -------------------------------------------------------------- what follows

  /** Scoped membership is fixed by the documents, the lexical hits and the
      query-only meaning: no context, feedback or limit changes the set of ids. */
  lemma ContextKeepsMembership(documents: seq<string>, s: Signals, context: Option<Scores>,
                               relevance: map<string, real>, other: map<string, real>, limit: nat, most: nat,
                               hits: seq<Hit>, more: seq<Hit>)
    requires s.scoped && Ranked(s, documents, relevance, limit, hits)
    requires Ranked(s.(context := context), documents, other, most, more)
    ensures (set h | h in hits :: h.id) == (set h | h in more :: h.id) == EligibleIDs(s, documents)
    ensures |(set h | h in hits :: h.id)| <= 100
  {
    EligibilityIgnoresContext(s, documents, context);
    RankedIDs(documents, s, relevance, limit, hits);
    RankedIDs(documents, s.(context := context), other, most, more);
  }

  lemma RankedIDs(documents: seq<string>, s: Signals, relevance: map<string, real>, limit: nat, hits: seq<Hit>)
    requires s.scoped && Ranked(s, documents, relevance, limit, hits)
    ensures (set h | h in hits :: h.id) == EligibleIDs(s, documents)
  {
    hide HitOf, EligibleIDs;
    forall id ensures id in (set h | h in hits :: h.id) <==> id in EligibleIDs(s, documents) {
      HitID(s, documents, relevance, id);
      if id in EligibleIDs(s, documents) {
        assert HitOf(s, documents, relevance, id) in Rows(hits);
      }
      if h :| h in hits && h.id == id {
        assert h in Rows(hits);
        var i :| i in Pool(s, documents) && h == HitOf(s, documents, relevance, i);
        HitID(s, documents, relevance, i);
      }
    }
  }

  lemma {:induction false} MaximumBounds(s: Signals, documents: seq<string>)
    ensures MaximumBase(s, documents) >= 0.0
    ensures forall d :: d in documents ==> 0.0 <= RankingBase(s, d) <= MaximumBase(s, documents)
  {
    if documents != [] {
      var front, last := documents[..|documents| - 1], documents[|documents| - 1];
      assert documents == front + [last];
      MaximumBounds(s, front);
      BaseNonNegative(s, last);
      hide RankingBase;
    }
  }

  lemma BaseNonNegative(s: Signals, id: string)
    ensures RankingBase(s, id) >= 0.0
  {
    hide Reciprocal;
  }

  lemma Share(part: real, whole: real)
    requires 0.0 <= part <= whole && whole > 0.0
    ensures 0.0 <= part / whole <= 1.0
  {
    var q := part / whole;
    assert q * whole == part;
    assert q > 1.0 ==> q * whole > whole;
    assert q < 0.0 ==> q * whole < 0.0;
  }

  /** A normalised base lies between nothing and one. */
  lemma BaseIsShare(s: Signals, documents: seq<string>, id: string)
    requires id in documents
    ensures 0.0 <= Normalised(s, documents, id) <= 1.0
  {
    MaximumBounds(s, documents);
    if MaximumBase(s, documents) > 0.0 {
      hide RankingBase;
      Share(RankingBase(s, id), MaximumBase(s, documents));
    }
  }

  ghost predicate Mild(relevance: map<string, real>) {
    forall id :: id in relevance ==> -0.3 <= relevance[id] <= 0.3
  }

  /** Feedback cannot carry a document past one whose base is over 0.6 higher. */
  lemma FeedbackIsBounded(documents: seq<string>, s: Signals, relevance: map<string, real>, limit: nat, hits: seq<Hit>,
                          i: nat, j: nat)
    requires Ranked(s, documents, relevance, limit, hits) && Mild(relevance) && i < |hits| && j < |hits|
    requires hits[i].base > hits[j].base + 0.6
    ensures 0.0 <= hits[j].base && hits[i].base <= 1.0 && i < j
  {
    assert hits[i] in Rows(hits) && hits[j] in Rows(hits);
    hide Pool, RankingBase, Normalised, ItemLess;
    var a :| a in Pool(s, documents) && hits[i] == HitOf(s, documents, relevance, a);
    var b :| b in Pool(s, documents) && hits[j] == HitOf(s, documents, relevance, b);
    PoolDocuments(s, documents);
    BaseIsShare(s, documents, a);
    BaseIsShare(s, documents, b);
    NeverRising(hits, j, i);
  }

  lemma NeverRising(hits: seq<Hit>, i: nat, j: nat)
    requires Ascending(HitLess, hits) && i < |hits| && j < |hits|
    ensures i <= j ==> hits[i].score >= hits[j].score
  {
    if i < j {
      assert HitLess(hits[i], hits[j]);
    }
  }

  lemma PoolDocuments(s: Signals, documents: seq<string>)
    ensures forall id :: id in Pool(s, documents) ==> id in documents
  {
    hide RankingBase, AuthorizationBase;
  }

  /** No worse: present at least when the other is, and no further down. */
  predicate NoWorse(a: nat, b: nat) {
    b == 0 || 0 < a <= b
  }

  predicate Better(a: nat, b: nat) {
    NoWorse(a, b) && a != b
  }

  lemma ReciprocalOrder(a: nat, b: nat)
    ensures NoWorse(a, b) ==> Reciprocal(a) >= Reciprocal(b)
    ensures Better(a, b) ==> Reciprocal(a) > Reciprocal(b)
  {
    if 0 < a < b {
      ReciprocalAntitone(a, b);
    }
  }

  /** In an unscoped search, with equal feedback, a document no worse in both
      rank lists and better in one comes first: wherever the other is shown, it
      is shown before it. */
  lemma DominanceDecides(documents: seq<string>, s: Signals, relevance: map<string, real>, limit: nat, hits: seq<Hit>,
                         x: string, j: nat)
    requires !s.scoped && Ranked(s, documents, relevance, limit, hits) && x in documents && j < |hits|
    requires var y := hits[j].id;
             && NoWorse(LexicalRank(s.hits, x), LexicalRank(s.hits, y)) &&
                NoWorse(SemanticRank(s, x), SemanticRank(s, y))
             && (Better(LexicalRank(s.hits, x), LexicalRank(s.hits, y)) ||
                 Better(SemanticRank(s, x), SemanticRank(s, y)))
             && HitOf(s, documents, relevance, x).feedback == hits[j].feedback
    ensures exists i :: 0 <= i < j && hits[i].id == x
  {
    var y := hits[j].id;
    assert hits[j] in Rows(hits);
    ReciprocalOrder(LexicalRank(s.hits, x), LexicalRank(s.hits, y));
    ReciprocalOrder(SemanticRank(s, x), SemanticRank(s, y));
    BaseNonNegative(s, y);
    assert RankingBase(s, x) > RankingBase(s, y);
    hide Reciprocal, LexicalRank, RankIn;
    PoolDocuments(s, documents);
    HigherIsAhead(documents, s, relevance, x, y);
    HitOrder(s, documents, relevance);
    AheadIsShown(documents, s, relevance, limit, hits, HitOf(s, documents, relevance, x), j);
  }

  lemma HigherIsAhead(documents: seq<string>, s: Signals, relevance: map<string, real>, x: string, y: string)
    requires !s.scoped && x in documents && y in documents && RankingBase(s, x) > RankingBase(s, y) >= 0.0
    requires HitOf(s, documents, relevance, x).feedback == HitOf(s, documents, relevance, y).feedback
    ensures HitOf(s, documents, relevance, x) in AllHits(s, documents, relevance)
    ensures HitLess(HitOf(s, documents, relevance, x), HitOf(s, documents, relevance, y))
  {
    MaximumBounds(s, documents);
    hide RankingBase;
    Scaling(RankingBase(s, y), RankingBase(s, x), MaximumBase(s, documents));
    assert x in Pool(s, documents);
  }

  lemma Scaling(a: real, b: real, whole: real)
    requires a < b && whole > 0.0
    ensures a / whole < b / whole
  {
    assert (b / whole - a / whole) * whole == b - a;
  }

  /** A hit ahead of one that is shown is shown before it. */
  lemma AheadIsShown(documents: seq<string>, s: Signals, relevance: map<string, real>, limit: nat, hits: seq<Hit>,
                     h: Hit, j: nat)
    requires Ranked(s, documents, relevance, limit, hits) && j < |hits|
    requires h in AllHits(s, documents, relevance) && HitLess(h, hits[j])
    ensures exists i :: 0 <= i < j && hits[i] == h
  {
    HitOrder(s, documents, relevance);
    hide HitLess, AllHits;
    var all := AllHits(s, documents, relevance);
    assert hits[j] in Rows(hits);
    AheadGrows(HitLess, all, h, hits[j]);
    assert h in Rows(hits);
    forall i | j <= i < |hits| ensures hits[i] != h {
      assert j < i ==> HitLess(hits[j], hits[i]);
    }
  }

  lemma AheadGrows<R(!new)>(less: (R, R) -> bool, rows: set<R>, a: R, b: R)
    requires StrictOrder(less) && less(a, b)
    ensures |Ahead(less, rows, a)| <= |Ahead(less, rows, b)|
  {
    assert Ahead(less, rows, a) <= Ahead(less, rows, b);
    SubsetCount(Ahead(less, rows, a), Ahead(less, rows, b));
  }

  // -------------------------------------------------------- feedback per document

  function Sum(values: map<string, real>, aliases: seq<string>): real {
    if aliases == [] then 0.0
    else
      var last := aliases[|aliases| - 1];
      Sum(values, aliases[..|aliases| - 1]) + if last in values then values[last] else 0.0
  }

  function Observed(values: map<string, real>, aliases: seq<string>): nat {
    if aliases == [] then 0
    else Observed(values, aliases[..|aliases| - 1]) + if aliases[|aliases| - 1] in values then 1 else 0
  }

  /** feedbackRelevanceForRequest for one document: the mean of the aliases that
      have feedback, and no entry when none has. */
  method MeanFeedback(values: map<string, real>, aliases: seq<string>) returns (mean: Option<real>)
    ensures mean.None? <==> forall a :: a in aliases ==> a !in values
    ensures mean.Some? ==> Observed(values, aliases) > 0 &&
                           mean.value * Observed(values, aliases) as real == Sum(values, aliases)
    ensures mean.Some? && Mild(values) ==> -0.3 <= mean.value <= 0.3
  {
    var total, observed := TallyFeedback(values, aliases);
    hide *;
    if observed == 0 {
      return None;
    }
    Mean(total, observed as real);
    mean := Some(total / observed as real);
  }

  /** The loop over a document's aliases. */
  method TallyFeedback(values: map<string, real>, aliases: seq<string>) returns (total: real, observed: nat)
    ensures total == Sum(values, aliases) && observed == Observed(values, aliases)
    ensures observed == 0 <==> forall a :: a in aliases ==> a !in values
    ensures Mild(values) ==> -0.3 * observed as real <= total <= 0.3 * observed as real
  {
    total, observed := 0.0, 0;
    for i := 0 to |aliases|
      invariant total == Sum(values, aliases[..i]) && observed == Observed(values, aliases[..i])
      invariant observed == 0 <==> forall k :: 0 <= k < i ==> aliases[k] !in values
      invariant Mild(values) ==> -0.3 * observed as real <= total <= 0.3 * observed as real
    {
      SumNext(values, aliases, i);
      hide Sum, Observed;
      if aliases[i] in values {
        total, observed := total + values[aliases[i]], observed + 1;
      }
    }
    assert aliases[..|aliases|] == aliases;
  }

  lemma SumNext(values: map<string, real>, aliases: seq<string>, i: nat)
    requires i < |aliases|
    ensures Sum(values, aliases[..i + 1]) ==
            Sum(values, aliases[..i]) + if aliases[i] in values then values[aliases[i]] else 0.0
    ensures Observed(values, aliases[..i + 1]) == Observed(values, aliases[..i]) + if aliases[i] in values then 1 else 0
  {
    assert aliases[..i + 1][..i] == aliases[..i];
  }

  lemma Mean(total: real, observed: real)
    requires observed > 0.0
    ensures total / observed * observed == total
    ensures -0.3 * observed <= total <= 0.3 * observed ==> -0.3 <= total / observed <= 0.3
  {
    var q := total / observed;
    assert q > 0.3 ==> q * observed > 0.3 * observed;
    assert q < -0.3 ==> q * observed < -0.3 * observed;
  }
}
