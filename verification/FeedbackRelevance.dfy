/** Feedback per document: the mean over the aliases its feedback was given under,
    asked for in batches. */
module FeedbackRelevance {
  import opened Text
  import opened Ordering
  import opened ScopedModel
  import opened Feedback
  import opened ScopedStore
  import opened LegacyModel
  import opened LegacyProjection
  import opened LegacyFeedback
  import opened Ranking

  const LARGEST_BATCH: nat := 100000

  datatype Document = Document(id: string, aliases: seq<string>)

  /** The aliases given, trimmed, or the document's own id when there are none. */
  ghost function AliasesOf(d: Document): set<string> {
    var given := set a | a in d.aliases && Trim(a) != "" :: Trim(a);
    if given == {} && Trim(d.id) != "" then {Trim(d.id)} else given
  }

  /** sortedUniqueFeedbackAliases */
  method SortedAliases(d: Document) returns (aliases: seq<string>)
    ensures aliases == Listing(Before, AliasesOf(d))
  {
    hide Trim, Before;
    var values := if d.aliases == [] then [d.id] else d.aliases;
    var seen: set<string> := {};
    for i := 0 to |values|
      invariant seen == set k | 0 <= k < i && Trim(values[k]) != "" :: Trim(values[k])
    {
      var value := Trim(values[i]);
      if value != "" && value !in seen {
        seen := seen + {value};
      }
    }
    if seen == {} && Trim(d.id) != "" {
      seen := {Trim(d.id)};
    }
    assert seen == AliasesOf(d) by {
      forall a | a in values && Trim(a) != ""
        ensures Trim(a) in (set k | 0 <= k < |values| && Trim(values[k]) != "" :: Trim(values[k]))
      {
        var k :| 0 <= k < |values| && values[k] == a;
      }
    }
    TextsInOrder(seen);
    aliases := SelectOrdered(Before, seen);
  }

  // ------------------------------------------------------- asking the store

  /** A request with a scope or an agent is answered from the scoped log. */
  predicate Scoped(c: Context) {
    !Blank(c.scopeID) || !Blank(c.agentID)
  }

  /** What the store knows of one record for a request, if it knows anything. */
  ghost function Known(t: Tables, l: LegacyTables, c: Context, record: string): Option<real> {
    if Scoped(c) then
      if Counted(t.judgments.Values, c, record) == {} then None
      else Some(Scaled(Total(Counted(Standing(t.judgments.Values), c, record))))
    else if LegacyCounted(l, c.lensID, record) == {} then None
    else Some(Scaled(LegacyTotal(OfLens(Unreversed(l.verdicts.Values), c.lensID, record))))
  }

  ghost function Told(t: Tables, l: LegacyTables, c: Context, records: set<string>): map<string, real> {
    map a | a in records && Known(t, l, c, a).Some? :: Known(t, l, c, a).value
  }

  /** The scoped store answers for a live context only. */
  predicate Live(t: Tables, c: Context) {
    Scoped(c) ==> Resolves(t, ScopedStore.Trimmed(c))
  }

  /** One question of the store, about at most a hundred thousand records. */
  method Ask(store: Store, h: Digests, l: LegacyTables, c: Context, batch: seq<string>)
    returns (values: Option<map<string, real>>)
    requires Admitted(store.env, store.tables) && LegacyValid(store.env, h.stableID, l)
    requires 0 < |batch| <= LARGEST_BATCH && !Blank(c.lensID)
    ensures values.Some? <==> Live(store.tables, c)
    ensures values.Some? ==> values.value == Told(store.tables, l, c, Rows(batch))
  {
    hide Admitted, LegacyValid, Blank, Resolves, Scaled, Total, LegacyTotal, Counted, LegacyCounted, Standing,
         Unreversed, OfLens;
    if Scoped(c) {
      values := store.Relevance(c, batch);
    } else {
      values := LegacyFeedback.Relevance(store.env, h, l, c.lensID, batch);
    }
    if values.Some? {
      assert forall a :: a in values.value <==> a in Told(store.tables, l, c, Rows(batch));
      assert values.value == Told(store.tables, l, c, Rows(batch));
    }
  }

  /** The loop over batches: together they answer what one question would, or one
      of them is refused. */
  method AskAll(store: Store, h: Digests, l: LegacyTables, c: Context, aliases: seq<string>)
    returns (values: Option<map<string, real>>)
    requires Admitted(store.env, store.tables) && LegacyValid(store.env, h.stableID, l) && !Blank(c.lensID)
    ensures values.Some? <==> aliases == [] || Live(store.tables, c)
    ensures values.Some? ==> values.value == Told(store.tables, l, c, Rows(aliases))
  {
    hide Admitted, LegacyValid, Blank, Known, Live;
    var all: map<string, real> := map[];
    var start := 0;
    while start < |aliases|
      invariant 0 <= start <= |aliases| && (start > 0 ==> Live(store.tables, c))
      invariant all == Told(store.tables, l, c, Rows(aliases[..start]))
    {
      var end := if start + LARGEST_BATCH > |aliases| then |aliases| else start + LARGEST_BATCH;
      var more := Ask(store, h, l, c, aliases[start..end]);
      if more.None? {
        return None;
      }
      BatchRows(aliases, start, end);
      all := all + more.value;
      start := end;
    }
    assert aliases[..|aliases|] == aliases;
    values := Some(all);
  }

  lemma BatchRows(s: seq<string>, start: nat, end: nat)
    requires start <= end <= |s|
    ensures Rows(s[..end]) == Rows(s[..start]) + Rows(s[start..end])
  {
    assert s[..end] == s[..start] + s[start..end];
    forall r ensures r in s[..end] <==> r in s[..start] || r in s[start..end] {
      assert r in s[..start] + s[start..end] <==> r in s[..start] || r in s[start..end];
    }
  }

  /** A document's answer: the mean over its aliases that have feedback, if any has. */
  ghost predicate IsMean(t: Tables, l: LegacyTables, c: Context, d: Document, mean: Option<real>) {
    var told, aliases := Told(t, l, c, AliasesOf(d)), Listing(Before, AliasesOf(d));
    && (mean.Some? <==> told != map[])
    && (mean.Some? ==> -0.3 <= mean.value <= 0.3 && Observed(told, aliases) == |told| &&
                       mean.value * |told| as real == Sum(told, aliases))
  }

  function Entry(relevance: map<string, real>, id: string): Option<real> {
    if id in relevance then Some(relevance[id]) else None
  }

  /** Whether there is anything to ask: some document has a name or an alias. */
  ghost predicate Asks(documents: seq<Document>) {
    exists i :: 0 <= i < |documents| && AliasesOf(documents[i]) != {}
  }

  /** feedbackRelevanceForRequest: nothing without a lens; otherwise each document's
      mean, or an error exactly when something is asked of a context that is not live. */
  method DocumentRelevance(store: Store, h: Digests, l: LegacyTables, c: Context, documents: seq<Document>)
    returns (answer: Option<map<string, real>>)
    requires Admitted(store.env, store.tables) && LegacyValid(store.env, h.stableID, l)
    requires forall i, j :: 0 <= i < j < |documents| ==> documents[i].id != documents[j].id
    ensures Blank(c.lensID) ==> answer == Some(map[])
    ensures !Blank(c.lensID) ==> (answer.Some? <==> !Asks(documents) || Live(store.tables, c))
    ensures !Blank(c.lensID) && answer.Some? ==> forall i :: 0 <= i < |documents| ==>
              IsMean(store.tables, l, c, documents[i], Entry(answer.value, documents[i].id))
    ensures answer.Some? ==> Mild(answer.value)
    ensures answer.Some? ==> forall id :: id in answer.value ==>
              exists i :: 0 <= i < |documents| && documents[i].id == id
  {
    if Blank(c.lensID) {
      return Some(map[]);
    }
    hide *;
    var all := CollectAliases(documents);
    TextsInOrder(all);
    var asked := SelectOrdered(Before, all);
    var values := AskAll(store, h, l, c, asked);
    NothingAsked(documents, all, asked);
    if values.None? {
      return None;
    }
    var relevance := Means(store.tables, l, c, values.value, all, documents);
    answer := Some(relevance);
  }

  lemma NothingAsked(documents: seq<Document>, all: set<string>, asked: seq<string>)
    requires forall x :: x in all <==> exists k :: 0 <= k < |documents| && x in AliasesOf(documents[k])
    requires asked == Listing(Before, all)
    ensures asked == [] <==> !Asks(documents)
    ensures Rows(asked) == all
  {
    TextsInOrder(all);
    ListingAscending(Before, all);
    RowsEmpty(asked);
    hide AliasesOf, Before, Listing;
    if !Asks(documents) {
      assert all == {};
    }
    if i :| 0 <= i < |documents| && AliasesOf(documents[i]) != {} {
      var x :| x in AliasesOf(documents[i]);
      assert x in all;
    }
  }

  method CollectAliases(documents: seq<Document>) returns (all: set<string>)
    ensures forall x :: x in all <==> exists k :: 0 <= k < |documents| && x in AliasesOf(documents[k])
  {
    hide AliasesOf, Before;
    all := {};
    for i := 0 to |documents|
      invariant forall x :: x in all <==> exists k :: 0 <= k < i && x in AliasesOf(documents[k])
    {
      var aliases := SortedAliases(documents[i]);
      ListedAliases(documents[i]);
      all := all + Members(aliases);
    }
  }

  method Means(ghost t: Tables, ghost l: LegacyTables, ghost c: Context, values: map<string, real>,
               ghost all: set<string>, documents: seq<Document>)
    returns (relevance: map<string, real>)
    requires values == Told(t, l, c, all)
    requires forall i, j :: 0 <= i < j < |documents| ==> documents[i].id != documents[j].id
    requires forall x :: x in all <==> exists k :: 0 <= k < |documents| && x in AliasesOf(documents[k])
    ensures forall i :: 0 <= i < |documents| ==> IsMean(t, l, c, documents[i], Entry(relevance, documents[i].id))
    ensures Mild(relevance) && forall id :: id in relevance ==>
              exists i :: 0 <= i < |documents| && documents[i].id == id
  {
    hide AliasesOf, IsMean, Before, Told;
    relevance := map[];
    for i := 0 to |documents|
      invariant forall k :: 0 <= k < i ==> IsMean(t, l, c, documents[k], Entry(relevance, documents[k].id))
      invariant forall id :: id in relevance ==> exists k :: 0 <= k < i && documents[k].id == id
      invariant Mild(relevance)
    {
      var mean := DocumentMean(t, l, c, values, all, documents[i]);
      if mean.Some? {
        relevance := relevance[documents[i].id := mean.value];
      }
    }
  }

  method DocumentMean(ghost t: Tables, ghost l: LegacyTables, ghost c: Context, values: map<string, real>,
                      ghost all: set<string>, d: Document)
    returns (mean: Option<real>)
    requires values == Told(t, l, c, all) && AliasesOf(d) <= all
    ensures IsMean(t, l, c, d, mean)
    ensures mean.Some? ==> -0.3 <= mean.value <= 0.3
  {
    hide *;
    var aliases := SortedAliases(d);
    ListedAliases(d);
    ToldAgree(t, l, c, AliasesOf(d), all);
    SameMean(Told(t, l, c, AliasesOf(d)), values, AliasesOf(d), aliases);
    mean := MeanFeedback(values, aliases);
    OneAnswer(t, l, c, d, mean);
  }

  function Members(s: seq<string>): set<string> {
    set x | x in s
  }

  lemma ListedAliases(d: Document)
    ensures Rows(Listing(Before, AliasesOf(d))) == AliasesOf(d) == Members(Listing(Before, AliasesOf(d)))
    ensures Distinct(Listing(Before, AliasesOf(d)))
  {
    TextsInOrder(AliasesOf(d));
    ListingAscending(Before, AliasesOf(d));
  }

  /** Told about more records, the store says the same about these. */
  lemma ToldAgree(t: Tables, l: LegacyTables, c: Context, some: set<string>, all: set<string>)
    requires some <= all
    ensures forall a :: a in some ==> (a in Told(t, l, c, all) <==> a in Told(t, l, c, some))
    ensures forall a :: a in Told(t, l, c, some) ==> Told(t, l, c, all)[a] == Told(t, l, c, some)[a]
    ensures Mild(Told(t, l, c, all))
  {
    KnownMild(t, l, c);
    hide Known;
  }

  lemma KnownMild(t: Tables, l: LegacyTables, c: Context)
    ensures forall record :: Known(t, l, c, record).Some? ==> -0.3 <= Known(t, l, c, record).value <= 0.3
  {
    hide Scoped, Counted, Standing, Total, LegacyCounted, LegacyTotal, OfLens, Unreversed;
  }

  lemma {:induction false} SameMean(told: map<string, real>, values: map<string, real>, some: set<string>,
                                    aliases: seq<string>)
    requires Rows(aliases) <= some
    requires forall a :: a in some ==> (a in values <==> a in told) && (a in told ==> values[a] == told[a])
    ensures Sum(values, aliases) == Sum(told, aliases) && Observed(values, aliases) == Observed(told, aliases)
    ensures forall a :: a in aliases ==> (a in values <==> a in told)
  {
    forall a | a in aliases ensures a in some {
      assert a in Rows(aliases);
    }
    if aliases != [] {
      var front := aliases[..|aliases| - 1];
      assert Rows(front) <= Rows(aliases);
      SameMean(told, values, some, front);
    }
  }

  /** Distinct aliases see each of a map's entries at most once. */
  lemma {:induction false} AllObserved(told: map<string, real>, aliases: seq<string>)
    requires Distinct(aliases)
    ensures Observed(told, aliases) == |Seen(told, aliases)|
  {
    if aliases != [] {
      var front, last := aliases[..|aliases| - 1], aliases[|aliases| - 1];
      AllObserved(told, front);
      assert aliases == front + [last] && last !in front;
      assert Seen(told, aliases) == Seen(told, front) + if last in told then {last} else {};
    }
  }

  ghost function Seen(told: map<string, real>, aliases: seq<string>): set<string> {
    set a | a in aliases && a in told
  }

  lemma Covered(told: map<string, real>, all: set<string>, aliases: seq<string>)
    requires told.Keys <= all && Rows(aliases) == all && Distinct(aliases)
    ensures told == map[] <==> forall a :: a in aliases ==> a !in told
    ensures Observed(told, aliases) == |told|
  {
    AllObserved(told, aliases);
    forall a ensures a in Seen(told, aliases) <==> a in told.Keys {
      assert a in Rows(aliases) <==> a in aliases;
    }
    assert Seen(told, aliases) == told.Keys;
    if told != map[] {
      var a :| a in told;
      assert a in Seen(told, aliases);
    }
  }

  lemma OneAnswer(t: Tables, l: LegacyTables, c: Context, d: Document, mean: Option<real>)
    requires var told, aliases := Told(t, l, c, AliasesOf(d)), Listing(Before, AliasesOf(d));
             && (mean.None? <==> forall a :: a in aliases ==> a !in told)
             && (mean.Some? ==> -0.3 <= mean.value <= 0.3 && Observed(told, aliases) > 0 &&
                                mean.value * Observed(told, aliases) as real == Sum(told, aliases))
    ensures IsMean(t, l, c, d, mean)
  {
    ListedAliases(d);
    hide AliasesOf, Before, Sum, Observed, Known, Listing;
    Covered(Told(t, l, c, AliasesOf(d)), AliasesOf(d), Listing(Before, AliasesOf(d)));
  }

  // ------------------------------------------------------------- in other words

  /** A document is asked about under its aliases, trimmed; under its own id only when
      it has none. */
  lemma AskedUnder(d: Document, x: string)
    ensures x in AliasesOf(d) <==>
              || (x != "" && exists a :: a in d.aliases && Trim(a) == x)
              || (x != "" && x == Trim(d.id) && forall a :: a in d.aliases ==> Trim(a) == "")
  {
    var given := set a | a in d.aliases && Trim(a) != "" :: Trim(a);
    if a :| a in d.aliases && Trim(a) != "" {
      assert Trim(a) in given;
    }
  }

  /** A request that names a scope or an agent is answered only in a live context; one
      that names neither is always answered. */
  method Refusals(store: Store, h: Digests, l: LegacyTables, c: Context, documents: seq<Document>)
    returns (answer: Option<map<string, real>>)
    requires Admitted(store.env, store.tables) && LegacyValid(store.env, h.stableID, l)
    requires forall i, j :: 0 <= i < j < |documents| ==> documents[i].id != documents[j].id
    requires !Blank(c.lensID) && documents != [] && Trim(documents[0].id) != ""
    ensures Blank(c.scopeID) && Blank(c.agentID) ==> answer.Some?
    ensures !Blank(c.scopeID) || !Blank(c.agentID) ==>
              var t, scope, lens, agent := store.tables, Trim(c.scopeID), Trim(c.lensID), Trim(c.agentID);
              answer.Some? <==>
                && Bounded(scope, 256) && Bounded(lens, 256) && Bounded(agent, 256)
                && scope in t.scopes && t.scopes[scope].status.Active?
                && (scope, lens) in t.lenses && t.lenses[(scope, lens)].status.Active?
                && agent in t.actors && t.actors[agent].status.Active?
  {
    SomethingAsked(documents);
    hide Admitted, LegacyValid, Blank, Trim, Bounded, IsMean, Mild, Asks;
    answer := DocumentRelevance(store, h, l, c, documents);
  }

  lemma SomethingAsked(documents: seq<Document>)
    requires documents != [] && Trim(documents[0].id) != ""
    ensures Asks(documents)
  {
    var d := documents[0];
    if forall a :: a in d.aliases ==> Trim(a) == "" {
      AskedUnder(d, Trim(d.id));
    } else {
      var a :| a in d.aliases && Trim(a) != "";
      AskedUnder(d, Trim(a));
    }
    hide AliasesOf;
    assert AliasesOf(documents[0]) != {};
  }
}
