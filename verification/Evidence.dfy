/** Margins between the best scores. The scores come from a map, visited in any
    order; the answers do not depend on it. */
module Evidence {
  import opened Text
  import opened ScopedModel

  type Scores = map<string, Score>

  // ------------------------------------------------------------- plain margin

  ghost function Finites(scores: Scores): set<string> {
    set id | id in scores && scores[id].Finite?
  }

  /** Leader is a highest score among ids, and rest the others. */
  ghost predicate Leads(scores: Scores, ids: set<string>, leader: string) {
    && leader in ids && (forall id :: id in ids ==> id in scores && scores[id].Finite?)
    && forall id :: id in ids ==> scores[id].value <= scores[leader].value
  }

  ghost predicate TwoLead(scores: Scores, ids: set<string>, a: string, b: string, top1: real, top2: real) {
    Leads(scores, ids, a) && Leads(scores, ids - {a}, b) && top1 == scores[a].value && top2 == scores[b].value
  }

  ghost predicate OneLeads(scores: Scores, ids: set<string>, a: string, top1: real) {
    Leads(scores, ids, a) && ids == {a} && top1 == scores[a].value
  }

  /** The two highest finite scores, repeats counted, and their distance. */
  ghost predicate IsMargin(scores: Scores, top1: real, top2: real, margin: real) {
    var ids := Finites(scores);
    || (ids == {} && (top1, top2, margin) == (0.0, 0.0, 0.0))
    || (top2 == 0.0 && margin == 1.0 && exists a :: OneLeads(scores, ids, a, top1))
    || (margin == top1 - top2 && exists a, b :: TwoLead(scores, ids, a, b, top1, top2))
  }

  lemma MarginUnique(scores: Scores, x: (real, real, real), y: (real, real, real))
    requires IsMargin(scores, x.0, x.1, x.2) && IsMargin(scores, y.0, y.1, y.2)
    ensures x == y
  {
    var ids := Finites(scores);
    hide Finites;
    if x.2 == x.0 - x.1 && exists a, b :: TwoLead(scores, ids, a, b, x.0, x.1) {
      var a, b :| TwoLead(scores, ids, a, b, x.0, x.1);
      forall c | c in ids ensures ids != {c} {
        assert a in ids && b in ids && a != b;
      }
      var c, d :| TwoLead(scores, ids, c, d, y.0, y.1);
      SecondUnique(scores, ids, a, b, c, d);
    } else if exists a :: OneLeads(scores, ids, a, x.0) {
      var a :| OneLeads(scores, ids, a, x.0);
      forall c, d ensures !TwoLead(scores, ids, c, d, y.0, y.1) {
      }
    }
  }

  lemma SecondUnique(scores: Scores, ids: set<string>, a: string, b: string, c: string, d: string)
    requires Leads(scores, ids, a) && Leads(scores, ids - {a}, b) && Leads(scores, ids, c) &&
             Leads(scores, ids - {c}, d)
    ensures scores[a].value == scores[c].value && scores[b].value == scores[d].value
  {
    if a != c {
      assert c in ids - {a} && a in ids - {c};
    }
  }

  /** topScoreMargin: a missing maximum stands for minus infinity. */
  method TopScoreMargin(scores: Scores) returns (top1: real, top2: real, margin: real)
    ensures IsMargin(scores, top1, top2, margin)
  {
    var first: Option<real>, second: Option<real> := None, None;
    var todo := scores.Keys;
    ghost var seen: set<string>, a, b := {}, "", "";
    while todo != {}
      invariant todo <= scores.Keys && seen == Finites(scores) - todo
      invariant first.None? <==> seen == {}
      invariant second.None? <==> seen == {} || seen == {a}
      invariant first.Some? ==> Leads(scores, seen, a) && first.value == scores[a].value
      invariant second.Some? ==> Leads(scores, seen - {a}, b) && second.value == scores[b].value
      decreases todo
    {
      var id :| id in todo;
      todo := todo - {id};
      if scores[id].Finite? {
        var score := scores[id].value;
        ghost var was := seen;
        seen := seen + {id};
        if first.None? || score > first.value {
          first, second := Some(score), first;
          a, b := id, a;
          assert seen - {id} == was;
        } else if second.None? || score > second.value {
          second := Some(score);
          b := id;
          assert seen - {a} == was - {a} + {id};
        } else {
          assert seen - {a} == was - {a} + {id};
        }
      }
    }
    assert seen == Finites(scores);
    assert second.Some? ==> TwoLead(scores, seen, a, b, first.value, second.value);
    assert first.Some? && second.None? ==> OneLeads(scores, seen, a, first.value);
    if first.None? {
      return 0.0, 0.0, 0.0;
    }
    if second.None? {
      return first.value, 0.0, 1.0;
    }
    return first.value, second.value, first.value - second.value;
  }

  // --------------------------------------------------------- distinct evidence

  datatype Kind = RecordSource | UniqueResource | OtherKind
  datatype Document = Document(id: string, kind: Kind, aliases: seq<string>)

  /** What is known of a document once read: its kind and its aliases, trimmed. */
  datatype Entry = Entry(kind: Kind, aliases: set<string>)

  datatype Authorization = Authorization(winner: string, top1: real, runner: real, margin: real)

  ghost function Trimmed(texts: seq<string>): set<string> {
    set i | 0 <= i < |texts| :: Trim(texts[i])
  }

  /** strictAuthorizationEvidenceAliases accepts: some, none blank, none repeated. */
  ghost predicate StrictAliases(aliases: seq<string>) {
    && aliases != [] && (forall i :: 0 <= i < |aliases| ==> Trim(aliases[i]) != "")
    && (forall i, j :: 0 <= i < j < |aliases| ==> Trim(aliases[i]) != Trim(aliases[j]))
  }

  method ReadAliases(aliases: seq<string>) returns (ok: bool, seen: set<string>)
    ensures ok <==> StrictAliases(aliases)
    ensures ok ==> seen == Trimmed(aliases) && |seen| == |aliases|
  {
    hide Trim, Trimmed, StrictAliases, StrictUpTo;
    seen := {};
    NoAliases(aliases);
    for i := 0 to |aliases|
      invariant StrictUpTo(aliases, i, seen)
    {
      var alias := Trim(aliases[i]);
      NextAlias(aliases, i, seen);
      if alias == "" || alias in seen {
        return false, {};
      }
      seen := seen + {alias};
    }
    ok := aliases != [];
    StrictAtEnd(aliases, seen);
  }

  /** The first n aliases, trimmed, are all there, none blank and none twice. */
  ghost predicate StrictUpTo(aliases: seq<string>, n: nat, seen: set<string>) {
    && n <= |aliases| && |seen| == n
    && (forall k :: 0 <= k < n ==> Trim(aliases[k]) != "" && Trim(aliases[k]) in seen)
    && (forall x :: x in seen ==> exists k :: 0 <= k < n && Trim(aliases[k]) == x)
    && (forall k, l :: 0 <= k < l < n ==> Trim(aliases[k]) != Trim(aliases[l]))
  }

  lemma NoAliases(aliases: seq<string>)
    ensures StrictUpTo(aliases, 0, {})
  {
  }

  lemma NextAlias(aliases: seq<string>, n: nat, seen: set<string>)
    requires StrictUpTo(aliases, n, seen) && n < |aliases|
    ensures Trim(aliases[n]) == "" || Trim(aliases[n]) in seen ==> !StrictAliases(aliases)
    ensures Trim(aliases[n]) != "" && Trim(aliases[n]) !in seen ==>
              StrictUpTo(aliases, n + 1, seen + {Trim(aliases[n])})
  {
    hide Trim;
  }

  lemma StrictAtEnd(aliases: seq<string>, seen: set<string>)
    requires StrictUpTo(aliases, |aliases|, seen)
    ensures aliases != [] <==> StrictAliases(aliases)
    ensures seen == Trimmed(aliases) && |seen| == |aliases|
  {
    hide Trim;
  }

  ghost predicate DocumentOK(d: Document) {
    && Trim(d.id) != "" && StrictAliases(d.aliases)
    && (d.kind.RecordSource? || (d.kind.UniqueResource? && |d.aliases| == 1))
  }

  /** The first n documents have distinct ids, and no two unique resources among
      them share their alias. */
  ghost predicate ReadableUpTo(documents: seq<Document>, n: nat)
    requires n <= |documents|
  {
    && (forall i :: 0 <= i < n ==> DocumentOK(documents[i]))
    && (forall i, j :: 0 <= i < j < n ==> Trim(documents[i].id) != Trim(documents[j].id))
    && (forall i, j :: 0 <= i < j < n && documents[i].kind.UniqueResource? && documents[j].kind.UniqueResource? ==>
          Trimmed(documents[i].aliases) != Trimmed(documents[j].aliases))
  }

  ghost predicate Readable(documents: seq<Document>) {
    ReadableUpTo(documents, |documents|)
  }

  ghost predicate ReadUpTo(documents: seq<Document>, n: nat, entries: map<string, Entry>)
    requires n <= |documents|
  {
    && (forall i :: 0 <= i < n ==>
          Trim(documents[i].id) in entries &&
          entries[Trim(documents[i].id)] == Entry(documents[i].kind, Trimmed(documents[i].aliases)))
    && (forall id :: id in entries ==> exists i :: 0 <= i < n && Trim(documents[i].id) == id)
  }

  ghost predicate Read(documents: seq<Document>, entries: map<string, Entry>) {
    ReadUpTo(documents, |documents|, entries)
  }

  ghost predicate Resources(documents: seq<Document>, n: nat, resources: set<set<string>>)
    requires n <= |documents|
  {
    forall a :: a in resources <==>
      exists i :: 0 <= i < n && documents[i].kind.UniqueResource? && Trimmed(documents[i].aliases) == a
  }

  /** One more document is readable when it is in order and collides with none. */
  lemma OneMore(documents: seq<Document>, n: nat, entries: map<string, Entry>, resources: set<set<string>>)
    requires n < |documents| && ReadableUpTo(documents, n) && ReadUpTo(documents, n, entries) &&
             Resources(documents, n, resources)
    ensures var d := documents[n];
            ReadableUpTo(documents, n + 1) <==>
            && DocumentOK(d) && Trim(d.id) !in entries
            && (d.kind.UniqueResource? ==> Trimmed(d.aliases) !in resources)
    ensures var d := documents[n];
            Trim(d.id) !in entries ==>
              && ReadUpTo(documents, n + 1, entries[Trim(d.id) := Entry(d.kind, Trimmed(d.aliases))])
              && Resources(documents, n + 1,
                           if d.kind.UniqueResource? then resources + {Trimmed(d.aliases)} else resources)
  {
    hide *;
    ReadableNext(documents, n, entries, resources);
    if Trim(documents[n].id) !in entries {
      ReadNext(documents, n, entries);
    }
    ResourcesNext(documents, n, resources);
  }

  lemma ReadableNext(documents: seq<Document>, n: nat, entries: map<string, Entry>, resources: set<set<string>>)
    requires n < |documents| && ReadableUpTo(documents, n) && ReadUpTo(documents, n, entries) &&
             Resources(documents, n, resources)
    ensures var d := documents[n];
            ReadableUpTo(documents, n + 1) <==>
            && DocumentOK(d) && Trim(d.id) !in entries
            && (d.kind.UniqueResource? ==> Trimmed(d.aliases) !in resources)
  {
    hide Trim, StrictAliases, Trimmed, DocumentOK;
    var d := documents[n];
    if Trim(d.id) in entries {
      var i :| 0 <= i < n && Trim(documents[i].id) == Trim(d.id);
    }
    if d.kind.UniqueResource? && Trimmed(d.aliases) in resources {
      var i :| 0 <= i < n && documents[i].kind.UniqueResource? && Trimmed(documents[i].aliases) == Trimmed(d.aliases);
    }
  }

  lemma ReadNext(documents: seq<Document>, n: nat, entries: map<string, Entry>)
    requires n < |documents| && ReadUpTo(documents, n, entries) && Trim(documents[n].id) !in entries
    ensures var d := documents[n];
            ReadUpTo(documents, n + 1, entries[Trim(d.id) := Entry(d.kind, Trimmed(d.aliases))])
  {
    hide Trim, Trimmed;
  }

  lemma ResourcesNext(documents: seq<Document>, n: nat, resources: set<set<string>>)
    requires n < |documents| && Resources(documents, n, resources)
    ensures var d := documents[n];
            Resources(documents, n + 1,
                      if d.kind.UniqueResource? then resources + {Trimmed(d.aliases)} else resources)
  {
    hide Trim, Trimmed;
  }

  lemma ReadablePrefix(documents: seq<Document>, n: nat)
    requires n <= |documents| && Readable(documents)
    ensures ReadableUpTo(documents, n)
  {
    hide DocumentOK, Trim, Trimmed;
  }

  method ReadDocuments(documents: seq<Document>) returns (ok: bool, entries: map<string, Entry>)
    ensures ok <==> Readable(documents)
    ensures ok ==> Read(documents, entries)
  {
    entries := map[];
    var resources: set<set<string>> := {};
    assert ReadableUpTo(documents, 0) && ReadUpTo(documents, 0, entries) && Resources(documents, 0, resources);
    hide Trim, StrictAliases, Trimmed, ReadableUpTo, ReadUpTo, Resources;
    for n := 0 to |documents|
      invariant ReadableUpTo(documents, n) && ReadUpTo(documents, n, entries) && Resources(documents, n, resources)
    {
      OneMore(documents, n, entries, resources);
      if Readable(documents) {
        ReadablePrefix(documents, n + 1);
      }
      var d := documents[n];
      var id := Trim(d.id);
      if id == "" || id in entries {
        return false, map[];
      }
      var fine, aliases := ReadAliases(d.aliases);
      if !fine || d.kind.OtherKind? || (d.kind.UniqueResource? && (|aliases| != 1 || aliases in resources)) {
        return false, map[];
      }
      if d.kind.UniqueResource? {
        resources := resources + {aliases};
      }
      entries := entries[id := Entry(d.kind, aliases)];
    }
    ok := true;
  }

  /** Every score is finite and names a document. */
  ghost predicate Known(scores: Scores, entries: map<string, Entry>) {
    forall id :: id in scores ==> scores[id].Finite? && id in entries
  }

  /** The highest score, and among equals the smallest id. */
  ghost predicate Wins(scores: Scores, w: string) {
    && w in scores && scores[w].Finite?
    && forall id :: id in scores && id != w ==>
         scores[id].Finite? &&
         (scores[id].value < scores[w].value || (scores[id].value == scores[w].value && Before(w, id)))
  }

  lemma WinnerUnique(scores: Scores, w: string, v: string)
    requires Wins(scores, w) && Wins(scores, v)
    ensures w == v
  {
    if w != v {
      BeforeIrreflexive(w);
      if Before(v, w) {
        BeforeTransitive(w, v, w);
      }
    }
  }

  /** The documents the winner must beat: all others but the records that are
      known only by its own alias. */
  ghost function Competitors(scores: Scores, entries: map<string, Entry>, w: string): set<string>
    requires Known(scores, entries) && w in scores
  {
    set id | id in scores && id != w && entries[id] != Entry(RecordSource, entries[w].aliases)
  }

  ghost predicate IsAuthorization(scores: Scores, entries: map<string, Entry>, a: Authorization) {
    && Known(scores, entries) && Wins(scores, a.winner) && entries[a.winner].kind.UniqueResource?
    && a.top1 == scores[a.winner].value
    && var rivals := Competitors(scores, entries, a.winner);
       if rivals == {} then a.runner == 0.0 && a.margin == 1.0
       else a.margin == a.top1 - a.runner && exists r :: Leads(scores, rivals, r) && a.runner == scores[r].value
  }

  /** Whatever the iteration order, there is one answer. */
  lemma AuthorizationUnique(scores: Scores, entries: map<string, Entry>, a: Authorization, b: Authorization)
    requires IsAuthorization(scores, entries, a) && IsAuthorization(scores, entries, b)
    ensures a == b
  {
    WinnerUnique(scores, a.winner, b.winner);
  }

  method FindWinner(scores: Scores, entries: map<string, Entry>) returns (ok: bool, winner: string)
    requires scores != map[] && "" !in entries
    ensures ok <==> Known(scores, entries)
    ensures ok ==> Wins(scores, winner) && winner in scores && scores[winner].Finite?
  {
    winner := "";
    var top := 0.0;
    var todo := scores.Keys;
    while todo != {}
      invariant todo <= scores.Keys
      invariant forall id :: id in scores && id !in todo ==> scores[id].Finite? && id in entries
      invariant winner == "" <==> todo == scores.Keys
      invariant winner != "" ==>
                  winner in scores && winner !in todo && scores[winner].Finite? && top == scores[winner].value
      invariant winner != "" ==> Wins(Restricted(scores, todo), winner)
      decreases todo
    {
      var id :| id in todo;
      if scores[id].NotFinite? || id !in entries {
        return false, "";
      }
      ghost var was, before := winner, todo;
      todo := todo - {id};
      var score := scores[id].value;
      if winner == "" || score > top || (score == top && Before(id, winner)) {
        winner, top := id, score;
      }
      StillWins(scores, before, id, was, winner);
    }
    assert Restricted(scores, {}) == scores;
    ok := true;
  }

  ghost function Restricted(scores: Scores, todo: set<string>): Scores {
    map id | id in scores && id !in todo :: scores[id]
  }

  lemma StillWins(scores: Scores, before: set<string>, id: string, was: string, winner: string)
    requires id in before && before <= scores.Keys && scores[id].Finite?
    requires was == "" ==> before == scores.Keys
    requires was != "" ==> Wins(Restricted(scores, before), was)
    requires winner == if was == "" || scores[id].value > scores[was].value ||
                          (scores[id].value == scores[was].value && Before(id, was)) then id else was
    ensures Wins(Restricted(scores, before - {id}), winner)
  {
    if was != "" {
      BeforeTotal(id, was);
      forall k | k in scores && k !in before && k != was && Before(id, was) && Before(was, k) ensures Before(id, k) {
        BeforeTransitive(id, was, k);
      }
    }
  }

  /** What reading a readable catalogue comes to. */
  ghost function EntriesOf(documents: seq<Document>): (entries: map<string, Entry>)
    requires Readable(documents)
    ensures Read(documents, entries)
  {
    map i | 0 <= i < |documents| :: Trim(documents[i].id) := Entry(documents[i].kind, Trimmed(documents[i].aliases))
  }

  lemma ReadUnique(documents: seq<Document>, entries: map<string, Entry>)
    requires Readable(documents) && Read(documents, entries)
    ensures entries == EntriesOf(documents)
  {
    hide Trimmed, Readable, EntriesOf;
    var all := EntriesOf(documents);
    forall id | id in entries || id in all ensures id in entries && id in all && entries[id] == all[id] {
      var i :| 0 <= i < |documents| && Trim(documents[i].id) == id;
    }
  }

  ghost predicate Authorizes(scores: Scores, documents: seq<Document>, a: Authorization) {
    Readable(documents) && IsAuthorization(scores, EntriesOf(documents), a)
  }

  /** distinctEvidenceSemanticAuthorization: the one authorization there is, or
      none when there is none. */
  method DistinctEvidence(scores: Scores, documents: seq<Document>) returns (a: Option<Authorization>)
    ensures a.Some? ==> Authorizes(scores, documents, a.value)
    ensures a.None? ==> forall x :: !Authorizes(scores, documents, x)
  {
    if scores == map[] || documents == [] {
      NoneToRead(scores, documents);
      return None;
    }
    var ok, read := ReadDocuments(documents);
    if !ok {
      return None;
    }
    NoBlankID(documents, read);
    ReadUnique(documents, read);
    hide Readable, Read, EntriesOf, IsAuthorization;
    a := Authorize(scores, read);
  }

  method Authorize(scores: Scores, entries: map<string, Entry>) returns (a: Option<Authorization>)
    requires scores != map[] && "" !in entries
    ensures a.Some? ==> IsAuthorization(scores, entries, a.value)
    ensures a.None? ==> forall x :: !IsAuthorization(scores, entries, x)
  {
    hide Wins, Competitors;
    var ok, winner := FindWinner(scores, entries);
    if !ok {
      return None;
    }
    if !entries[winner].kind.UniqueResource? {
      NotAuthorized(scores, entries, winner);
      return None;
    }
    var runner := Runner(scores, entries, winner);
    var top1 := scores[winner].value;
    a := Some(if runner.None? then Authorization(winner, top1, 0.0, 1.0)
              else Authorization(winner, top1, runner.value, top1 - runner.value));
  }

  lemma NoneToRead(scores: Scores, documents: seq<Document>)
    requires scores == map[] || documents == []
    ensures forall a :: !Authorizes(scores, documents, a)
  {
    hide Trimmed, DocumentOK;
  }

  lemma NotAuthorized(scores: Scores, entries: map<string, Entry>, winner: string)
    requires Known(scores, entries) && Wins(scores, winner) && !entries[winner].kind.UniqueResource?
    ensures forall a :: !IsAuthorization(scores, entries, a)
  {
    forall a ensures !IsAuthorization(scores, entries, a) {
      if IsAuthorization(scores, entries, a) {
        WinnerUnique(scores, winner, a.winner);
        assert false;
      }
    }
  }

  lemma NoBlankID(documents: seq<Document>, entries: map<string, Entry>)
    requires Readable(documents) && Read(documents, entries)
    ensures "" !in entries
  {
    hide Trim, StrictAliases, Trimmed;
    forall i | 0 <= i < |documents| ensures Trim(documents[i].id) != "" {
      assert DocumentOK(documents[i]);
    }
  }

  /** The loop over the winner's competitors. */
  method Runner(scores: Scores, entries: map<string, Entry>, winner: string) returns (runner: Option<real>)
    requires Known(scores, entries) && Wins(scores, winner)
    ensures runner.None? <==> Competitors(scores, entries, winner) == {}
    ensures runner.Some? ==> exists r ::
              Leads(scores, Competitors(scores, entries, winner), r) && runner.value == scores[r].value
  {
    runner := None;
    var todo := scores.Keys;
    ghost var rivals: set<string>, r := {}, "";
    while todo != {}
      invariant todo <= scores.Keys && rivals == Competitors(scores, entries, winner) - todo
      invariant runner.None? <==> rivals == {}
      invariant runner.Some? ==> Leads(scores, rivals, r) && runner.value == scores[r].value
      decreases todo
    {
      var id :| id in todo;
      todo := todo - {id};
      if id != winner && !(entries[id].kind.RecordSource? && entries[id].aliases == entries[winner].aliases) {
        rivals := rivals + {id};
        if runner.None? || scores[id].value > runner.value {
          runner := Some(scores[id].value);
          r := id;
        }
      }
    }
    assert rivals == Competitors(scores, entries, winner);
  }

  // ------------------------------------------------------------ the two margins

  /** The distinct winner has the plain top score; a competitor that remains is
      no higher than the plain second, so the distinct margin is no smaller.
      With no competitor the margin is one, which is smaller than the plain
      margin exactly when that is over one. */
  lemma DistinctAgainstPlain(scores: Scores, entries: map<string, Entry>, a: Authorization, top1: real, top2: real,
                             margin: real)
    requires IsAuthorization(scores, entries, a) && IsMargin(scores, top1, top2, margin)
    ensures a.top1 == top1
    ensures Competitors(scores, entries, a.winner) != {} ==> a.runner <= top2
    ensures a.margin >= margin <==> Competitors(scores, entries, a.winner) != {} || margin <= 1.0
  {
    var ids := Finites(scores);
    var w, rivals := a.winner, Competitors(scores, entries, a.winner);
    assert Leads(scores, ids, w);
    if rivals == {} {
      WinnerIsTop(scores, w, top1, top2, margin);
    } else {
      var r :| Leads(scores, rivals, r) && a.runner == scores[r].value;
      assert r in ids && r != w;
      RivalBelowSecond(scores, w, r, top1, top2, margin);
    }
  }

  lemma WinnerIsTop(scores: Scores, w: string, top1: real, top2: real, margin: real)
    requires IsMargin(scores, top1, top2, margin) && Leads(scores, Finites(scores), w)
    ensures top1 == scores[w].value
  {
    var ids := Finites(scores);
    if a, b :| TwoLead(scores, ids, a, b, top1, top2) {
      assert scores[a].value == scores[w].value;
    }
  }

  lemma RivalBelowSecond(scores: Scores, w: string, r: string, top1: real, top2: real, margin: real)
    requires IsMargin(scores, top1, top2, margin) && Leads(scores, Finites(scores), w)
    requires r in Finites(scores) && r != w
    ensures top1 == scores[w].value && scores[r].value <= top2 && margin == top1 - top2
  {
    var ids := Finites(scores);
    hide Finites;
    forall a ensures !OneLeads(scores, ids, a, top1) {
      assert w in ids && r in ids;
    }
    var a, b :| TwoLead(scores, ids, a, b, top1, top2);
    if r == a {
      assert w in ids - {a};
    } else {
      assert r in ids - {a};
    }
  }

  /** A resource and the one record known by its alias only. */
  function Pair(w: string, other: string): seq<Document> {
    [Document(w, UniqueResource, ["alias"]), Document(other, RecordSource, ["alias"])]
  }

  lemma OneAlias()
    ensures Trimmed(["alias"]) == {"alias"} && StrictAliases(["alias"])
  {
    TightIsBounded("alias", 5);
    hide Trim;
    assert Trim(["alias"][0]) in Trimmed(["alias"]);
  }

  predicate Plain(id: string) {
    id != "" && Trim(id) == id
  }

  lemma PairReadable(w: string, other: string)
    requires w != other && Plain(w) && Plain(other)
    ensures Readable(Pair(w, other))
  {
    OneAlias();
    hide Trim, Trimmed, StrictAliases;
  }

  lemma PairEntries(w: string, other: string)
    requires w != other && Plain(w) && Plain(other) && Readable(Pair(w, other))
    ensures EntriesOf(Pair(w, other)) ==
            map[w := Entry(UniqueResource, {"alias"}), other := Entry(RecordSource, {"alias"})]
  {
    OneAlias();
    hide Trim, Trimmed, StrictAliases, Readable, EntriesOf;
    var documents, entries := Pair(w, other), EntriesOf(Pair(w, other));
    assert entries[Trim(documents[0].id)] == Entry(UniqueResource, {"alias"});
    assert entries[Trim(documents[1].id)] == Entry(RecordSource, {"alias"});
    assert entries.Keys == {w, other};
  }

  lemma NarrowerMargin(w: string, other: string, scores: Scores, entries: map<string, Entry>)
    requires w != other && scores == map[w := Finite(1.0), other := Finite(-0.5)]
    requires entries == map[w := Entry(UniqueResource, {"alias"}), other := Entry(RecordSource, {"alias"})]
    ensures IsAuthorization(scores, entries, Authorization(w, 1.0, 0.0, 1.0)) && IsMargin(scores, 1.0, -0.5, 1.5)
  {
    assert Competitors(scores, entries, w) == {};
    assert Finites(scores) == {w, other} && Finites(scores) - {w} == {other};
    assert TwoLead(scores, Finites(scores), w, other, 1.0, -0.5);
  }

  /** A case where dropping the only rival narrows the margin: a resource at one
      and its own record at minus a half. */
  lemma LoneWinnerNarrower(w: string, other: string)
    requires w != other && Plain(w) && Plain(other)
    ensures var scores := map[w := Finite(1.0), other := Finite(-0.5)];
            && Authorizes(scores, Pair(w, other), Authorization(w, 1.0, 0.0, 1.0))
            && IsMargin(scores, 1.0, -0.5, 1.5)
  {
    PairReadable(w, other);
    PairEntries(w, other);
    NarrowerMargin(w, other, map[w := Finite(1.0), other := Finite(-0.5)], EntriesOf(Pair(w, other)));
    hide Readable, EntriesOf, Pair, IsAuthorization, IsMargin;
  }

  // ------------------------------------------------------- who counts as a rival

  /** A scored document other than the winner that is not merely a record known by
      exactly the winner's aliases. */
  ghost predicate Rivals(scores: Scores, d: Document, winner: Document) {
    && Trim(d.id) in scores && Trim(d.id) != Trim(winner.id)
    && (!d.kind.RecordSource? || Trimmed(d.aliases) != Trimmed(winner.aliases))
  }

  /** The runner-up is the best of the rivals: no rival scores more, one scores as much,
      and the margin is the winner's lead over it. */
  lemma RunnerIsBestRival(scores: Scores, documents: seq<Document>, a: Authorization, w: nat)
    requires Authorizes(scores, documents, a) && w < |documents| && Trim(documents[w].id) == a.winner
    ensures documents[w].kind.UniqueResource?
    ensures forall i :: 0 <= i < |documents| && Rivals(scores, documents[i], documents[w]) ==>
              var id := Trim(documents[i].id);
              scores[id].Finite? && scores[id].value <= a.runner && a.margin == a.top1 - a.runner
    ensures (exists i :: 0 <= i < |documents| && Rivals(scores, documents[i], documents[w])) ==>
              exists i :: 0 <= i < |documents| && Rivals(scores, documents[i], documents[w]) &&
                scores[Trim(documents[i].id)] == Finite(a.runner)
    ensures (forall i :: 0 <= i < |documents| ==> !Rivals(scores, documents[i], documents[w])) ==>
              a.runner == 0.0 && a.margin == 1.0
  {
    var entries := EntriesOf(documents);
    assert Read(documents, entries);
    assert forall i :: 0 <= i < |documents| ==>
        entries[Trim(documents[i].id)] == Entry(documents[i].kind, Trimmed(documents[i].aliases));
    hide Readable, EntriesOf, Trim, Trimmed;
    assert IsAuthorization(scores, entries, a);
    forall i | 0 <= i < |documents|
      ensures Rivals(scores, documents[i], documents[w]) <==>
              Trim(documents[i].id) in Competitors(scores, entries, a.winner)
    {
    }
    if Competitors(scores, entries, a.winner) != {} {
      var r :| Leads(scores, Competitors(scores, entries, a.winner), r) && a.runner == scores[r].value;
      var i :| 0 <= i < |documents| && Trim(documents[i].id) == r;
      assert Rivals(scores, documents[i], documents[w]);
    }
  }

  function Rivalry(w: string, other: string): seq<Document> {
    [Document(w, UniqueResource, ["alias"]), Document(other, RecordSource, ["other"])]
  }

  /** A record known by another alias is a rival: it narrows the margin to its distance. */
  lemma RecordRivals(w: string, other: string)
    requires w != other && Plain(w) && Plain(other)
    ensures Authorizes(map[w := Finite(0.9), other := Finite(0.8)], Rivalry(w, other), Authorization(w, 0.9, 0.8, 0.1))
  {
    RivalryReadable(w, other);
    RivalLeads(w, other, map[w := Finite(0.9), other := Finite(0.8)], EntriesOf(Rivalry(w, other)));
    hide Readable, EntriesOf, Rivalry, IsAuthorization;
  }

  lemma RivalLeads(w: string, other: string, scores: Scores, entries: map<string, Entry>)
    requires w != other && scores == map[w := Finite(0.9), other := Finite(0.8)]
    requires entries == map[w := Entry(UniqueResource, {"alias"}), other := Entry(RecordSource, {"other"})]
    ensures IsAuthorization(scores, entries, Authorization(w, 0.9, 0.8, 0.1))
  {
    assert "alias"[0] != "other"[0];
    assert "alias" in {"alias"} && "alias" !in {"other"};
    assert Competitors(scores, entries, w) == {other};
    assert Leads(scores, {other}, other);
  }

  lemma RivalryReadable(w: string, other: string)
    requires w != other && Plain(w) && Plain(other)
    ensures Readable(Rivalry(w, other))
    ensures EntriesOf(Rivalry(w, other)) ==
            map[w := Entry(UniqueResource, {"alias"}), other := Entry(RecordSource, {"other"})]
  {
    OneAlias();
    OtherAlias();
    hide Trim, Trimmed, StrictAliases;
    var documents := Rivalry(w, other);
    assert Readable(documents);
    var entries := EntriesOf(documents);
    assert Read(documents, entries);
    hide Readable, EntriesOf;
    assert entries[Trim(documents[0].id)] == Entry(UniqueResource, {"alias"});
    assert entries[Trim(documents[1].id)] == Entry(RecordSource, {"other"});
    assert entries.Keys == {w, other};
  }

  lemma OtherAlias()
    ensures Trimmed(["other"]) == {"other"} && StrictAliases(["other"])
  {
    TightIsBounded("other", 5);
    hide Trim;
    assert Trim(["other"][0]) in Trimmed(["other"]);
  }
}
