/** The unscoped tables older releases wrote, their recovery snapshot, and the
    rules that snapshot must meet. */
module LegacyModel {
  import opened Text
  import opened Ordering
  import opened ScopedModel
  import opened ScopedRecovery

  datatype Voice = User | Helper | OtherVoice(text: string)

  datatype LegacyLens = LegacyLens(id: string, name: string, query: string, createdAt: string, updatedAt: string)
  datatype LegacyRun = LegacyRun(runID: string, query: string, lensID: string, retrievalMethod: string,
                                 library: string, createdAt: string)
  datatype Verdict = Verdict(judgmentID: string, key: string, runID: string, lensID: string, recordID: string,
                             voice: Voice, disposition: Disposition, reason: string, reversesID: string,
                             effect: int, createdAt: string)

  datatype LegacyTables = LegacyTables(
    lenses: map<string, LegacyLens>,
    runs: map<string, LegacyRun>,
    candidates: map<string, map<string, Candidate>>,
    verdicts: map<string, Verdict>)

  const NO_LEGACY: LegacyTables := LegacyTables(map[], map[], map[], map[])

  /** The recovery copy keeps lenses and judgments; retrieval rows are not in it. */
  datatype LegacySnapshot = LegacySnapshot(lenses: seq<LegacyLens>, verdicts: seq<Verdict>)

  const EMPTY_LEGACY: LegacySnapshot := LegacySnapshot([], [])

  function LegacyLensKey(l: LegacyLens): string { l.id }
  function VerdictKey(v: Verdict): string { v.judgmentID }

  predicate LegacyLensLess(a: LegacyLens, b: LegacyLens) { Before(a.id, b.id) }
  predicate VerdictLess(a: Verdict, b: Verdict) {
    PairBefore((a.createdAt, a.judgmentID), (b.createdAt, b.judgmentID))
  }

  ghost predicate LegacyKeyed(l: LegacyTables) {
    && (forall k :: k in l.lenses ==> LegacyLensKey(l.lenses[k]) == k)
    && (forall k :: k in l.runs ==> l.runs[k].runID == k)
    && l.candidates.Keys == l.runs.Keys
    && (forall k, c :: k in l.candidates && c in l.candidates[k] ==> l.candidates[k][c].recordID == c)
    && (forall k :: k in l.verdicts ==> VerdictKey(l.verdicts[k]) == k)
  }

  ghost function BuildLegacy(l: LegacyTables): LegacySnapshot {
    LegacySnapshot(Listing(LegacyLensLess, l.lenses.Values), Listing(VerdictLess, l.verdicts.Values))
  }

  lemma LegacyOrders(l: LegacyTables)
    ensures StrictOrder(LegacyLensLess) && StrictOrder(VerdictLess)
    ensures LegacyKeyed(l) ==> Comparable(LegacyLensLess, l.lenses.Values) && Comparable(VerdictLess, l.verdicts.Values)
  {
    BeforeIsOrder();
    PairsBeforeIsOrder();
  }

  /** judgmentEffect, in quarters. */
  function LegacyEffect(voice: Voice, disposition: Disposition): Option<int> {
    match (voice, disposition)
    case (User, Used) => Some(4)
    case (User, Dismissed) => Some(-4)
    case (Helper, Used) => Some(1)
    case (Helper, Dismissed) => Some(-1)
    case (_, _) => None
  }

  predicate LegacyLensOK(env: Env, l: LegacyLens) {
    && Bounded(l.id, 256) && Bounded(l.name, 1024) && Bounded(l.query, TEXT_LIMIT)
    && Bounded(l.createdAt, 256) && Bounded(l.updatedAt, 256)
    && !AnySecret(env, [l.id, l.name, l.query, l.createdAt, l.updatedAt])
  }

  predicate VerdictTextOK(env: Env, v: Verdict) {
    && Bounded(v.judgmentID, 256) && Bounded(v.key, 1024) && Bounded(v.runID, 256) && Bounded(v.lensID, 256)
    && Bounded(v.recordID, 1024) && Bounded(v.createdAt, 256) && OptionalBounded(v.reason, 4096)
    && !AnySecret(env, [v.judgmentID, v.key, v.runID, v.lensID, v.recordID, v.reason, v.reversesID, v.createdAt])
  }

  /** validateRecoveredOriginal */
  predicate OriginalOK(env: Env, v: Verdict) {
    VerdictTextOK(env, v) && v.reversesID == "" && LegacyEffect(v.voice, v.disposition) == Some(v.effect)
  }

  /** validateRecoveredReversal: anyone may reverse anyone's original. */
  predicate ReversalOK(env: Env, v: Verdict, o: Verdict) {
    && VerdictTextOK(env, v) && (v.voice.User? || v.voice.Helper?) && v.disposition.Reversed?
    && v.runID == o.runID && v.lensID == o.lensID && v.recordID == o.recordID && v.effect == -o.effect
  }

  predicate VerdictFine(env: Env, id: string -> string, v: Verdict) {
    v.judgmentID == id(v.key) && (v.reversesID == "" ==> OriginalOK(env, v))
  }

  /** Every reversal in a table undoes an original there, and no original twice. */
  ghost predicate TargetsApart(env: Env, js: map<string, Verdict>) {
    && (forall k :: k in js && js[k].reversesID != "" ==>
          && js[k].reversesID in js && js[js[k].reversesID].reversesID == ""
          && ReversalOK(env, js[k], js[js[k].reversesID]))
    && (forall k, l :: k in js && l in js && k != l && js[k].reversesID != "" ==> js[k].reversesID != js[l].reversesID)
  }

  ghost predicate VerdictsPaired(env: Env, js: map<string, Verdict>) {
    (forall k, l :: k in js && l in js && k != l ==> js[k].key != js[l].key) && TargetsApart(env, js)
  }

  /** validateRecoverySnapshot, read off the tables the snapshot lists. */
  ghost predicate LegacyValid(env: Env, id: string -> string, l: LegacyTables) {
    && LegacyKeyed(l)
    && (forall k :: k in l.lenses ==> LegacyLensOK(env, l.lenses[k]))
    && (forall k :: k in l.verdicts ==> VerdictFine(env, id, l.verdicts[k]))
    && VerdictsPaired(env, l.verdicts)
  }

  /** Nothing but lenses and judgments: what a restored legacy database holds. */
  ghost predicate RestoredLegacy(l: LegacyTables) {
    LegacyKeyed(l) && l.runs == map[]
  }

  lemma LegacyBuildInjective(a: LegacyTables, b: LegacyTables)
    requires LegacyKeyed(a) && LegacyKeyed(b) && BuildLegacy(a) == BuildLegacy(b)
    ensures a.lenses == b.lenses && a.verdicts == b.verdicts
  {
    LegacyOrders(a);
    LegacyOrders(b);
    ListingAscending(LegacyLensLess, a.lenses.Values);
    ListingAscending(LegacyLensLess, b.lenses.Values);
    ListingAscending(VerdictLess, a.verdicts.Values);
    ListingAscending(VerdictLess, b.verdicts.Values);
    KeyedMapsEqual(a.lenses, b.lenses, LegacyLensKey);
    KeyedMapsEqual(a.verdicts, b.verdicts, VerdictKey);
  }

  // ------------------------------------------------- validating a snapshot

  function ReversalTarget(v: Verdict): string { v.reversesID }

  predicate Reverses(env: Env, r: Verdict, o: Verdict) {
    o.reversesID == "" && r.reversesID == o.judgmentID && ReversalOK(env, r, o)
  }

  function Reversing(env: Env): (Verdict, Verdict) -> bool {
    (r: Verdict, o: Verdict) => Reverses(env, r, o)
  }

  ghost predicate LegacyLensesOK(env: Env, lenses: seq<LegacyLens>) {
    && (forall i :: 0 <= i < |lenses| ==> LegacyLensOK(env, lenses[i]))
    && (forall i, j :: 0 <= i < j < |lenses| ==> lenses[i].id != lenses[j].id)
  }

  ghost predicate VerdictsScanned(env: Env, id: string -> string, vs: seq<Verdict>) {
    && (forall i :: 0 <= i < |vs| ==> VerdictFine(env, id, vs[i]))
    && (forall i, j :: 0 <= i < j < |vs| ==> vs[i].judgmentID != vs[j].judgmentID && vs[i].key != vs[j].key)
  }

  /** validateRecoverySnapshot as one statement about the snapshot's lists. */
  ghost predicate SnapshotOK(env: Env, id: string -> string, s: LegacySnapshot) {
    && LegacyLensesOK(env, s.lenses) && VerdictsScanned(env, id, s.verdicts)
    && PairUp(s.verdicts, ReversalTarget, Reversing(env))
  }

  /** validateRecoverySnapshot: two scans and a pass over the reversals. */
  method ValidateLegacy(env: Env, id: string -> string, s: LegacySnapshot) returns (ok: bool)
    ensures ok <==> SnapshotOK(env, id, s)
  {
    hide LegacyLensOK, VerdictFine, Reverses, PairUp;
    var ids, keys;
    ok, ids := ScanRows((l: LegacyLens) => LegacyLensOK(env, l), (l: LegacyLens) => l.id, (l: LegacyLens) => l.id,
                        s.lenses);
    if ok {
      ok, keys := ScanRows((v: Verdict) => VerdictFine(env, id, v), (v: Verdict) => v.judgmentID, (v: Verdict) => v.key,
                           s.verdicts);
    }
    if ok {
      ReversingNames(env);
      var originals := CollectOriginals(s.verdicts, VerdictKey, ReversalTarget);
      ok := ValidateReversals(s.verdicts, VerdictKey, ReversalTarget, Reversing(env), originals);
    }
  }

  lemma ReversingNames(env: Env)
    ensures NamesOriginal(VerdictKey, ReversalTarget, Reversing(env))
  {
    hide ReversalOK;
  }

  lemma LegacyListed(l: LegacyTables)
    requires LegacyKeyed(l)
    ensures Lists(BuildLegacy(l).lenses, LegacyLensKey, l.lenses)
    ensures Lists(BuildLegacy(l).verdicts, VerdictKey, l.verdicts)
    ensures Ascending(LegacyLensLess, BuildLegacy(l).lenses) && Ascending(VerdictLess, BuildLegacy(l).verdicts)
  {
    LegacyOrders(l);
    ListedRows(LegacyLensLess, LegacyLensKey, l.lenses);
    ListedRows(VerdictLess, VerdictKey, l.verdicts);
    ListingAscending(LegacyLensLess, l.lenses.Values);
    ListingAscending(VerdictLess, l.verdicts.Values);
  }

  lemma LensesScanned(env: Env, lenses: seq<LegacyLens>, table: map<string, LegacyLens>)
    requires Lists(lenses, LegacyLensKey, table)
    ensures LegacyLensesOK(env, lenses) <==> forall k :: k in table ==> LegacyLensOK(env, table[k])
  {
    hide LegacyLensOK;
    var key := LegacyLensKey;
    ListsAll(lenses, key, table, (l: LegacyLens) => LegacyLensOK(env, l));
    forall i, j | 0 <= i < j < |lenses| ensures lenses[i].id != lenses[j].id {
      assert key(lenses[i]) != key(lenses[j]);
    }
  }

  lemma ScannedListed(env: Env, id: string -> string, vs: seq<Verdict>, table: map<string, Verdict>)
    requires Lists(vs, VerdictKey, table)
    ensures VerdictsScanned(env, id, vs) <==>
              (forall k :: k in table ==> VerdictFine(env, id, table[k])) &&
              (forall k, l :: k in table && l in table && k != l ==> table[k].key != table[l].key)
  {
    hide VerdictFine;
    var key := VerdictKey;
    ListsAll(vs, key, table, (v: Verdict) => VerdictFine(env, id, v));
    PairwiseListed(vs, key, table, (a: Verdict, b: Verdict) => a.key != b.key);
    forall i, j | 0 <= i < j < |vs| ensures vs[i].judgmentID != vs[j].judgmentID {
      assert key(vs[i]) != key(vs[j]);
    }
  }

  lemma UndoneVerdicts(env: Env, vs: seq<Verdict>, table: map<string, Verdict>)
    requires Lists(vs, VerdictKey, table)
    ensures (forall i :: 0 <= i < |vs| && vs[i].reversesID != "" ==>
             exists o :: o in vs && Reverses(env, vs[i], o)) <==>
            (forall k :: k in table && table[k].reversesID != "" ==>
               && table[k].reversesID in table && table[table[k].reversesID].reversesID == ""
               && ReversalOK(env, table[k], table[table[k].reversesID]))
  {
    hide ReversalOK;
    var key := VerdictKey;
    if forall i :: 0 <= i < |vs| && vs[i].reversesID != "" ==> exists o :: o in vs && Reverses(env, vs[i], o) {
      forall k | k in table && table[k].reversesID != ""
        ensures table[k].reversesID in table && Reverses(env, table[k], table[table[k].reversesID])
      {
        var i :| 0 <= i < |vs| && vs[i] == table[k];
        var o :| o in vs && Reverses(env, vs[i], o);
        assert key(o) in table && table[key(o)] == o;
      }
    }
    if forall k :: k in table && table[k].reversesID != "" ==>
         && table[k].reversesID in table && table[table[k].reversesID].reversesID == ""
         && ReversalOK(env, table[k], table[table[k].reversesID])
    {
      forall i | 0 <= i < |vs| && vs[i].reversesID != "" ensures exists o :: o in vs && Reverses(env, vs[i], o) {
        assert key(vs[i]) in table && table[key(vs[i])] == vs[i];
        var t := vs[i].reversesID;
        assert t in table && key(table[t]) == t;
        assert Reverses(env, vs[i], table[t]);
      }
    }
  }

  lemma TargetsListed(vs: seq<Verdict>, table: map<string, Verdict>)
    requires Lists(vs, VerdictKey, table)
    ensures (forall i, j :: 0 <= i < j < |vs| && vs[i].reversesID != "" ==> vs[i].reversesID != vs[j].reversesID) <==>
            (forall k, l :: k in table && l in table && k != l && table[k].reversesID != "" ==>
               table[k].reversesID != table[l].reversesID)
  {
    hide Lists;
    PairwiseListed(vs, VerdictKey, table,
                   (a: Verdict, b: Verdict) => a.reversesID != "" ==> a.reversesID != b.reversesID);
  }

  lemma PairUpIs(env: Env, vs: seq<Verdict>)
    ensures PairUp(vs, ReversalTarget, Reversing(env)) <==>
              (forall i :: 0 <= i < |vs| && vs[i].reversesID != "" ==>
               exists o :: o in vs && Reverses(env, vs[i], o)) &&
              (forall i, j :: 0 <= i < j < |vs| && vs[i].reversesID != "" ==> vs[i].reversesID != vs[j].reversesID)
  {
    hide Reverses;
    forall i, o | 0 <= i < |vs| ensures Reversing(env)(vs[i], o) <==> Reverses(env, vs[i], o) {}
    forall i | 0 <= i < |vs| ensures ReversalTarget(vs[i]) == vs[i].reversesID {}
  }

  lemma PairsListed(env: Env, vs: seq<Verdict>, table: map<string, Verdict>)
    requires Lists(vs, VerdictKey, table)
    ensures PairUp(vs, ReversalTarget, Reversing(env)) <==> TargetsApart(env, table)
  {
    UndoneVerdicts(env, vs, table);
    TargetsListed(vs, table);
    PairUpIs(env, vs);
    hide Lists, Reverses, ReversalOK, PairUp;
  }

  lemma ValidParts(env: Env, id: string -> string, l: LegacyTables)
    requires LegacyKeyed(l)
    ensures LegacyValid(env, id, l) <==>
              (forall k :: k in l.lenses ==> LegacyLensOK(env, l.lenses[k])) &&
              (forall k :: k in l.verdicts ==> VerdictFine(env, id, l.verdicts[k])) &&
              (forall k, m :: k in l.verdicts && m in l.verdicts && k != m ==>
               l.verdicts[k].key != l.verdicts[m].key) &&
              TargetsApart(env, l.verdicts)
  {
    hide LegacyLensOK, VerdictFine, ReversalOK, LegacyKeyed;
  }

  /** The validator accepts a built snapshot exactly when the tables are in order. */
  lemma SnapshotOKIff(env: Env, id: string -> string, l: LegacyTables)
    requires LegacyKeyed(l)
    ensures SnapshotOK(env, id, BuildLegacy(l)) <==> LegacyValid(env, id, l)
  {
    hide *;
    LegacyListed(l);
    LensesScanned(env, BuildLegacy(l).lenses, l.lenses);
    ScannedListed(env, id, BuildLegacy(l).verdicts, l.verdicts);
    PairsListed(env, BuildLegacy(l).verdicts, l.verdicts);
    ValidParts(env, id, l);
    SnapshotParts(env, id, BuildLegacy(l));
  }

  lemma SnapshotParts(env: Env, id: string -> string, s: LegacySnapshot)
    ensures SnapshotOK(env, id, s) <==>
              LegacyLensesOK(env, s.lenses) && VerdictsScanned(env, id, s.verdicts) &&
              PairUp(s.verdicts, ReversalTarget, Reversing(env))
  {
  }

  /** buildRecoverySnapshot: both tables in order, validated. */
  method BuildLegacySnapshot(env: Env, id: string -> string, l: LegacyTables) returns (s: Option<LegacySnapshot>)
    requires LegacyKeyed(l)
    ensures s == if LegacyValid(env, id, l) then Some(BuildLegacy(l)) else None
  {
    LegacyOrders(l);
    SnapshotOKIff(env, id, l);
    hide LegacyValid, LegacyKeyed, SnapshotOK, Listing;
    var lenses := SelectOrdered(LegacyLensLess, l.lenses.Values);
    var verdicts := SelectOrdered(VerdictLess, l.verdicts.Values);
    var ok := ValidateLegacy(env, id, LegacySnapshot(lenses, verdicts));
    s := if ok then Some(LegacySnapshot(lenses, verdicts)) else None;
  }

  // ---------------------------------------------------------------- restore

  /** No id, key or reversal target twice. */
  ghost predicate NewRows(vs: seq<Verdict>) {
    && (forall i, j :: 0 <= i < j < |vs| ==> vs[i].judgmentID != vs[j].judgmentID && vs[i].key != vs[j].key)
    && (forall i, j :: 0 <= i < j < |vs| && vs[i].reversesID != "" ==> vs[i].reversesID != vs[j].reversesID)
  }

  /** The table and its two unique indexes after inserting these rows. */
  ghost predicate Entered(vs: seq<Verdict>, table: map<string, Verdict>, keys: set<string>, targets: set<string>) {
    && (forall v :: v in vs ==> v.judgmentID in table && table[v.judgmentID] == v)
    && (forall k :: k in table ==> table[k] in vs && VerdictKey(table[k]) == k)
    && (forall k :: k in keys <==> exists v :: v in vs && v.key == k)
    && (forall k :: k in targets <==> k != "" && exists v :: v in vs && v.reversesID == k)
  }

  lemma EnterOne(vs: seq<Verdict>, v: Verdict, table: map<string, Verdict>, keys: set<string>, targets: set<string>)
    requires Entered(vs, table, keys, targets) && NewRows(vs)
    ensures NewRows(vs + [v]) <==> v.judgmentID !in table && v.key !in keys && v.reversesID !in targets
    ensures NewRows(vs + [v]) ==>
              Entered(vs + [v], table[v.judgmentID := v], keys + {v.key},
                      if v.reversesID == "" then targets else targets + {v.reversesID})
  {
    var all := vs + [v];
    if v.judgmentID !in table && v.key !in keys && v.reversesID !in targets {
      forall i, j | 0 <= i < j < |all|
        ensures all[i].judgmentID != all[j].judgmentID && all[i].key != all[j].key
        ensures all[i].reversesID != "" ==> all[i].reversesID != all[j].reversesID
      {
        assert all[i] in vs;
      }
    }
    if NewRows(all) {
      forall w | w in vs
        ensures w.judgmentID != v.judgmentID && w.key != v.key && (v.reversesID == "" || w.reversesID != v.reversesID)
      {
        var i :| 0 <= i < |vs| && vs[i] == w;
        assert all[i] == w && all[|vs|] == v;
      }
    }
  }

  lemma NewPrefix(vs: seq<Verdict>, n: nat)
    requires n <= |vs| && NewRows(vs)
    ensures NewRows(vs[..n])
  {
  }

  /** INSERT INTO judgments: the id and the idempotency key must be new, and so
      must what a reversal reverses. */
  method InsertVerdicts(vs: seq<Verdict>) returns (ok: bool, table: map<string, Verdict>)
    ensures ok <==> NewRows(vs)
    ensures ok ==> (forall k :: k in table ==> VerdictKey(table[k]) == k) && table.Values == Rows(vs)
  {
    hide NewRows, Entered;
    var keys, targets := {}, {};
    ok, table := true, map[];
    NothingEntered();
    for i := 0 to |vs|
      invariant ok && NewRows(vs[..i]) && Entered(vs[..i], table, keys, targets)
    {
      var v := vs[i];
      assert vs[..i + 1] == vs[..i] + [v];
      EnterOne(vs[..i], v, table, keys, targets);
      if v.judgmentID in table || v.key in keys || v.reversesID in targets {
        if NewRows(vs) {
          NewPrefix(vs, i + 1);
        }
        return false, map[];
      }
      table, keys := table[v.judgmentID := v], keys + {v.key};
      if v.reversesID != "" {
        targets := targets + {v.reversesID};
      }
    }
    assert vs[..|vs|] == vs;
    EnteredRows(vs, table, keys, targets);
  }

  lemma NothingEntered()
    ensures NewRows([]) && Entered([], map[], {}, {})
  {
  }

  lemma EnteredRows(vs: seq<Verdict>, table: map<string, Verdict>, keys: set<string>, targets: set<string>)
    requires Entered(vs, table, keys, targets)
    ensures (forall k :: k in table ==> VerdictKey(table[k]) == k) && table.Values == Rows(vs)
  {
    forall v | v in Rows(vs) ensures v in table.Values {
      assert v.judgmentID in table;
    }
  }

  lemma ValidDistinct(env: Env, id: string -> string, s: LegacySnapshot)
    requires SnapshotOK(env, id, s)
    ensures forall i, j :: 0 <= i < j < |s.lenses| ==> s.lenses[i].id != s.lenses[j].id
    ensures NewRows(s.verdicts)
  {
    hide LegacyLensOK, VerdictFine, Reverses;
    var vs := s.verdicts;
    forall i, j | 0 <= i < j < |vs| && vs[i].reversesID != "" ensures vs[i].reversesID != vs[j].reversesID {
      assert ReversalTarget(vs[i]) != ReversalTarget(vs[j]);
    }
  }

  /** restoreRecoverySnapshot into empty tables: exactly the snapshots that validate
      are restored, and reading the tables back gives an ordered one again. */
  method RestoreLegacy(env: Env, id: string -> string, s: LegacySnapshot) returns (ok: bool, l: LegacyTables)
    ensures ok <==> SnapshotOK(env, id, s)
    ensures ok ==> RestoredLegacy(l) && l.lenses.Values == Rows(s.lenses) && l.verdicts.Values == Rows(s.verdicts)
    ensures ok && Ascending(LegacyLensLess, s.lenses) && Ascending(VerdictLess, s.verdicts) ==>
              BuildLegacy(l) == s && LegacyValid(env, id, l)
  {
    hide SnapshotOK, LegacyValid, Listing, Ascending, NewRows;
    l := NO_LEGACY;
    ok := ValidateLegacy(env, id, s);
    if !ok {
      return;
    }
    ValidDistinct(env, id, s);
    var lenses, verdicts;
    ok, lenses := InsertRows((r: LegacyLens) => true, LegacyLensKey, s.lenses);
    assert ok;
    ok, verdicts := InsertVerdicts(s.verdicts);
    l := LegacyTables(lenses, map[], map[], verdicts);
    if Ascending(LegacyLensLess, s.lenses) && Ascending(VerdictLess, s.verdicts) {
      LegacyOrders(l);
      ListingOfAscending(LegacyLensLess, s.lenses);
      ListingOfAscending(VerdictLess, s.verdicts);
      SnapshotOKIff(env, id, l);
    }
  }
}
