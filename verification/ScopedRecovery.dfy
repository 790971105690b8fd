/** The scoped sidecar: reading the tables into a snapshot, validating one, and
    inserting one into empty tables. Loops fill seen-sets and stop at the first
    offending row; their contracts say what a whole accepted snapshot means. */
module ScopedRecovery {
  import opened Ordering
  import opened ScopedModel

  /** The scan every section of a snapshot goes through: stop at the first row
      that is not fine or repeats either of its keys. */
  method ScanRows<R, K(==), L(==)>(fine: R -> bool, key: R -> K, other: R -> L, rows: seq<R>)
    returns (ok: bool, keys: set<K>)
    ensures ok <==> (forall i :: 0 <= i < |rows| ==> fine(rows[i])) &&
                    (forall i, j :: 0 <= i < j < |rows| ==>
                       key(rows[i]) != key(rows[j]) && other(rows[i]) != other(rows[j]))
    ensures ok ==> forall k :: k in keys <==> exists r :: r in rows && key(r) == k
  {
    keys := {};
    var others := {};
    for i := 0 to |rows|
      invariant forall k :: 0 <= k < i ==> fine(rows[k])
      invariant forall k, l :: 0 <= k < l < i ==>
                  key(rows[k]) != key(rows[l]) && other(rows[k]) != other(rows[l])
      invariant keys == set n | 0 <= n < i :: key(rows[n])
      invariant others == set n | 0 <= n < i :: other(rows[n])
    {
      if !fine(rows[i]) || key(rows[i]) in keys || other(rows[i]) in others {
        return false, {};
      }
      keys, others := keys + {key(rows[i])}, others + {other(rows[i])};
    }
    ok := true;
  }

  method ValidateScopes(env: Env, scopes: seq<Scope>) returns (ok: bool, ids: set<string>)
    ensures ok <==> ScopesValid(env, scopes)
    ensures ok ==> forall id :: id in ids <==> exists s :: s in scopes && s.id == id
  {
    ok, ids := ScanRows((s: Scope) => ScopeOK(env, s), (s: Scope) => s.id, (s: Scope) => s.id, scopes);
  }

  method ValidateLenses(env: Env, scopes: seq<Scope>, ids: set<string>, lenses: seq<Lens>)
    returns (ok: bool, keys: set<string>)
    requires forall id :: id in ids <==> exists s :: s in scopes && s.id == id
    ensures ok <==> LensesValid(env, scopes, lenses)
    ensures ok ==> forall k :: k in keys <==> LensListed(lenses, k)
  {
    hide LensOK, Joined;
    ok, keys := ScanRows((l: Lens) => l.scopeID in ids && LensOK(env, l),
                         (l: Lens) => Joined(l.scopeID, l.id), (l: Lens) => Joined(l.scopeID, l.id), lenses);
  }

  method ValidateActors(env: Env, actors: seq<AgentActor>) returns (ok: bool, ids: set<string>)
    ensures ok <==> ActorsValid(env, actors)
    ensures ok ==> forall id :: id in ids <==> exists a :: a in actors && a.id == id
  {
    ok, ids := ScanRows((a: AgentActor) => ActorOK(env, a), (a: AgentActor) => a.id,
                        (a: AgentActor) => a.id, actors);
  }

  method ValidateCandidates(env: Env, cs: seq<Candidate>) returns (ok: bool, records: set<string>)
    ensures ok <==> CandidatesOK(env, cs)
    ensures ok ==> forall id :: id in records <==> exists c :: c in cs && c.recordID == id
  {
    ok, records := ScanRows((c: Candidate) => CandidateOK(env, c), (c: Candidate) => c.recordID,
                            (c: Candidate) => c.rank, cs);
  }

  /** The context index the judgment loop consults: run headers by id, and the
      joined run and record ids some candidate carries. */
  ghost predicate Indexes(runs: seq<Run>, headers: map<string, RunHeader>, keys: set<string>) {
    && (forall id :: id in headers <==> exists r :: r in runs && r.header.runID == id)
    && (forall r :: r in runs ==> r.header.runID in headers && headers[r.header.runID] == r.header)
    && (forall k :: k in keys <==> CandidateListed(runs, k))
  }

  method ValidateRuns(env: Env, lenses: seq<Lens>, lensKeys: set<string>, actors: seq<AgentActor>, ids: set<string>,
                      runs: seq<Run>)
    returns (ok: bool, headers: map<string, RunHeader>, keys: set<string>)
    requires forall k :: k in lensKeys <==> LensListed(lenses, k)
    requires forall id :: id in ids <==> exists a :: a in actors && a.id == id
    ensures ok <==> RunsValid(env, lenses, actors, runs)
    ensures ok ==> Indexes(runs, headers, keys)
  {
    hide HeaderOK, CandidatesOK, Joined, LensListed, CandidateListed;
    headers, keys := map[], {};
    NoCandidates();
    for i := 0 to |runs|
      invariant RunsValid(env, lenses, actors, runs[..i])
      invariant Indexes(runs[..i], headers, keys)
    {
      var r := runs[i];
      assert runs[..i + 1] == runs[..i] + [r];
      if !HeaderOK(env, r.header) || Joined(r.header.scopeID, r.header.lensID) !in lensKeys ||
         r.header.agentID !in ids || |r.candidates| > 100 || r.header.runID in headers {
        if r.header.runID in headers {
          var q :| q in runs[..i] && q.header.runID == r.header.runID;
        }
        return false, map[], {};
      }
      var fine, records := ValidateCandidates(env, r.candidates);
      if !fine {
        return false, map[], {};
      }
      headers := headers[r.header.runID := r.header];
      var more := set id | id in records :: Joined(r.header.runID, id);
      MoreCandidates(runs[..i], r, records, keys, more);
      keys := keys + more;
    }
    assert runs[..|runs|] == runs;
    ok := true;
  }

  lemma NoCandidates()
    ensures forall k :: !CandidateListed([], k)
  {
  }

  lemma MoreCandidates(runs: seq<Run>, r: Run, records: set<string>, keys: set<string>, more: set<string>)
    requires forall k :: k in keys <==> CandidateListed(runs, k)
    requires forall id :: id in records <==> exists c :: c in r.candidates && c.recordID == id
    requires more == set id | id in records :: Joined(r.header.runID, id)
    ensures forall k :: k in keys + more <==> CandidateListed(runs + [r], k)
  {
    hide Joined;
    forall k | CandidateListed(runs + [r], k) ensures k in keys + more {
      var q, c :| q in runs + [r] && c in q.candidates && Joined(q.header.runID, c.recordID) == k;
      if q in runs {
        assert CandidateListed(runs, k);
      }
    }
    forall k | k in keys ensures CandidateListed(runs + [r], k) {
      var q, c :| q in runs && c in q.candidates && Joined(q.header.runID, c.recordID) == k;
      assert q in runs + [r];
    }
    forall k | k in more ensures CandidateListed(runs + [r], k) {
      var id :| id in records && Joined(r.header.runID, id) == k;
      assert r in runs + [r];
    }
  }

  /** The judgment loop's test of a judgment against the context index. */
  predicate FoundInRun(headers: map<string, RunHeader>, keys: set<string>, j: Judgment) {
    j.runID in headers && OfRun(j, headers[j.runID]) && Joined(j.runID, j.recordID) in keys
  }

  lemma InSomeRun(runs: seq<Run>, headers: map<string, RunHeader>, keys: set<string>, j: Judgment)
    requires Indexes(runs, headers, keys)
    ensures ((exists r :: r in runs && OfRun(j, r.header)) && CandidateListed(runs, Joined(j.runID, j.recordID))) <==>
            FoundInRun(headers, keys, j)
  {
    hide Joined, CandidateListed;
    if j.runID in headers && OfRun(j, headers[j.runID]) {
      var r :| r in runs && r.header.runID == j.runID;
      assert headers[j.runID] == r.header;
    }
  }

  method ValidateJudgments(env: Env, runs: seq<Run>, headers: map<string, RunHeader>, keys: set<string>,
                           js: seq<Judgment>) returns (ok: bool)
    requires Indexes(runs, headers, keys)
    ensures ok <==> JudgmentsValid(env, runs, js)
  {
    JudgmentsAre(env, runs, js);
    ScannedDistinct(env, runs, js);
    PairsAre(js);
    hide *;
    ok := ScanJudgments(env, runs, headers, keys, js);
    if ok {
      var originals := CollectOriginals(js, JudgmentKey, Target);
      ok := ValidateReversals(js, JudgmentKey, Target, Undoes, originals);
    }
  }

  lemma PairsAre(js: seq<Judgment>)
    ensures ReversalsValid(js) <==> PairUp(js, Target, Undoes)
    ensures NamesOriginal(JudgmentKey, Target, Undoes)
    ensures forall j: Judgment :: JudgmentKey(j) == j.judgmentID
  {
  }

  lemma ScannedDistinct(env: Env, runs: seq<Run>, js: seq<Judgment>)
    ensures JudgmentsScanned(env, runs, js) ==> forall i, j :: 0 <= i < j < |js| ==>
              js[i].judgmentID != js[j].judgmentID
  {
    hide JudgmentOK;
  }

  /** The judgments one by one: each in order, none repeating an id or a key. */
  ghost predicate JudgmentsScanned(env: Env, runs: seq<Run>, js: seq<Judgment>) {
    && (forall i :: 0 <= i < |js| ==> JudgmentOK(env, runs, js[i]))
    && (forall i, j :: 0 <= i < j < |js| ==> js[i].judgmentID != js[j].judgmentID && js[i].key != js[j].key)
  }

  lemma JudgmentsAre(env: Env, runs: seq<Run>, js: seq<Judgment>)
    ensures JudgmentsValid(env, runs, js) <==> JudgmentsScanned(env, runs, js) && ReversalsValid(js)
  {
    hide JudgmentOK, ReversalsValid;
  }

  method ScanJudgments(env: Env, runs: seq<Run>, headers: map<string, RunHeader>, keys: set<string>,
                       js: seq<Judgment>) returns (ok: bool)
    requires Indexes(runs, headers, keys)
    ensures ok <==> JudgmentsScanned(env, runs, js)
  {
    forall j: Judgment
      ensures JudgmentOK(env, runs, j) <==> JudgmentTextOK(env, j) && FoundInRun(headers, keys, j)
    {
      InSomeRun(runs, headers, keys, j);
    }
    hide JudgmentOK, JudgmentTextOK, FoundInRun, Indexes, CandidateListed, Joined;
    var ids;
    ok, ids := ScanRows((j: Judgment) => JudgmentTextOK(env, j) && FoundInRun(headers, keys, j),
                        (j: Judgment) => j.judgmentID, (j: Judgment) => j.key, js);
  }

  // ------------------------------------------------- reversals of either log

  /** Each reversal undoes some row, and no two have one target. */
  ghost predicate PairUp<R>(rows: seq<R>, target: R -> string, undoes: (R, R) -> bool) {
    && (forall i :: 0 <= i < |rows| && target(rows[i]) != "" ==> exists o :: o in rows && undoes(rows[i], o))
    && (forall i, j :: 0 <= i < j < |rows| && target(rows[i]) != "" ==> target(rows[i]) != target(rows[j]))
  }

  /** What undoing demands of the row undone. */
  ghost predicate NamesOriginal<R(!new)>(key: R -> string, target: R -> string, undoes: (R, R) -> bool) {
    forall r, o :: undoes(r, o) ==> target(o) == "" && target(r) == key(o)
  }

  ghost predicate Originals<R>(rows: seq<R>, key: R -> string, target: R -> string, originals: map<string, R>) {
    && (forall id :: id in originals ==>
        originals[id] in rows && key(originals[id]) == id && target(originals[id]) == "")
    && (forall k :: 0 <= k < |rows| && target(rows[k]) == "" ==>
          key(rows[k]) in originals && originals[key(rows[k])] == rows[k])
  }

  method CollectOriginals<R>(rows: seq<R>, key: R -> string, target: R -> string) returns (originals: map<string, R>)
    requires forall i, k :: 0 <= i < k < |rows| ==> key(rows[i]) != key(rows[k])
    ensures Originals(rows, key, target, originals)
  {
    originals := map[];
    for i := 0 to |rows|
      invariant forall id :: id in originals ==>
                  originals[id] in rows && key(originals[id]) == id && target(originals[id]) == ""
      invariant forall k :: 0 <= k < i && target(rows[k]) == "" ==>
                  key(rows[k]) in originals && originals[key(rows[k])] == rows[k]
    {
      if target(rows[i]) == "" {
        originals := originals[key(rows[i]) := rows[i]];
      }
    }
  }

  method ValidateReversals<R(!new)>(rows: seq<R>, ghost key: R -> string, target: R -> string, undoes: (R, R) -> bool,
                                    originals: map<string, R>)
    returns (ok: bool)
    requires Originals(rows, key, target, originals) && NamesOriginal(key, target, undoes)
    ensures ok <==> PairUp(rows, target, undoes)
  {
    var reversed: set<string> := {};
    hide *;
    NoReversals(rows, target, undoes);
    for i := 0 to |rows|
      invariant PairUpTo(rows, target, undoes, i) && Targets(rows, target, i, reversed)
    {
      var r := rows[i];
      UndoneOriginal(rows, key, target, undoes, originals, r);
      NextReversal(rows, target, undoes, i, reversed);
      if target(r) != "" {
        if target(r) !in originals || target(r) in reversed || !undoes(r, originals[target(r)]) {
          PairUpPrefix(rows, target, undoes, i + 1);
          return false;
        }
        reversed := reversed + {target(r)};
      }
    }
    PairUpPrefix(rows, target, undoes, |rows|);
    ok := true;
  }

  /** The reversals among the first n rows pair up. */
  ghost predicate PairUpTo<R>(rows: seq<R>, target: R -> string, undoes: (R, R) -> bool, n: nat)
    requires n <= |rows|
  {
    && (forall k :: 0 <= k < n && target(rows[k]) != "" ==> exists o :: o in rows && undoes(rows[k], o))
    && (forall k, l :: 0 <= k < l < n && target(rows[k]) != "" ==> target(rows[k]) != target(rows[l]))
  }

  ghost predicate Targets<R>(rows: seq<R>, target: R -> string, n: nat, reversed: set<string>)
    requires n <= |rows|
  {
    forall id :: id in reversed <==> exists k :: 0 <= k < n && target(rows[k]) != "" && target(rows[k]) == id
  }

  lemma NoReversals<R>(rows: seq<R>, target: R -> string, undoes: (R, R) -> bool)
    ensures PairUpTo(rows, target, undoes, 0) && Targets(rows, target, 0, {})
  {
  }

  lemma PairUpPrefix<R>(rows: seq<R>, target: R -> string, undoes: (R, R) -> bool, n: nat)
    requires n <= |rows|
    ensures PairUp(rows, target, undoes) ==> PairUpTo(rows, target, undoes, n)
    ensures n == |rows| ==> (PairUpTo(rows, target, undoes, n) <==> PairUp(rows, target, undoes))
  {
  }

  lemma NextReversal<R>(rows: seq<R>, target: R -> string, undoes: (R, R) -> bool, n: nat, reversed: set<string>)
    requires n < |rows| && PairUpTo(rows, target, undoes, n) && Targets(rows, target, n, reversed)
    ensures PairUpTo(rows, target, undoes, n + 1) <==>
            target(rows[n]) == "" || (target(rows[n]) !in reversed && exists o :: o in rows && undoes(rows[n], o))
    ensures Targets(rows, target, n + 1, if target(rows[n]) == "" then reversed else reversed + {target(rows[n])})
  {
  }

  /** A reversal undoes some row exactly when it undoes the original its target names. */
  lemma UndoneOriginal<R(!new)>(rows: seq<R>, key: R -> string, target: R -> string, undoes: (R, R) -> bool,
                          originals: map<string, R>, r: R)
    requires Originals(rows, key, target, originals) && NamesOriginal(key, target, undoes)
    ensures (exists o :: o in rows && undoes(r, o)) <==>
            target(r) in originals && undoes(r, originals[target(r)])
  {
    if o :| o in rows && undoes(r, o) {
      var k :| 0 <= k < |rows| && rows[k] == o;
    }
  }

  method ValidateSnapshot(env: Env, s: Snapshot) returns (ok: bool)
    ensures ok <==> Valid(env, s)
  {
    hide ScopesValid, LensesValid, ActorsValid, RunsValid, JudgmentsValid, LensListed, Indexes;
    var scopeIDs, lensKeys, actorIDs, headers, keys;
    ok, scopeIDs := ValidateScopes(env, s.scopes);
    if ok {
      ok, lensKeys := ValidateLenses(env, s.scopes, scopeIDs, s.lenses);
    }
    if ok {
      ok, actorIDs := ValidateActors(env, s.actors);
    }
    if ok {
      ok, headers, keys := ValidateRuns(env, s.lenses, lensKeys, s.actors, actorIDs, s.runs);
    }
    if ok {
      ok := ValidateJudgments(env, s.runs, headers, keys, s.judgments);
    }
  }

  ghost function RowsFor(t: Tables, ids: set<string>): set<Run> {
    set k | k in ids && k in t.runs && k in t.candidates :: RunRow(t, k)
  }

  lemma RowsForNext(t: Tables, ids: set<string>, k: string)
    requires k in t.runs && k in t.candidates
    ensures RowsFor(t, ids + {k}) == RowsFor(t, ids) + {RunRow(t, k)}
  {
    hide RunRow;
  }

  lemma RowsForAll(t: Tables)
    ensures RowsFor(t, {}) == {} && RowsFor(t, t.runs.Keys) == RunRows(t)
    ensures Build(t).runs == Listing(RunLess, RunRows(t))
  {
    hide RunRow, Listing;
  }

  method SelectRuns(t: Tables) returns (runs: seq<Run>)
    requires Keyed(t)
    ensures runs == Build(t).runs
  {
    var rows := CollectRuns(t);
    Orders();
    KeyedComparable(t);
    RowsForAll(t);
    hide *;
    runs := SelectOrdered(RunLess, rows);
  }

  method CollectRuns(t: Tables) returns (rows: set<Run>)
    requires Keyed(t)
    ensures rows == RunRows(t)
  {
    RowsForAll(t);
    KeyedRuns(t);
    hide *;
    rows := {};
    var all := t.runs.Keys;
    var todo := all;
    assert all - todo == {};
    while todo != {}
      invariant todo <= all && rows == RowsFor(t, all - todo)
      decreases todo
    {
      var k :| k in todo;
      assert k in all;
      var row := SelectRun(t, k);
      RowsForNext(t, all - todo, k);
      Taken(all, todo, k);
      rows := rows + {row};
      todo := todo - {k};
    }
    assert all - todo == all;
  }

  lemma Taken(all: set<string>, todo: set<string>, k: string)
    requires k in todo && todo <= all
    ensures all - (todo - {k}) == all - todo + {k}
  {
  }

  /** One run with its candidates in order. */
  method SelectRun(t: Tables, k: string) returns (row: Run)
    requires Keyed(t) && k in t.runs && k in t.candidates
    ensures row == RunRow(t, k)
  {
    Orders();
    CandidatesComparable(t.candidates[k]);
    hide Keyed, Listing, StrictOrder, Comparable;
    var candidates := SelectOrdered(CandidateLess, t.candidates[k].Values);
    row := Run(t.runs[k], candidates);
  }

  /** buildScopedRecoverySnapshot: an ordered read of every table, then validation. */
  method BuildSnapshot(env: Env, t: Tables) returns (s: Option<Snapshot>)
    requires Keyed(t)
    ensures s == if Valid(env, Build(t)) then Some(Build(t)) else None
  {
    Orders();
    KeyedComparable(t);
    var scopes := SelectOrdered(ScopeLess, t.scopes.Values);
    var lenses := SelectOrdered(LensLess, t.lenses.Values);
    var actors := SelectOrdered(ActorLess, t.actors.Values);
    var runs := SelectRuns(t);
    var judgments := SelectOrdered(JudgmentLess, t.judgments.Values);
    var snapshot := Snapshot(scopes, lenses, actors, runs, judgments);
    assert snapshot == Build(t);
    var ok := ValidateSnapshot(env, snapshot);
    s := if ok then Some(snapshot) else None;
  }

  // ---------------------------------------------------------------- restore

  ghost predicate DistinctCandidates(cs: seq<Candidate>) {
    forall i, j :: 0 <= i < j < |cs| ==>
      cs[i].recordID != cs[j].recordID && cs[i].rank != cs[j].rank
  }

  /** INSERT INTO scoped_retrieval_candidates for one run: both unique keys are checked. */
  method InsertCandidates(cs: seq<Candidate>) returns (ok: bool, rows: map<string, Candidate>)
    ensures ok <==> DistinctCandidates(cs)
    ensures ok ==> KeyedCandidates(rows) && rows.Values == Rows(cs)
  {
    rows := map[];
    for k := 0 to |cs|
      invariant forall i, j :: 0 <= i < j < k ==> cs[i].recordID != cs[j].recordID && cs[i].rank != cs[j].rank
      invariant forall n :: 0 <= n < k ==> cs[n].recordID in rows && rows[cs[n].recordID] == cs[n]
      invariant forall id :: id in rows ==> rows[id].recordID == id && exists n :: 0 <= n < k && cs[n] == rows[id]
    {
      if cs[k].recordID in rows || (exists o :: o in rows && rows[o].rank == cs[k].rank) {
        return false, map[];
      }
      rows := rows[cs[k].recordID := cs[k]];
    }
    ok := true;
    forall c | c in Rows(cs) ensures c in rows.Values {
      assert c.recordID in rows;
    }
  }

  ghost predicate HasRun(runs: seq<Run>, id: string) {
    exists r :: r in runs && r.header.runID == id
  }

  /** The run and candidate rows of these runs. */
  ghost predicate RunsInserted(runs: seq<Run>, headers: map<string, RunHeader>,
                               candidates: map<string, map<string, Candidate>>) {
    && headers.Keys == candidates.Keys
    && (forall k :: k in headers ==> HasRun(runs, k) && headers[k].runID == k && KeyedCandidates(candidates[k]))
    && (forall r :: r in runs ==> r.header.runID in headers && headers[r.header.runID] == r.header &&
                                  candidates[r.header.runID].Values == Rows(r.candidates))
  }

  lemma RunInserted(runs: seq<Run>, r: Run, headers: map<string, RunHeader>,
                    candidates: map<string, map<string, Candidate>>, rows: map<string, Candidate>)
    requires RunsInserted(runs, headers, candidates) && !HasRun(runs, r.header.runID)
    requires KeyedCandidates(rows) && rows.Values == Rows(r.candidates)
    ensures RunsInserted(runs + [r], headers[r.header.runID := r.header], candidates[r.header.runID := rows])
  {
    hide KeyedCandidates, Rows;
    var id := r.header.runID;
    var more := headers[id := r.header];
    forall k | k in more ensures HasRun(runs + [r], k) {
      if k == id {
        assert r in runs + [r];
      } else {
        assert HasRun(runs, k);
        var q :| q in runs && q.header.runID == k;
        assert q in runs + [r];
      }
    }
  }

  /** Run ids differ, and so do both keys of each run's candidates. */
  ghost predicate RunsDistinct(runs: seq<Run>) {
    && (forall i, j :: 0 <= i < j < |runs| ==> runs[i].header.runID != runs[j].header.runID)
    && (forall r :: r in runs ==> DistinctCandidates(r.candidates))
  }

  lemma DistinctNext(runs: seq<Run>, i: nat)
    requires i < |runs| && RunsDistinct(runs[..i])
    ensures RunsDistinct(runs[..i + 1]) <==>
            !HasRun(runs[..i], runs[i].header.runID) && DistinctCandidates(runs[i].candidates)
    ensures RunsDistinct(runs) ==> RunsDistinct(runs[..i + 1])
  {
    hide DistinctCandidates;
    var before, after := runs[..i], runs[..i + 1];
    assert after == before + [runs[i]];
    forall q | q in before ensures exists k :: 0 <= k < i && after[k] == q {
      var k :| 0 <= k < i && before[k] == q;
      assert after[k] == q;
    }
    assert forall k :: 0 <= k < i ==> before[k] == after[k] == runs[k] && before[k] in before;
  }

  /** INSERT of runs and their candidates into empty tables: run ids must be new, and
      within a run both keys of its candidates. */
  method InsertRuns(runs: seq<Run>)
    returns (ok: bool, headers: map<string, RunHeader>, candidates: map<string, map<string, Candidate>>)
    ensures ok <==> RunsDistinct(runs)
    ensures ok ==> RunsInserted(runs, headers, candidates)
    ensures ok ==> headers.Keys == candidates.Keys == set r | r in runs :: r.header.runID
    ensures ok ==> forall k :: k in headers ==> headers[k].runID == k && KeyedCandidates(candidates[k])
  {
    headers, candidates := map[], map[];
    assert RunsInserted(runs[..0], headers, candidates) && RunsDistinct(runs[..0]);
    hide *;
    for i := 0 to |runs|
      invariant RunsInserted(runs[..i], headers, candidates) && RunsDistinct(runs[..i])
    {
      var r := runs[i];
      DistinctNext(runs, i);
      RunKnown(runs[..i], headers, candidates, r.header.runID);
      if r.header.runID in headers {
        return false, map[], map[];
      }
      var rows;
      ok, rows := InsertCandidates(r.candidates);
      if !ok {
        return false, map[], map[];
      }
      assert runs[..i + 1] == runs[..i] + [r];
      RunInserted(runs[..i], r, headers, candidates, rows);
      headers, candidates := headers[r.header.runID := r.header], candidates[r.header.runID := rows];
    }
    ok := true;
    assert runs[..|runs|] == runs;
    InsertedKeys(runs, headers, candidates);
  }

  lemma RunKnown(runs: seq<Run>, headers: map<string, RunHeader>, candidates: map<string, map<string, Candidate>>,
                 id: string)
    requires RunsInserted(runs, headers, candidates)
    ensures id in headers <==> HasRun(runs, id)
  {
    hide KeyedCandidates, Rows;
  }

  lemma InsertedKeys(runs: seq<Run>, headers: map<string, RunHeader>, candidates: map<string, map<string, Candidate>>)
    requires RunsInserted(runs, headers, candidates)
    ensures headers.Keys == candidates.Keys == set r | r in runs :: r.header.runID
    ensures forall k :: k in headers ==> headers[k].runID == k && KeyedCandidates(candidates[k])
  {
    hide KeyedCandidates, Rows;
  }

  /** INSERT of whole rows into an empty table: a parent must exist, keys must be new. */
  method InsertRows<K(==), R(==)>(parent: R -> bool, key: R -> K, rows: seq<R>)
    returns (ok: bool, table: map<K, R>)
    ensures ok <==> (forall i :: 0 <= i < |rows| ==> parent(rows[i])) &&
                    (forall i, j :: 0 <= i < j < |rows| ==> key(rows[i]) != key(rows[j]))
    ensures ok ==> (forall k :: k in table ==> key(table[k]) == k) && table.Values == Rows(rows)
  {
    table := map[];
    for i := 0 to |rows|
      invariant forall k :: 0 <= k < i ==> parent(rows[k])
      invariant forall k, l :: 0 <= k < l < i ==> key(rows[k]) != key(rows[l])
      invariant table.Keys == set n | 0 <= n < i :: key(rows[n])
      invariant forall n :: 0 <= n < i ==> table[key(rows[n])] == rows[n]
      invariant forall k :: k in table ==> key(table[k]) == k
    {
      if !parent(rows[i]) || key(rows[i]) in table {
        return false, map[];
      }
      table := table[key(rows[i]) := rows[i]];
    }
    ok := true;
    forall r | r in Rows(rows) ensures r in table.Values {
      assert key(r) in table;
    }
    forall r | r in table.Values ensures r in Rows(rows) {
      var k :| k in table && table[k] == r;
    }
  }

  /** Every INSERT of the snapshot's rows goes through: keys are new, parents exist. */
  ghost predicate Insertable(s: Snapshot) {
    && (forall i, j :: 0 <= i < j < |s.scopes| ==> s.scopes[i].id != s.scopes[j].id)
    && (forall i :: 0 <= i < |s.lenses| ==> ScopeListed(s.scopes, s.lenses[i].scopeID))
    && (forall i, j :: 0 <= i < j < |s.lenses| ==>
          (s.lenses[i].scopeID, s.lenses[i].id) != (s.lenses[j].scopeID, s.lenses[j].id))
    && (forall i, j :: 0 <= i < j < |s.actors| ==> s.actors[i].id != s.actors[j].id)
    && RunsDistinct(s.runs) && ParentsListed(s)
    && (forall i, j :: 0 <= i < j < |s.judgments| ==> s.judgments[i].judgmentID != s.judgments[j].judgmentID)
  }

  /** Every run's lens and agent are listed, ids compared one by one: the foreign
      keys of the run table. */
  ghost predicate ParentsListed(s: Snapshot) {
    forall r :: r in s.runs ==>
      && (exists l :: l in s.lenses && l.scopeID == r.header.scopeID && l.id == r.header.lensID)
      && (exists a :: a in s.actors && a.id == r.header.agentID)
  }

  /** The tables hold exactly the snapshot's rows. */
  ghost predicate Holds(t: Tables, s: Snapshot) {
    && t.scopes.Values == Rows(s.scopes) && t.lenses.Values == Rows(s.lenses)
    && t.actors.Values == Rows(s.actors) && t.judgments.Values == Rows(s.judgments)
    && t.runs.Keys == (set r | r in s.runs :: r.header.runID) && t.candidates.Keys == t.runs.Keys
    && (forall r :: r in s.runs ==> t.runs[r.header.runID] == r.header &&
                                    t.candidates[r.header.runID].Values == Rows(r.candidates))
  }

  /** A valid snapshot can be inserted exactly when its runs' parents are listed. */
  lemma ValidInsertable(env: Env, s: Snapshot)
    requires Valid(env, s)
    ensures Insertable(s) <==> ParentsListed(s)
  {
    hide ScopeOK, LensOK, ActorOK, HeaderOK, CandidateOK, JudgmentOK, ReversalsValid, ScopeListed, LensListed,
         ParentsListed;
    forall r | r in s.runs ensures DistinctCandidates(r.candidates) {
      assert RunOK(env, s.lenses, s.actors, r);
    }
  }

  method InsertTables(s: Snapshot) returns (t: Tables)
    requires Insertable(s)
    ensures Keyed(t) && t.sources == map[] && Holds(t, s)
  {
    hide DistinctCandidates, ParentsListed, Linked, KeyedCandidates;
    var ok, scopes, lenses, actors, headers, candidates, judgments;
    ok, scopes := InsertRows((r: Scope) => true, ScopeKey, s.scopes);
    assert ok;
    InsertedIDs(scopes, s.scopes);
    ok, lenses := InsertRows((r: Lens) => r.scopeID in scopes, LensKey, s.lenses);
    assert ok;
    ok, actors := InsertRows((r: AgentActor) => true, ActorKey, s.actors);
    assert ok;
    ok, headers, candidates := InsertRuns(s.runs);
    assert ok;
    ok, judgments := InsertRows((r: Judgment) => true, JudgmentKey, s.judgments);
    assert ok;
    t := Tables(scopes, lenses, actors, headers, candidates, map[], judgments);
    InsertedLinked(t, s);
  }

  lemma InsertedLinked(t: Tables, s: Snapshot)
    requires Unique(t) && Holds(t, s) && ParentsListed(s)
    requires forall i :: 0 <= i < |s.lenses| ==> ScopeListed(s.scopes, s.lenses[i].scopeID)
    ensures Linked(t)
  {
    forall k | k in t.lenses ensures k.0 in t.scopes {
      assert t.lenses[k] in Rows(s.lenses);
      var i :| 0 <= i < |s.lenses| && s.lenses[i] == t.lenses[k];
      var p :| p in s.scopes && p.id == k.0;
      assert p in t.scopes.Values;
    }
    forall k | k in t.runs
      ensures (t.runs[k].scopeID, t.runs[k].lensID) in t.lenses && t.runs[k].agentID in t.actors
    {
      var r :| r in s.runs && r.header.runID == k;
      var l :| l in s.lenses && l.scopeID == r.header.scopeID && l.id == r.header.lensID;
      var a :| a in s.actors && a.id == r.header.agentID;
      assert l in t.lenses.Values && a in t.actors.Values;
    }
  }

  /** The snapshot of keyed tables lists its runs' parents. */
  lemma BuiltParents(t: Tables)
    requires Keyed(t)
    ensures ParentsListed(Build(t))
  {
    BuildRows(t);
    BuildLists(t);
    hide Build, Ordered, Lists, Keyed, Listing, Rows;
    forall r | r in Build(t).runs
      ensures exists l :: l in Build(t).lenses && l.scopeID == r.header.scopeID && l.id == r.header.lensID
      ensures exists a :: a in Build(t).actors && a.id == r.header.agentID
    {
      BuiltParentsOf(t, r, Build(t).lenses, Build(t).actors, Build(t).runs);
    }
  }

  lemma BuiltParentsOf(t: Tables, r: Run, lenses: seq<Lens>, actors: seq<AgentActor>, runs: seq<Run>)
    requires Keyed(t) && r in runs && Rows(runs) == RunRows(t)
    requires Lists(lenses, LensKey, t.lenses) && Lists(actors, ActorKey, t.actors)
    ensures exists l :: l in lenses && l.scopeID == r.header.scopeID && l.id == r.header.lensID
    ensures exists a :: a in actors && a.id == r.header.agentID
  {
    hide Listing, KeyedCandidates;
    assert r in Rows(runs);
    var k :| k in t.runs && k in t.candidates && RunRow(t, k) == r;
    var lens, actor := t.lenses[(r.header.scopeID, r.header.lensID)], t.actors[r.header.agentID];
    assert lens in lenses && actor in actors;
  }

  /** restoreScopedRecoverySnapshot into empty tables: the snapshot is validated,
      and then the inserts check what the tables demand. Reading the tables back
      gives an ordered snapshot again. */
  method RestoreSnapshot(env: Env, s: Snapshot) returns (ok: bool, t: Tables)
    ensures ok <==> Valid(env, s) && ParentsListed(s)
    ensures ok ==> Keyed(t) && t.sources == map[]
    ensures ok && Ordered(s) ==> Build(t) == s
  {
    hide *;
    t := EMPTY;
    ok := ValidateSnapshot(env, s);
    if !ok {
      return;
    }
    ok := CheckParents(s);
    if !ok {
      return;
    }
    ValidInsertable(env, s);
    t := InsertTables(s);
    if Ordered(s) {
      RestoredBuild(t, s);
    }
  }

  /** The foreign keys the run inserts are checked against. */
  method CheckParents(s: Snapshot) returns (ok: bool)
    ensures ok <==> ParentsListed(s)
  {
    for i := 0 to |s.runs|
      invariant forall k :: 0 <= k < i ==>
                  && (exists l ::
                        l in s.lenses && l.scopeID == s.runs[k].header.scopeID && l.id == s.runs[k].header.lensID)
                  && (exists a :: a in s.actors && a.id == s.runs[k].header.agentID)
    {
      var h := s.runs[i].header;
      if !(exists l :: l in s.lenses && l.scopeID == h.scopeID && l.id == h.lensID) ||
         !(exists a :: a in s.actors && a.id == h.agentID) {
        return false;
      }
    }
    ok := true;
  }

  lemma InsertedIDs(scopes: map<string, Scope>, rows: seq<Scope>)
    requires (forall k :: k in scopes ==> ScopeKey(scopes[k]) == k) && scopes.Values == Rows(rows)
    ensures forall id :: ScopeListed(rows, id) ==> id in scopes
  {
    forall s | s in rows ensures s.id in scopes {
      assert s in scopes.Values;
    }
  }

  lemma RestoredBuild(t: Tables, s: Snapshot)
    requires Keyed(t) && Ordered(s) && Holds(t, s)
    ensures Build(t) == s
  {
    Orders();
    RestoredRuns(t, s);
    ListingOfAscending(ScopeLess, s.scopes);
    ListingOfAscending(LensLess, s.lenses);
    ListingOfAscending(ActorLess, s.actors);
    ListingOfAscending(JudgmentLess, s.judgments);
    ListingOfAscending(RunLess, s.runs);
    hide Ordered, Keyed, Listing, Ascending, StrictOrder, RunRows;
    assert Build(t).scopes == s.scopes && Build(t).lenses == s.lenses && Build(t).actors == s.actors;
  }

  lemma RestoredRuns(t: Tables, s: Snapshot)
    requires Keyed(t) && Ordered(s) && Holds(t, s)
    ensures RunRows(t) == Rows(s.runs)
  {
    Orders();
    forall r | r in s.runs ensures RunRow(t, r.header.runID) == r {
      ListingOfAscending(CandidateLess, r.candidates);
    }
    hide Ordered, Ascending, Listing, StrictOrder, KeyedCandidates, RunRow;
    forall k | k in t.runs ensures RunRow(t, k) in Rows(s.runs) {
      var r :| r in s.runs && r.header.runID == k;
    }
    forall r | r in Rows(s.runs) ensures r in RunRows(t) {
      assert r.header.runID in t.runs;
    }
  }
}
