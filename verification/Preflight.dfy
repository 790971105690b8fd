/** Preflights: before a mutation touches the database, the recovery snapshot it
    would leave is computed, validated and measured. Each contract says the
    computed projection is the snapshot of the tables after the SQL statement. */
module Preflight {
  import opened Ordering
  import opened ScopedModel
  import opened ScopedRecovery

  /** The status a proposal carries when it leaves the choice to the stored row. */
  const UNSET: Status := OtherStatus("")

  // ------------------------------------------------------- rows after upsert

  function UpsertedScope(t: Tables, p: Scope): Scope {
    if p.id in t.scopes then
      p.(createdAt := t.scopes[p.id].createdAt,
         status := if p.status == UNSET then t.scopes[p.id].status else p.status)
    else
      p.(status := Active, createdAt := p.updatedAt)
  }

  function UpsertedLens(t: Tables, p: Lens): Lens {
    if (p.scopeID, p.id) in t.lenses then
      p.(createdAt := t.lenses[(p.scopeID, p.id)].createdAt,
         status := if p.status == UNSET then t.lenses[(p.scopeID, p.id)].status else p.status)
    else
      p.(status := Active, createdAt := p.updatedAt)
  }

  function UpsertedActor(t: Tables, p: AgentActor): AgentActor {
    if p.id in t.actors then
      p.(createdAt := t.actors[p.id].createdAt,
         status := if p.status == UNSET then t.actors[p.id].status else p.status)
    else
      p.(status := Active, createdAt := p.updatedAt)
  }

  function WithScope(t: Tables, s: Scope): Tables { t.(scopes := t.scopes[s.id := s]) }
  function WithLens(t: Tables, l: Lens): Tables { t.(lenses := t.lenses[(l.scopeID, l.id) := l]) }
  function WithActor(t: Tables, a: AgentActor): Tables { t.(actors := t.actors[a.id := a]) }
  function WithJudgment(t: Tables, j: Judgment): Tables { t.(judgments := t.judgments[j.judgmentID := j]) }
  function WithRun(t: Tables, h: RunHeader, cs: map<string, Candidate>): Tables {
    t.(runs := t.runs[h.runID := h], candidates := t.candidates[h.runID := cs])
  }

  lemma SameRunRows(t: Tables, u: Tables)
    requires t.runs == u.runs && t.candidates == u.candidates
    ensures Build(t).runs == Build(u).runs
  {
    forall k | k in t.runs && k in t.candidates ensures RunRow(t, k) == RunRow(u, k) {}
    assert RunRows(t) == RunRows(u);
  }

  // --------------------------------------------------------------- preflights

  method Accept(env: Env, s: Snapshot) returns (ok: bool)
    ensures ok <==> Acceptable(env, s)
  {
    ok := ValidateSnapshot(env, s);
    ok := ok && Fits(env, s);
  }

  /** A found position names the stored row with that key. */
  lemma FoundRow<K, R(!new)>(less: (R, R) -> bool, key: R -> K, rows: seq<R>, table: map<K, R>, k: nat, wanted: K)
    requires StrictOrder(less) && (forall x :: x in table ==> key(table[x]) == x)
    requires Comparable(less, table.Values) && rows == Listing(less, table.Values)
    requires k <= |rows| && (k < |rows| ==> key(rows[k]) == wanted)
    requires forall i :: 0 <= i < k ==> key(rows[i]) != wanted
    ensures k < |rows| <==> wanted in table
    ensures k < |rows| ==> rows[k] == table[wanted]
  {
    ListingAscending(less, table.Values);
    if wanted in table {
      assert table[wanted] in Rows(rows);
    }
    if k < |rows| {
      assert rows[k] in table.Values;
    }
  }

  lemma ScopePosition(t: Tables, k: nat, wanted: string)
    requires Keyed(t) && k <= |Build(t).scopes|
    requires k < |Build(t).scopes| ==> ((r: Scope) => r.id)(Build(t).scopes[k]) == wanted
    requires forall i :: 0 <= i < k ==> ((r: Scope) => r.id)(Build(t).scopes[i]) != wanted
    ensures k < |Build(t).scopes| <==> wanted in t.scopes
    ensures k < |Build(t).scopes| ==> Build(t).scopes[k] == t.scopes[wanted]
  {
    Orders();
    KeyedComparable(t);
    FoundRow(ScopeLess, (r: Scope) => r.id, Build(t).scopes, t.scopes, k, wanted);
  }

  lemma ScopeProjection(t: Tables, k: nat, row: Scope)
    requires Keyed(t) && k <= |Build(t).scopes|
    requires k < |Build(t).scopes| ==> ((r: Scope) => r.id)(Build(t).scopes[k]) == ((r: Scope) => r.id)(row)
    requires forall i :: 0 <= i < k ==> ((r: Scope) => r.id)(Build(t).scopes[i]) != ((r: Scope) => r.id)(row)
    ensures Build(t).(scopes := Sorted(ScopeLess, Spliced(Build(t).scopes, k, row))) == Build(WithScope(t, row))
  {
    Orders();
    KeyedComparable(t);
    KeyedComparable(WithScope(t, row));
    SameRunRows(t, WithScope(t, row));
    SplicedListing(ScopeLess, (r: Scope) => r.id, Build(t).scopes, t.scopes, k, row);
  }

  method PreflightScope(env: Env, t: Tables, proposed: Scope) returns (row: Option<Scope>)
    requires Keyed(t)
    ensures row.Some? <==> Valid(env, Build(t)) && Acceptable(env, Build(WithScope(t, UpsertedScope(t, proposed))))
    ensures row.Some? ==> row.value == UpsertedScope(t, proposed)
  {
    var built := BuildSnapshot(env, t);
    if built.None? {
      return None;
    }
    var s := built.value;
    var k := IndexOf((r: Scope) => r.id, s.scopes, proposed.id);
    ScopePosition(t, k, proposed.id);
    var merged := proposed;
    if k < |s.scopes| {
      merged := merged.(createdAt := s.scopes[k].createdAt);
      if merged.status == UNSET {
        merged := merged.(status := s.scopes[k].status);
      }
    } else {
      merged := merged.(status := Active, createdAt := merged.updatedAt);
    }
    ScopeProjection(t, k, merged);
    var ok := Accept(env, s.(scopes := Sorted(ScopeLess, Spliced(s.scopes, k, merged))));
    row := if ok then Some(merged) else None;
  }

  lemma LensPosition(t: Tables, k: nat, wanted: (string, string))
    requires Keyed(t) && k <= |Build(t).lenses|
    requires k < |Build(t).lenses| ==> ((r: Lens) => (r.scopeID, r.id))(Build(t).lenses[k]) == wanted
    requires forall i :: 0 <= i < k ==> ((r: Lens) => (r.scopeID, r.id))(Build(t).lenses[i]) != wanted
    ensures k < |Build(t).lenses| <==> wanted in t.lenses
    ensures k < |Build(t).lenses| ==> Build(t).lenses[k] == t.lenses[wanted]
  {
    Orders();
    KeyedComparable(t);
    FoundRow(LensLess, (r: Lens) => (r.scopeID, r.id), Build(t).lenses, t.lenses, k, wanted);
  }

  lemma LensProjection(t: Tables, k: nat, row: Lens)
    requires Keyed(t) && k <= |Build(t).lenses|
    requires k < |Build(t).lenses| ==>
               ((r: Lens) => (r.scopeID, r.id))(Build(t).lenses[k]) == ((r: Lens) => (r.scopeID, r.id))(row)
    requires forall i :: 0 <= i < k ==>
               ((r: Lens) => (r.scopeID, r.id))(Build(t).lenses[i]) != ((r: Lens) => (r.scopeID, r.id))(row)
    ensures Build(t).(lenses := Sorted(LensLess, Spliced(Build(t).lenses, k, row))) == Build(WithLens(t, row))
  {
    Orders();
    KeyedComparable(t);
    KeyedComparable(WithLens(t, row));
    SameRunRows(t, WithLens(t, row));
    SplicedListing(LensLess, (r: Lens) => (r.scopeID, r.id), Build(t).lenses, t.lenses, k, row);
  }

  method PreflightLens(env: Env, t: Tables, proposed: Lens) returns (row: Option<Lens>)
    requires Keyed(t)
    ensures row.Some? <==> Valid(env, Build(t)) && Acceptable(env, Build(WithLens(t, UpsertedLens(t, proposed))))
    ensures row.Some? ==> row.value == UpsertedLens(t, proposed)
  {
    var built := BuildSnapshot(env, t);
    if built.None? {
      return None;
    }
    var s := built.value;
    var k := IndexOf((r: Lens) => (r.scopeID, r.id), s.lenses, (proposed.scopeID, proposed.id));
    LensPosition(t, k, (proposed.scopeID, proposed.id));
    var merged := proposed;
    if k < |s.lenses| {
      merged := merged.(createdAt := s.lenses[k].createdAt);
      if merged.status == UNSET {
        merged := merged.(status := s.lenses[k].status);
      }
    } else {
      merged := merged.(status := Active, createdAt := merged.updatedAt);
    }
    LensProjection(t, k, merged);
    var ok := Accept(env, s.(lenses := Sorted(LensLess, Spliced(s.lenses, k, merged))));
    row := if ok then Some(merged) else None;
  }

  lemma ActorPosition(t: Tables, k: nat, wanted: string)
    requires Keyed(t) && k <= |Build(t).actors|
    requires k < |Build(t).actors| ==> ((r: AgentActor) => r.id)(Build(t).actors[k]) == wanted
    requires forall i :: 0 <= i < k ==> ((r: AgentActor) => r.id)(Build(t).actors[i]) != wanted
    ensures k < |Build(t).actors| <==> wanted in t.actors
    ensures k < |Build(t).actors| ==> Build(t).actors[k] == t.actors[wanted]
  {
    Orders();
    KeyedComparable(t);
    FoundRow(ActorLess, (r: AgentActor) => r.id, Build(t).actors, t.actors, k, wanted);
  }

  lemma ActorProjection(t: Tables, k: nat, row: AgentActor)
    requires Keyed(t) && k <= |Build(t).actors|
    requires k < |Build(t).actors| ==> ((r: AgentActor) => r.id)(Build(t).actors[k]) == ((r: AgentActor) => r.id)(row)
    requires forall i :: 0 <= i < k ==> ((r: AgentActor) => r.id)(Build(t).actors[i]) != ((r: AgentActor) => r.id)(row)
    ensures Build(t).(actors := Sorted(ActorLess, Spliced(Build(t).actors, k, row))) == Build(WithActor(t, row))
  {
    Orders();
    KeyedComparable(t);
    KeyedComparable(WithActor(t, row));
    SameRunRows(t, WithActor(t, row));
    SplicedListing(ActorLess, (r: AgentActor) => r.id, Build(t).actors, t.actors, k, row);
  }

  method PreflightActor(env: Env, t: Tables, proposed: AgentActor) returns (row: Option<AgentActor>)
    requires Keyed(t)
    ensures row.Some? <==> Valid(env, Build(t)) && Acceptable(env, Build(WithActor(t, UpsertedActor(t, proposed))))
    ensures row.Some? ==> row.value == UpsertedActor(t, proposed)
  {
    var built := BuildSnapshot(env, t);
    if built.None? {
      return None;
    }
    var s := built.value;
    var k := IndexOf((r: AgentActor) => r.id, s.actors, proposed.id);
    ActorPosition(t, k, proposed.id);
    var merged := proposed;
    if k < |s.actors| {
      merged := merged.(createdAt := s.actors[k].createdAt);
      if merged.status == UNSET {
        merged := merged.(status := s.actors[k].status);
      }
    } else {
      merged := merged.(status := Active, createdAt := merged.updatedAt);
    }
    ActorProjection(t, k, merged);
    var ok := Accept(env, s.(actors := Sorted(ActorLess, Spliced(s.actors, k, merged))));
    row := if ok then Some(merged) else None;
  }

  // ------------------------------------------------- appended runs and judgments

  lemma {:induction false} DistinctCounts<R>(s: seq<R>, x: R)
    requires Distinct(s)
    ensures multiset(s)[x] <= 1
  {
    if s != [] {
      var front := s[..|s| - 1];
      assert s == front + [s[|s| - 1]];
      DistinctCounts(front, x);
      if s[|s| - 1] == x {
        assert x !in front;
        assert multiset(front)[x] == 0;
      }
    }
  }

  ghost predicate SharedKey<K, R>(key: R -> K, s: seq<R>) {
    exists i, j :: 0 <= i < j < |s| && key(s[i]) == key(s[j])
  }

  /** Appending a row whose key is taken leaves two rows with that key, wherever sorting puts them. */
  lemma DuplicateStays<K, R>(less: (R, R) -> bool, key: R -> K, rows: seq<R>, row: R)
    requires exists i :: 0 <= i < |rows| && key(rows[i]) == key(row)
    ensures SharedKey(key, Sorted(less, rows + [row]))
  {
    hide Sorted;
    var s := Sorted(less, rows + [row]);
    var n :| 0 <= n < |rows| && key(rows[n]) == key(row);
    assert multiset(s) == multiset(rows) + multiset{row};
    if !Distinct(s) {
      var i, j :| 0 <= i < j < |s| && s[i] == s[j];
      assert key(s[i]) == key(s[j]);
    } else {
      DistinctCounts(s, row);
      assert multiset(rows)[row] == 0;
      assert rows[n] in multiset(rows);
      assert rows[n] != row;
      assert rows[n] in multiset(s) && row in multiset(s);
      var a :| 0 <= a < |s| && s[a] == row;
      var b :| 0 <= b < |s| && s[b] == rows[n];
      assert key(s[if a < b then a else b]) == key(s[if a < b then b else a]);
    }
  }

  lemma TakenJudgment(env: Env, t: Tables, j: Judgment, runs: seq<Run>)
    requires Keyed(t) && j.judgmentID in t.judgments
    ensures !JudgmentsValid(env, runs, Sorted(JudgmentLess, Build(t).judgments + [j]))
  {
    var rows := Build(t).judgments;
    BuildRows(t);
    assert t.judgments[j.judgmentID] in Rows(rows);
    var i :| 0 <= i < |rows| && rows[i] == t.judgments[j.judgmentID];
    var key := (r: Judgment) => r.judgmentID;
    assert key(rows[i]) == key(j);
    DuplicateStays(JudgmentLess, key, rows, j);
  }

  lemma AppendedJudgment(t: Tables, j: Judgment)
    requires Keyed(t) && j.judgmentID !in t.judgments
    ensures Build(t).(judgments := Sorted(JudgmentLess, Build(t).judgments + [j])) == Build(WithJudgment(t, j))
  {
    Orders();
    KeyedComparable(t);
    KeyedLog(t);
    WithJudgmentKeyed(t, j);
    KeyedComparable(WithJudgment(t, j));
    JudgmentSection(t, j);
    assert Build(t).judgments == Listing(JudgmentLess, t.judgments.Values);
    hide Build, Keyed, JudgmentLess, Sorted, StrictOrder, Comparable, Listing;
    AppendedListing(JudgmentLess, JudgmentKey, t.judgments, j);
  }

  lemma KeyedLog(t: Tables)
    requires Keyed(t)
    ensures forall k :: k in t.judgments ==> JudgmentKey(t.judgments[k]) == k
  {
  }

  lemma WithJudgmentKeyed(t: Tables, j: Judgment)
    requires Keyed(t)
    ensures Keyed(WithJudgment(t, j))
  {
    hide KeyedCandidates;
  }

  lemma JudgmentSection(t: Tables, j: Judgment)
    ensures Build(WithJudgment(t, j)) ==
            Build(t).(judgments := Listing(JudgmentLess, WithJudgment(t, j).judgments.Values))
  {
    hide Listing;
    SameRunRows(t, WithJudgment(t, j));
  }

  method PreflightJudgment(env: Env, t: Tables, j: Judgment) returns (ok: bool)
    requires Keyed(t)
    ensures ok <==> Valid(env, Build(t)) && j.judgmentID !in t.judgments && Acceptable(env, Build(WithJudgment(t, j)))
  {
    var built := BuildSnapshot(env, t);
    if built.None? {
      return false;
    }
    var s := built.value;
    if j.judgmentID in t.judgments {
      TakenJudgment(env, t, j, s.runs);
    } else {
      AppendedJudgment(t, j);
    }
    ok := Accept(env, s.(judgments := Sorted(JudgmentLess, s.judgments + [j])));
  }

  lemma WithRunRows(t: Tables, h: RunHeader, cs: map<string, Candidate>)
    requires Keyed(t) && h.runID !in t.runs && KeyedCandidates(cs)
    ensures RunRows(WithRun(t, h, cs)) == RunRows(t) + {Run(h, Listing(CandidateLess, cs.Values))}
  {
    KeyedRuns(t);
    hide KeyedCandidates, Listing, Keyed;
    var u := WithRun(t, h, cs);
    forall k | k in t.runs && k in t.candidates ensures RunRow(u, k) == RunRow(t, k) {}
    assert RunRow(u, h.runID) == Run(h, Listing(CandidateLess, cs.Values));
    hide RunRow;
    var rows, more := RunRows(t), RunRows(t) + {RunRow(u, h.runID)};
    forall r | r in RunRows(u) ensures r in more {
      var k :| k in u.runs && k in u.candidates && r == RunRow(u, k);
      if k != h.runID {
        assert RunRow(t, k) in rows;
      }
    }
    forall r | r in more ensures r in RunRows(u) {
      if r in rows {
        var k :| k in t.runs && k in t.candidates && r == RunRow(t, k);
        assert RunRow(u, k) in RunRows(u);
      }
    }
    assert RunRows(u) == more;
  }

  lemma WithRunKeyed(t: Tables, h: RunHeader, cs: map<string, Candidate>)
    requires Keyed(t) && KeyedCandidates(cs)
    ensures Unique(WithRun(t, h, cs))
    ensures (h.scopeID, h.lensID) in t.lenses && h.agentID in t.actors ==> Keyed(WithRun(t, h, cs))
  {
    WithRunUnique(t, h, cs);
    hide Unique;
  }

  lemma WithRunUnique(t: Tables, h: RunHeader, cs: map<string, Candidate>)
    requires Unique(t) && KeyedCandidates(cs)
    ensures Unique(WithRun(t, h, cs))
  {
    hide KeyedCandidates;
  }

  lemma TakenRun(env: Env, t: Tables, run: Run, lenses: seq<Lens>, actors: seq<AgentActor>)
    requires Keyed(t) && run.header.runID in t.runs
    ensures !RunsValid(env, lenses, actors, Sorted(RunLess, Build(t).runs + [run]))
  {
    var rows := Build(t).runs;
    BuildRows(t);
    assert RunRow(t, run.header.runID) in Rows(rows);
    var i :| 0 <= i < |rows| && rows[i] == RunRow(t, run.header.runID);
    var key := (r: Run) => r.header.runID;
    assert key(rows[i]) == key(run);
    DuplicateStays(RunLess, key, rows, run);
  }

  method PreflightRun(env: Env, t: Tables, h: RunHeader, candidates: seq<Candidate>, ghost rows: map<string, Candidate>)
    returns (ok: bool)
    requires Keyed(t) && KeyedCandidates(rows) && rows.Values == Rows(candidates) && Distinct(candidates)
    ensures ok <==> Valid(env, Build(t)) && h.runID !in t.runs && Acceptable(env, Build(WithRun(t, h, rows)))
  {
    var built := BuildSnapshot(env, t);
    if built.None? {
      return false;
    }
    var s := built.value;
    var run := Run(h, Sorted(CandidateLess, candidates));
    SortedCandidates(candidates, rows);
    if h.runID in t.runs {
      TakenRun(env, t, run, s.lenses, s.actors);
    } else {
      AppendedRun(t, h, rows, s.runs, run);
      assert s.(runs := Sorted(RunLess, s.runs + [run])) == Build(WithRun(t, h, rows));
    }
    ok := Accept(env, s.(runs := Sorted(RunLess, s.runs + [run])));
  }

  lemma SortedCandidates(candidates: seq<Candidate>, rows: map<string, Candidate>)
    requires KeyedCandidates(rows) && rows.Values == Rows(candidates) && Distinct(candidates)
    ensures Sorted(CandidateLess, candidates) == Listing(CandidateLess, rows.Values)
  {
    Orders();
    CandidatesComparable(rows);
    SortedIsListing(CandidateLess, candidates, rows.Values);
  }

  lemma AppendedRun(t: Tables, h: RunHeader, cs: map<string, Candidate>, rows: seq<Run>, run: Run)
    requires Keyed(t) && h.runID !in t.runs && KeyedCandidates(cs)
    requires rows == Build(t).runs && run == Run(h, Listing(CandidateLess, cs.Values))
    ensures Sorted(RunLess, rows + [run]) == Build(WithRun(t, h, cs)).runs
  {
    var after := RunRows(WithRun(t, h, cs));
    WithRunRows(t, h, cs);
    WithRunKeyed(t, h, cs);
    BuildRows(t);
    assert run !in RunRows(t);
    AppendedRows(rows, run);
    assert Distinct(rows + [run]) && Rows(rows + [run]) == after;
    Orders();
    KeyedComparable(WithRun(t, h, cs));
    SortedIsListing(RunLess, rows + [run], after);
  }

  lemma AppendedRows(rows: seq<Run>, run: Run)
    requires Ascending(RunLess, rows) && run !in Rows(rows)
    ensures Distinct(rows + [run]) && Rows(rows + [run]) == Rows(rows) + {run}
  {
    Orders();
    var s := rows + [run];
    forall i, j | 0 <= i < j < |s| ensures s[i] != s[j] {
      if j < |rows| {
        assert RunLess(rows[i], rows[j]);
        assert !RunLess(rows[i], rows[i]);
      } else {
        assert rows[i] in Rows(rows);
      }
    }
  }
}
