/** projectLegacyState: unscoped history copied under the reserved root scope and
    the archived legacy agent, one INSERT ... SELECT after another. */
module LegacyProjection {
  import opened Text
  import opened Ordering
  import opened ScopedModel
  import opened LegacyModel
  import opened Ledger
  import opened Feedback

  const ROOT := "owner_root_scope"
  const LEGACY_AGENT := "legacy_agent_actor"

  // --------------------------------------------------------- the statements

  function RootScope(now: string): Scope {
    Scope(ROOT, "Owner root", "Legacy owner-created lenses", Active, now, now)
  }

  function LegacyAgent(now: string): AgentActor {
    AgentActor(LEGACY_AGENT, "Legacy agent", Archived, now, now)
  }

  /** Both inserts leave an existing row alone. */
  function Seeded(t: Tables, now: string): Tables {
    t.(scopes := if ROOT in t.scopes then t.scopes else t.scopes[ROOT := RootScope(now)],
       actors := if LEGACY_AGENT in t.actors then t.actors else t.actors[LEGACY_AGENT := LegacyAgent(now)])
  }

  function RootLens(t: Tables, l: LegacyLens): Lens {
    Lens(ROOT, l.id, l.name, l.query, if (ROOT, l.id) in t.lenses then t.lenses[(ROOT, l.id)].status else Active,
         l.createdAt, l.updatedAt)
  }

  function WithLegacyLenses(l: LegacyTables, t: Tables): Tables {
    t.(lenses := t.lenses + map k | k in l.lenses :: (ROOT, k) := RootLens(t, l.lenses[k]))
  }

  ghost function JudgedRuns(l: LegacyTables): set<string> {
    set k | k in l.verdicts :: l.verdicts[k].runID
  }

  function HeaderOf(r: LegacyRun): RunHeader {
    RunHeader(r.runID, r.query, ROOT, r.lensID, LEGACY_AGENT, r.retrievalMethod, r.library, r.createdAt)
  }

  /** Runs some judgment needs, when their lens was copied. */
  ghost function WithLegacyRuns(l: LegacyTables, t: Tables): Tables {
    var added := map k | k in l.runs && k in JudgedRuns(l) && k !in t.runs && (ROOT, l.runs[k].lensID) in t.lenses
      :: HeaderOf(l.runs[k]);
    t.(runs := t.runs + added, candidates := t.candidates + map k | k in added :: map[])
  }

  /** The judged lenses of a run that were copied: one rebuilt run per group,
      and the first group to be inserted keeps the run. */
  ghost predicate Groups(l: LegacyTables, lenses: set<(string, string)>, run: string, lens: string) {
    (ROOT, lens) in lenses && exists k :: k in l.verdicts && l.verdicts[k].runID == run && l.verdicts[k].lensID == lens
  }

  ghost predicate Grouped(l: LegacyTables, lenses: set<(string, string)>, run: string) {
    exists lens :: Groups(l, lenses, run, lens)
  }

  /** MIN(created_at) over a group. */
  ghost function Earliest(l: LegacyTables, run: string, lens: string): string {
    var times := Listing(Before, set k | k in l.verdicts && l.verdicts[k].runID == run && l.verdicts[k].lensID == lens
                                   :: l.verdicts[k].createdAt);
    if times == [] then "" else times[0]
  }

  ghost function RebuiltHeader(l: LegacyTables, lenses: set<(string, string)>, run: string): RunHeader
    requires Grouped(l, lenses, run)
  {
    var lens :| Groups(l, lenses, run, lens);
    RunHeader(run, "Recovered legacy feedback", ROOT, lens, LEGACY_AGENT, "legacy-recovery", "legacy-recovery",
              Earliest(l, run, lens))
  }

  ghost function RebuiltRows(l: LegacyTables, lenses: set<(string, string)>): map<string, RunHeader> {
    map k | k in JudgedRuns(l) && Grouped(l, lenses, k) :: RebuiltHeader(l, lenses, k)
  }

  /** Both this and the next statement keep a run that is already there. */
  ghost function WithRebuiltRuns(l: LegacyTables, t: Tables): Tables {
    var rows := RebuiltRows(l, t.lenses.Keys);
    t.(runs := rows + t.runs, candidates := (map k | k in rows :: map[]) + t.candidates)
  }

  /** Legacy candidates of every scoped run; a taken (run, record) stays as it is. */
  function CopiedCandidates(l: LegacyTables, t: Tables, run: string): map<string, Candidate>
    requires run in t.candidates
  {
    (if run in l.candidates then l.candidates[run] else map[]) + t.candidates[run]
  }

  function WithLegacyCandidates(l: LegacyTables, t: Tables): Tables {
    t.(candidates := map k | k in t.candidates :: CopiedCandidates(l, t, k))
  }

  /** Judged records the run's candidates do not show. */
  ghost function Missing(l: LegacyTables, t: Tables, run: string): set<string>
    requires run in t.candidates
  {
    set k | k in l.verdicts && l.verdicts[k].runID == run && l.verdicts[k].recordID !in t.candidates[run]
      :: l.verdicts[k].recordID
  }

  predicate Less(a: int, b: int) { a < b }

  /** COALESCE(MAX(n), 0) */
  ghost function Greatest(ns: set<int>): int {
    var s := Listing(Less, ns);
    if s == [] then 0 else s[|s| - 1]
  }

  lemma GreatestBounds(ns: set<int>)
    ensures forall n :: n in ns ==> n <= Greatest(ns)
    ensures ns != {} ==> Greatest(ns) in ns
    ensures ns == {} ==> Greatest(ns) == 0
  {
    ListingAscending(Less, ns);
    var s := Listing(Less, ns);
    RowsEmpty(s);
    forall n | n in ns ensures n <= Greatest(ns) {
      assert n in Rows(s);
      var i :| 0 <= i < |s| && s[i] == n;
      assert i < |s| - 1 ==> Less(s[i], s[|s| - 1]);
    }
    if ns != {} {
      assert s[|s| - 1] in Rows(s);
    }
  }

  ghost function TopRank(cs: map<string, Candidate>): int {
    Greatest(set k | k in cs :: cs[k].rank)
  }

  /** ROW_NUMBER() OVER (PARTITION BY run ORDER BY record) */
  ghost function RowNumber(records: set<string>, record: string): nat {
    1 + |set r | r in records && Before(r, record)|
  }

  ghost function Rebuilt(missing: set<string>, top: int): map<string, Candidate> {
    map r | r in missing :: Candidate(r, top + RowNumber(missing, r), Finite(0.0), map[])
  }

  ghost function WithRebuiltCandidates(l: LegacyTables, t: Tables): Tables {
    t.(candidates := map k | k in t.candidates :: t.candidates[k] + Rebuilt(Missing(l, t, k), TopRank(t.candidates[k])))
  }

  /** COALESCE(original.actor, j.actor): a reversal speaks with its original's voice. */
  function SpokenBy(l: LegacyTables, v: Verdict): Voice {
    if v.reversesID in l.verdicts then l.verdicts[v.reversesID].voice else v.voice
  }

  function Scoped(l: LegacyTables, v: Verdict): Judgment {
    var agent := SpokenBy(l, v).Helper?;
    Judgment(v.judgmentID, v.key, v.runID, ROOT, v.lensID, if agent then LEGACY_AGENT else "", v.recordID,
             if agent then Agent else Owner, v.disposition, v.reason, v.reversesID, v.effect, v.createdAt)
  }

  function WithLegacyJudgments(l: LegacyTables, t: Tables): Tables {
    t.(judgments := (map k | k in l.verdicts :: Scoped(l, l.verdicts[k])) + t.judgments)
  }

  /** The rows before judgments, one statement after another. */
  ghost function Traced(l: LegacyTables, t: Tables, now: string): Tables {
    WithRebuiltRuns(l, WithLegacyRuns(l, WithLegacyLenses(l, Seeded(t, now))))
  }

  ghost function Projected(l: LegacyTables, t: Tables, now: string): Tables {
    WithLegacyJudgments(l, WithRebuiltCandidates(l, WithLegacyCandidates(l, Traced(l, t, now))))
  }

  // --------------------------------------------------------------- conditions

  /** Tables a first projection meets: empty, or holding only the reserved rows. */
  ghost predicate Unprojected(t: Tables) {
    && t.lenses == map[] && t.runs == map[] && t.candidates == map[] && t.judgments == map[]
    && (forall k :: k in t.scopes ==> k == ROOT && t.scopes[k].id == ROOT)
    && (forall k :: k in t.actors ==> k == LEGACY_AGENT && t.actors[k].id == LEGACY_AGENT)
  }

  /** Each judged run has one lens: its judgments agree, and so does the run's
      own row when that row's lens was copied. */
  ghost predicate OneLens(l: LegacyTables) {
    forall k :: k in l.verdicts ==>
      var v := l.verdicts[k];
      && (v.runID in l.runs && l.runs[v.runID].lensID in l.lenses ==> l.runs[v.runID].lensID == v.lensID)
      && forall m :: m in l.verdicts && l.verdicts[m].runID == v.runID ==> l.verdicts[m].lensID == v.lensID
  }

  ghost predicate LensesExist(l: LegacyTables) {
    forall k :: k in l.verdicts ==> l.verdicts[k].lensID in l.lenses
  }

  ghost predicate DistinctRanks(cs: map<string, Candidate>) {
    forall c, d :: c in cs && d in cs && c != d ==> cs[c].rank != cs[d].rank
  }

  ghost function LegacyCandidates(l: LegacyTables, run: string): map<string, Candidate> {
    if run in l.candidates then l.candidates[run] else map[]
  }

  ghost function Unshown(l: LegacyTables, run: string): set<string> {
    set k | k in l.verdicts && l.verdicts[k].runID == run && l.verdicts[k].recordID !in LegacyCandidates(l, run)
      :: l.verdicts[k].recordID
  }

  /** A judged run's copied candidates rank from one, distinctly, and together
      with the judged records they leave out there are at most a hundred. */
  ghost predicate RanksFit(l: LegacyTables) {
    forall run :: run in JudgedRuns(l) ==> FitsRun(l, run)
  }

  // ------------------------------------------------------ what the traces hold

  lemma LensRows(l: LegacyTables, t: Tables)
    requires t.lenses == map[]
    ensures WithLegacyLenses(l, t) == t.(lenses := WithLegacyLenses(l, t).lenses)
    ensures forall k :: (ROOT, k) in WithLegacyLenses(l, t).lenses <==> k in l.lenses
  {
  }

  lemma CopiedRuns(l: LegacyTables, t: Tables)
    requires t.runs == map[] && t.candidates == map[]
    ensures var u := WithLegacyRuns(l, t);
            && u == t.(runs := u.runs, candidates := u.candidates)
            && (forall k :: k in u.runs <==>
                  k in l.runs && k in JudgedRuns(l) && (ROOT, l.runs[k].lensID) in t.lenses)
            && (forall k :: k in u.runs ==> u.runs[k] == HeaderOf(l.runs[k]))
            && u.candidates.Keys == u.runs.Keys && (forall k :: k in u.candidates ==> u.candidates[k] == map[])
  {
    hide HeaderOf, JudgedRuns;
  }

  lemma RebuiltRowsAt(l: LegacyTables, lenses: set<(string, string)>, k: string)
    ensures k in RebuiltRows(l, lenses) <==> k in JudgedRuns(l) && Grouped(l, lenses, k)
    ensures k in RebuiltRows(l, lenses) ==> RebuiltRows(l, lenses)[k] == RebuiltHeader(l, lenses, k)
  {
    hide RebuiltHeader, Grouped, JudgedRuns;
  }

  lemma LayeredRuns(l: LegacyTables, t1: Tables, t2: Tables, k: string)
    requires t2.lenses == t1.lenses && t2.runs.Keys == t2.candidates.Keys
    requires forall k :: k in t2.runs ==> k in JudgedRuns(l) && t2.candidates[k] == map[]
    ensures var u := WithRebuiltRuns(l, t2);
            && u == t2.(runs := u.runs, candidates := u.candidates) && u.candidates.Keys == u.runs.Keys
            && (k in u.candidates ==> u.candidates[k] == map[])
            && (k in u.runs <==> k in t2.runs || (k in JudgedRuns(l) && Grouped(l, t1.lenses.Keys, k)))
            && (k in u.runs ==>
                  u.runs[k] == if k in t2.runs then t2.runs[k] else RebuiltHeader(l, t1.lenses.Keys, k))
  {
    hide RebuiltHeader, Groups, Grouped, JudgedRuns, RebuiltRows;
    RebuiltRowsAt(l, t1.lenses.Keys, k);
    var rows := RebuiltRows(l, t1.lenses.Keys);
    var u := WithRebuiltRuns(l, t2);
    assert u.runs.Keys == rows.Keys + t2.runs.Keys;
    assert u.candidates.Keys == rows.Keys + t2.candidates.Keys;
  }

  /** The run rows of a projection: a copied header where the run's row and lens
      survive, a rebuilt one for every other judged group. */
  lemma TracedRuns(l: LegacyTables, t: Tables, now: string, k: string)
    requires Unprojected(t)
    ensures var u := Traced(l, t, now);
            && u.candidates.Keys == u.runs.Keys && (k in u.candidates ==> u.candidates[k] == map[])
            && u.scopes == Seeded(t, now).scopes && u.actors == Seeded(t, now).actors && u.judgments == map[]
            && u.lenses == WithLegacyLenses(l, Seeded(t, now)).lenses
            && (k in l.lenses <==> (ROOT, k) in u.lenses)
            && (k in u.runs <==> k in JudgedRuns(l) && (CopiedRun(l, k) || Grouped(l, u.lenses.Keys, k)))
            && (k in u.runs ==>
                  u.runs[k] == if CopiedRun(l, k) then HeaderOf(l.runs[k]) else RebuiltHeader(l, u.lenses.Keys, k))
  {
    hide HeaderOf, RebuiltHeader, Groups, Grouped, JudgedRuns, RootLens, RootScope, LegacyAgent;
    var t1 := WithLegacyLenses(l, Seeded(t, now));
    LensRows(l, Seeded(t, now));
    var t2 := WithLegacyRuns(l, t1);
    CopiedRuns(l, t1);
    hide WithLegacyLenses, WithLegacyRuns, WithRebuiltRuns, Seeded;
    LayeredRuns(l, t1, t2, k);
  }

  /** The run's own row survives: it is there and its lens was copied. */
  predicate CopiedRun(l: LegacyTables, run: string) {
    run in l.runs && l.runs[run].lensID in l.lenses
  }

  // ----------------------------------------------------------- rebuilt ranks

  lemma RowNumbersDiffer(records: set<string>, a: string, b: string)
    requires a in records && b in records && a != b
    ensures RowNumber(records, a) != RowNumber(records, b)
  {
    BeforeTotal(a, b);
    var lo, hi := if Before(a, b) then a else b, if Before(a, b) then b else a;
    var below, above := set r | r in records && Before(r, lo), set r | r in records && Before(r, hi);
    BeforeIrreflexive(lo);
    forall r | r in below ensures r in above {
      BeforeTransitive(r, lo, hi);
    }
    assert lo in above && lo !in below;
    SubsetCount(below, above);
  }

  ghost function Filled(shown: map<string, Candidate>, missing: set<string>): map<string, Candidate> {
    shown + Rebuilt(missing, TopRank(shown))
  }

  lemma TopRankBounds(shown: map<string, Candidate>)
    ensures forall c :: c in shown ==> shown[c].rank <= TopRank(shown)
    ensures (forall c :: c in shown ==> shown[c].rank >= 1) ==> TopRank(shown) >= 0
  {
    var ranks := set k | k in shown :: shown[k].rank;
    GreatestBounds(ranks);
    forall c | c in shown ensures shown[c].rank in ranks {}
  }

  lemma FilledRows(shown: map<string, Candidate>, missing: set<string>)
    requires shown.Keys !! missing
    ensures Filled(shown, missing).Keys == shown.Keys + missing
    ensures |Filled(shown, missing)| == |shown| + |missing|
    ensures forall c :: c in shown ==> Filled(shown, missing)[c] == shown[c]
    ensures forall c :: c in missing ==>
              Filled(shown, missing)[c] == Candidate(c, TopRank(shown) + RowNumber(missing, c), Finite(0.0), map[])
  {
    hide RowNumber, TopRank;
    assert Filled(shown, missing).Keys == shown.Keys + missing;
    assert |shown.Keys + missing| == |shown.Keys| + |missing|;
  }

  /** Rebuilt candidates take the ranks after the greatest copied one, in record
      order, so ranks stay distinct and positive exactly when the copied ones are. */
  lemma FilledKeyed(shown: map<string, Candidate>, missing: set<string>)
    requires shown.Keys !! missing && forall k :: k in shown ==> shown[k].recordID == k
    ensures KeyedCandidates(Filled(shown, missing)) <==> DistinctRanks(shown)
    ensures (forall c :: c in Filled(shown, missing) ==> Filled(shown, missing)[c].rank >= 1) <==>
            (forall c :: c in shown ==> shown[c].rank >= 1)
  {
    FilledRows(shown, missing);
    TopRankBounds(shown);
    hide Filled, TopRank, Before;
    var all := Filled(shown, missing);
    forall c, d | c in missing && d in missing && c != d ensures all[c].rank != all[d].rank {
      RowNumbersDiffer(missing, c, d);
    }
    hide RowNumber;
    StackedKeyed(all, shown, missing, TopRank(shown));
  }

  /** Two layers of ranks, the upper one distinct and above all of the lower. */
  lemma StackedKeyed(all: map<string, Candidate>, shown: map<string, Candidate>, missing: set<string>, top: int)
    requires all.Keys == shown.Keys + missing && shown.Keys !! missing
    requires forall c :: c in shown ==> all[c] == shown[c] && shown[c].recordID == c && shown[c].rank <= top
    requires forall c :: c in missing ==> all[c].recordID == c && all[c].rank > top
    requires forall c, d :: c in missing && d in missing && c != d ==> all[c].rank != all[d].rank
    requires (forall c :: c in shown ==> shown[c].rank >= 1) ==> top >= 0
    ensures KeyedCandidates(all) <==> DistinctRanks(shown)
    ensures (forall c :: c in all ==> all[c].rank >= 1) <==> (forall c :: c in shown ==> shown[c].rank >= 1)
  {
    if DistinctRanks(shown) {
      forall c, d | c in all && d in all && c != d ensures all[c].rank != all[d].rank {}
    }
    if KeyedCandidates(all) {
      forall c, d | c in shown && d in shown && c != d ensures shown[c].rank != shown[d].rank {
        assert all[c] == shown[c] && all[d] == shown[d];
      }
    }
  }

  ghost function FilledOut(l: LegacyTables, run: string): map<string, Candidate> {
    Filled(LegacyCandidates(l, run), Unshown(l, run))
  }

  lemma LayeredCandidates(l: LegacyTables, t: Tables, k: string)
    requires k in t.candidates && t.candidates[k] == map[]
    ensures k in WithLegacyCandidates(l, t).candidates
    ensures WithLegacyCandidates(l, t).candidates[k] == LegacyCandidates(l, k)
    ensures Missing(l, WithLegacyCandidates(l, t), k) == Unshown(l, k)
    ensures WithRebuiltCandidates(l, WithLegacyCandidates(l, t)).candidates[k] == FilledOut(l, k)
  {
    hide Rebuilt, TopRank, Missing, Unshown, LegacyCandidates;
    var t4 := WithLegacyCandidates(l, t);
    CopiedAlone(l, t, k);
    MissingIsUnshown(l, t4, k);
    hide CopiedCandidates;
  }

  lemma CopiedAlone(l: LegacyTables, t: Tables, k: string)
    requires k in t.candidates && t.candidates[k] == map[]
    ensures CopiedCandidates(l, t, k) == LegacyCandidates(l, k)
  {
  }

  lemma MissingIsUnshown(l: LegacyTables, t: Tables, k: string)
    requires k in t.candidates && t.candidates[k] == LegacyCandidates(l, k)
    ensures Missing(l, t, k) == Unshown(l, k)
  {
    hide LegacyCandidates;
  }

  lemma ProjectedRows(l: LegacyTables, t: Tables, now: string, k: string)
    requires Unprojected(t)
    ensures var u, traced := Projected(l, t, now), Traced(l, t, now);
            && u == traced.(candidates := u.candidates, judgments := u.judgments)
            && u.candidates.Keys == traced.candidates.Keys
            && (k in u.candidates ==> u.candidates[k] == FilledOut(l, k))
            && u.judgments == (map k | k in l.verdicts :: Scoped(l, l.verdicts[k]))
  {
    hide Unprojected, Seeded, WithLegacyLenses, WithLegacyRuns, WithRebuiltRuns, HeaderOf, RebuiltHeader, Grouped;
    hide Rebuilt, TopRank, Missing, CopiedCandidates, Scoped, FilledOut, CopiedRun, JudgedRuns;
    TracedRuns(l, t, now, k);
    hide Traced;
    var t3 := Traced(l, t, now);
    if k in t3.candidates {
      LayeredCandidates(l, t3, k);
    }
    var t4 := WithLegacyCandidates(l, t3);
    var t5 := WithRebuiltCandidates(l, t4);
    assert t5.candidates.Keys == t4.candidates.Keys == t3.candidates.Keys;
    assert (map k | k in l.verdicts :: Scoped(l, l.verdicts[k])) + map[] ==
           (map k | k in l.verdicts :: Scoped(l, l.verdicts[k]));
  }

  // --------------------------------------------------------- rows within bounds

  lemma SecretMembers(env: Env, texts: seq<string>)
    ensures AnySecret(env, texts) <==> exists x :: x in texts && env.secretLike(x)
  {
  }

  lemma RootLensOK(env: Env, t: Tables, l: LegacyLens)
    requires LegacyLensOK(env, l) && !env.secretLike(ROOT) && t.lenses == map[]
    ensures LensOK(env, RootLens(t, l))
  {
    var r := RootLens(t, l);
    SecretMembers(env, [l.id, l.name, l.query, l.createdAt, l.updatedAt]);
    SecretMembers(env, [r.scopeID, r.id, r.name, r.query, r.createdAt, r.updatedAt]);
    hide Bounded, AnySecret;
  }

  /** The earliest time of a group is the time of one of its judgments. */
  lemma EarliestOfGroup(l: LegacyTables, run: string, lens: string)
    requires exists k :: k in l.verdicts && l.verdicts[k].runID == run && l.verdicts[k].lensID == lens
    ensures exists k :: k in l.verdicts && l.verdicts[k].runID == run && l.verdicts[k].lensID == lens &&
              l.verdicts[k].createdAt == Earliest(l, run, lens)
  {
    var times := set k | k in l.verdicts && l.verdicts[k].runID == run && l.verdicts[k].lensID == lens
      :: l.verdicts[k].createdAt;
    LegacyOrders(l);
    TextsInOrder(times);
    ListingAscending(Before, times);
    var k :| k in l.verdicts && l.verdicts[k].runID == run && l.verdicts[k].lensID == lens;
    assert l.verdicts[k].createdAt in times;
    RowsEmpty(Listing(Before, times));
    assert Listing(Before, times)[0] in Rows(Listing(Before, times));
  }

  lemma VerdictTexts(env: Env, v: Verdict)
    requires VerdictTextOK(env, v)
    ensures Bounded(v.judgmentID, 256) && Bounded(v.runID, 256) && Bounded(v.recordID, 1024) &&
            Bounded(v.createdAt, 256)
    ensures !env.secretLike(v.runID) && !env.secretLike(v.lensID) && !env.secretLike(v.recordID)
    ensures !env.secretLike(v.createdAt)
  {
    SecretMembers(env, [v.judgmentID, v.key, v.runID, v.lensID, v.recordID, v.reason, v.reversesID, v.createdAt]);
  }

  ghost predicate PlainConstants(env: Env) {
    !AnySecret(env, [ROOT, LEGACY_AGENT, "", "Recovered legacy feedback", "legacy-recovery"])
  }

  lemma PlainMembers(env: Env)
    requires PlainConstants(env)
    ensures !env.secretLike(ROOT) && !env.secretLike(LEGACY_AGENT) && !env.secretLike("")
    ensures !env.secretLike("Recovered legacy feedback") && !env.secretLike("legacy-recovery")
  {
    var texts := [ROOT, LEGACY_AGENT, "", "Recovered legacy feedback", "legacy-recovery"];
    SecretMembers(env, texts);
    hide AnySecret;
    assert ROOT in texts && LEGACY_AGENT in texts && "" in texts;
    assert "Recovered legacy feedback" in texts && "legacy-recovery" in texts;
  }

  lemma RebuiltTextOK(env: Env, run: string, lens: string, createdAt: string)
    requires Bounded(run, 256) && Bounded(createdAt, 256) && PlainConstants(env)
    requires !env.secretLike(run) && !env.secretLike(lens) && !env.secretLike(createdAt)
    ensures HeaderOK(env, RunHeader(run, "Recovered legacy feedback", ROOT, lens, LEGACY_AGENT, "legacy-recovery",
                                    "legacy-recovery", createdAt))
  {
    PlainMembers(env);
    PlainWords();
    hide *;
    PlainHeader(env, RunHeader(run, "Recovered legacy feedback", ROOT, lens, LEGACY_AGENT, "legacy-recovery",
                               "legacy-recovery", createdAt));
  }

  lemma PlainHeader(env: Env, h: RunHeader)
    requires Bounded(h.runID, 256) && Bounded(h.query, TEXT_LIMIT) && Bounded(h.retrievalMethod, 1024)
    requires Bounded(h.library, 256) && Bounded(h.createdAt, 256)
    requires !env.secretLike(h.runID) && !env.secretLike(h.query) && !env.secretLike(h.scopeID) &&
             !env.secretLike(h.lensID)
    requires !env.secretLike(h.agentID) && !env.secretLike(h.retrievalMethod) && !env.secretLike(h.library)
    requires !env.secretLike(h.createdAt)
    ensures HeaderOK(env, h)
  {
    hide Bounded;
    NoneSecret(env, [h.runID, h.query, h.scopeID, h.lensID, h.agentID, h.retrievalMethod, h.library, h.createdAt]);
    hide AnySecret;
  }

  lemma PlainWords()
    ensures Bounded("Recovered legacy feedback", TEXT_LIMIT)
    ensures Bounded("legacy-recovery", 1024) && Bounded("legacy-recovery", 256)
  {
    TightIsBounded("Recovered legacy feedback", TEXT_LIMIT);
    TightIsBounded("legacy-recovery", 1024);
    TightIsBounded("legacy-recovery", 256);
  }

  lemma NoneSecret(env: Env, texts: seq<string>)
    requires |texts| == 8 && !env.secretLike(texts[0]) && !env.secretLike(texts[1]) && !env.secretLike(texts[2])
    requires !env.secretLike(texts[3]) && !env.secretLike(texts[4]) && !env.secretLike(texts[5])
    requires !env.secretLike(texts[6]) && !env.secretLike(texts[7])
    ensures !AnySecret(env, texts)
  {
  }

  lemma RebuiltHeaderOK(env: Env, l: LegacyTables, lenses: set<(string, string)>, run: string)
    requires Grouped(l, lenses, run) && PlainConstants(env)
    requires forall k :: k in l.verdicts ==> VerdictTextOK(env, l.verdicts[k])
    ensures var h := RebuiltHeader(l, lenses, run);
            HeaderOK(env, h) && h.scopeID == ROOT && h.agentID == LEGACY_AGENT && h.runID == run &&
            Groups(l, lenses, run, h.lensID)
  {
    hide VerdictTextOK, PlainConstants, Bounded, HeaderOK, Earliest;
    var h := RebuiltHeader(l, lenses, run);
    assert Groups(l, lenses, run, h.lensID);
    var k :| k in l.verdicts && l.verdicts[k].runID == run && l.verdicts[k].lensID == h.lensID;
    EarliestOfGroup(l, run, h.lensID);
    var m :| m in l.verdicts && l.verdicts[m].createdAt == Earliest(l, run, h.lensID);
    VerdictTexts(env, l.verdicts[k]);
    VerdictTexts(env, l.verdicts[m]);
    RebuiltTextOK(env, run, h.lensID, h.createdAt);
  }

  lemma RebuiltCandidateOK(env: Env, c: Candidate)
    requires Bounded(c.recordID, 1024) && !env.secretLike(c.recordID)
    requires c.rank >= 1 && c.finalScore == Finite(0.0) && c.components == map[]
    ensures CandidateOK(env, c)
  {
    SecretMembers(env, [c.recordID]);
  }

  lemma RankedOK(env: Env, c: Candidate)
    requires CandidateOK(env, c.(rank := 1)) && c.rank >= 1
    ensures CandidateOK(env, c)
  {
  }

  lemma FilledOutOK(env: Env, l: LegacyTables, run: string, c: string)
    requires LegacyKeyed(l) && c in FilledOut(l, run) && FilledOut(l, run)[c].rank >= 1
    requires forall k :: k in l.verdicts ==> VerdictTextOK(env, l.verdicts[k])
    requires forall k, c :: k in l.candidates && c in l.candidates[k] ==>
               CandidateOK(env, l.candidates[k][c].(rank := 1))
    ensures CandidateOK(env, FilledOut(l, run)[c])
  {
    hide VerdictTextOK, RowNumber, TopRank, Filled, Bounded, AnySecret, CandidateOK;
    FilledRows(LegacyCandidates(l, run), Unshown(l, run));
    if c in LegacyCandidates(l, run) {
      RankedOK(env, l.candidates[run][c]);
    } else {
      var k :| k in l.verdicts && l.verdicts[k].recordID == c;
      VerdictTexts(env, l.verdicts[k]);
      RebuiltCandidateOK(env, FilledOut(l, run)[c]);
    }
  }

  lemma ScopedTexts(env: Env, v: Verdict, agentID: string, actor: Actor)
    requires VerdictTextOK(env, v) && PlainConstants(env) && (agentID == "" || agentID == LEGACY_AGENT)
    requires v.reversesID == "" ==> EffectOf(actor, v.disposition) == Some(v.effect)
    ensures JudgmentTextOK(env, Judgment(v.judgmentID, v.key, v.runID, ROOT, v.lensID, agentID, v.recordID, actor,
                                         v.disposition, v.reason, v.reversesID, v.effect, v.createdAt))
  {
    SecretMembers(env, [v.judgmentID, v.key, v.runID, v.lensID, v.recordID, v.reason, v.reversesID, v.createdAt]);
    SecretMembers(env, [ROOT, LEGACY_AGENT, "", "Recovered legacy feedback", "legacy-recovery"]);
    SecretMembers(env, [v.judgmentID, v.key, v.runID, ROOT, v.lensID, agentID, v.recordID, v.reason,
                        v.reversesID, v.createdAt]);
    hide Bounded, OptionalBounded, AnySecret;
  }

  lemma ScopedTextOK(env: Env, id: string -> string, l: LegacyTables, k: string)
    requires k in l.verdicts && (forall k :: k in l.verdicts ==> VerdictTextOK(env, l.verdicts[k]))
    requires LegacyKeyed(l) && VerdictFine(env, id, l.verdicts[k]) && PlainConstants(env)
    ensures JudgmentTextOK(env, Scoped(l, l.verdicts[k]))
    ensures "" !in l.verdicts
  {
    hide VerdictTextOK, PlainConstants, JudgmentTextOK;
    forall m | m in l.verdicts ensures m != "" {
      VerdictTexts(env, l.verdicts[m]);
    }
    var j := Scoped(l, l.verdicts[k]);
    ScopedTexts(env, l.verdicts[k], j.agentID, j.actor);
  }

  // ---------------------------------------------------------------- theorems

  /** Every table of a projection, read off the legacy rows. */
  ghost predicate Shaped(l: LegacyTables, seeded: Tables, u: Tables) {
    && u.scopes == seeded.scopes && u.actors == seeded.actors
    && (forall k :: k in l.lenses <==> (ROOT, k) in u.lenses)
    && (forall k :: k in u.lenses ==> k.0 == ROOT && k.1 in l.lenses && u.lenses[k] == RootLens(seeded, l.lenses[k.1]))
    && u.candidates.Keys == u.runs.Keys
    && (forall k :: k in u.runs <==> k in JudgedRuns(l) && (CopiedRun(l, k) || Grouped(l, u.lenses.Keys, k)))
    && (forall k :: k in u.runs ==>
          && u.runs[k] == (if CopiedRun(l, k) then HeaderOf(l.runs[k]) else RebuiltHeader(l, u.lenses.Keys, k))
          && u.candidates[k] == FilledOut(l, k))
    && (forall k :: k in u.judgments <==> k in l.verdicts)
    && (forall k :: k in u.judgments ==> u.judgments[k] == Scoped(l, l.verdicts[k]))
  }

  lemma RunShape(l: LegacyTables, t: Tables, now: string, k: string)
    requires Unprojected(t)
    ensures var u := Projected(l, t, now);
            && (k in u.runs <==> k in JudgedRuns(l) && (CopiedRun(l, k) || Grouped(l, u.lenses.Keys, k)))
            && u.candidates.Keys == u.runs.Keys
            && (k in u.runs ==>
                  && u.runs[k] == (if CopiedRun(l, k) then HeaderOf(l.runs[k]) else RebuiltHeader(l, u.lenses.Keys, k))
                  && u.candidates[k] == FilledOut(l, k))
  {
    hide HeaderOf, RebuiltHeader, Groups, Grouped, FilledOut, Scoped, JudgedRuns, CopiedRun, Unprojected, Seeded;
    hide WithLegacyLenses, Projected, Traced;
    TracedRuns(l, t, now, k);
    ProjectedRows(l, t, now, k);
  }

  lemma FixedShape(l: LegacyTables, t: Tables, now: string)
    requires Unprojected(t)
    ensures var u := Projected(l, t, now);
            && u.scopes == Seeded(t, now).scopes && u.actors == Seeded(t, now).actors
            && (forall k :: k in l.lenses <==> (ROOT, k) in u.lenses)
            && (forall k :: k in u.lenses ==>
                k.0 == ROOT && k.1 in l.lenses && u.lenses[k] == RootLens(Seeded(t, now), l.lenses[k.1]))
            && (forall k :: k in u.judgments <==> k in l.verdicts)
            && (forall k :: k in u.judgments ==> u.judgments[k] == Scoped(l, l.verdicts[k]))
  {
    hide HeaderOf, RebuiltHeader, Groups, Grouped, FilledOut, Scoped, JudgedRuns, CopiedRun, RootLens;
    CopiedLenses(l, Seeded(t, now), t);
    hide WithLegacyLenses, Projected, Traced, Unprojected, Seeded;
    TracedRuns(l, t, now, "");
    ProjectedRows(l, t, now, "");
  }

  lemma ProjectedShape(l: LegacyTables, t: Tables, now: string)
    requires Unprojected(t)
    ensures Shaped(l, Seeded(t, now), Projected(l, t, now))
  {
    hide HeaderOf, RebuiltHeader, Groups, Grouped, FilledOut, Scoped, JudgedRuns, CopiedRun, RootLens;
    hide Unprojected, Seeded, Projected;
    FixedShape(l, t, now);
    forall k { RunShape(l, t, now, k); }
  }

  lemma CopiedLenses(l: LegacyTables, seeded: Tables, t: Tables)
    requires Unprojected(t) && seeded.lenses == t.lenses
    ensures var u := WithLegacyLenses(l, seeded);
            && (forall k :: k in l.lenses <==> (ROOT, k) in u.lenses)
            && (forall k :: k in u.lenses ==>
                k.0 == ROOT && k.1 in l.lenses && u.lenses[k] == RootLens(seeded, l.lenses[k.1]))
  {
    hide RootLens;
  }

  /** What the database the projection runs against already holds. */
  ghost predicate Reserved(env: Env, seeded: Tables) {
    && ReservedRows(seeded) && ScopeOK(env, seeded.scopes[ROOT]) && ActorOK(env, seeded.actors[LEGACY_AGENT])
  }

  ghost predicate ReservedRows(seeded: Tables) {
    && seeded.scopes.Keys == {ROOT} && seeded.scopes[ROOT].id == ROOT
    && seeded.actors.Keys == {LEGACY_AGENT} && seeded.actors[LEGACY_AGENT].id == LEGACY_AGENT
    && seeded.lenses == map[]
  }

  /** The legacy rows themselves are in order: keys, texts, and reversal pairs. */
  ghost predicate Sound(env: Env, id: string -> string, l: LegacyTables) {
    && LegacyKeyed(l) && PlainConstants(env)
    && (forall k :: k in l.lenses ==> LegacyLensOK(env, l.lenses[k]))
    && (forall k :: k in l.runs ==> HeaderOK(env, HeaderOf(l.runs[k])))
    && (forall k :: k in l.verdicts ==> VerdictTextOK(env, l.verdicts[k]) && VerdictFine(env, id, l.verdicts[k]))
    && (forall k, c :: k in l.candidates && c in l.candidates[k] ==> CandidateOK(env, l.candidates[k][c].(rank := 1)))
    && VerdictsPaired(env, l.verdicts)
  }

  /** UNIQUE(run_id, rank) lets the candidate copy through. */
  ghost predicate CopyFits(l: LegacyTables, u: Tables) {
    forall k :: k in u.runs ==> DistinctRanks(LegacyCandidates(l, k))
  }

  lemma ShapedUnique(l: LegacyTables, seeded: Tables, u: Tables)
    requires ReservedRows(seeded) && Shaped(l, seeded, u) && LegacyKeyed(l)
    ensures CopyFits(l, u) ==> Unique(u)
  {
    hide DistinctRanks, FilledOut, Grouped, JudgedRuns;
    forall k | k in u.runs
      ensures u.runs[k].runID == k && (DistinctRanks(LegacyCandidates(l, k)) ==> KeyedCandidates(u.candidates[k]))
    {
      FilledOutKeyed(l, k);
    }
    hide RebuiltHeader, LegacyCandidates, KeyedCandidates;
  }

  lemma ShapedLinked(l: LegacyTables, seeded: Tables, u: Tables)
    requires ReservedRows(seeded) && Shaped(l, seeded, u)
    ensures Linked(u)
  {
    hide FilledOut, JudgedRuns, Scoped, RootLens;
    forall k | k in u.runs ensures (u.runs[k].scopeID, u.runs[k].lensID) in u.lenses &&
      u.runs[k].agentID == LEGACY_AGENT
    {
      RebuiltParents(l, u.lenses.Keys, k);
    }
  }

  lemma RebuiltParents(l: LegacyTables, lenses: set<(string, string)>, run: string)
    ensures Grouped(l, lenses, run) ==>
              (RebuiltHeader(l, lenses, run).scopeID, RebuiltHeader(l, lenses, run).lensID) in lenses &&
              RebuiltHeader(l, lenses, run).agentID == LEGACY_AGENT
  {
  }

  lemma ShapedKeyed(l: LegacyTables, seeded: Tables, u: Tables)
    requires ReservedRows(seeded) && Shaped(l, seeded, u) && LegacyKeyed(l)
    ensures CopyFits(l, u) ==> Keyed(u)
  {
    hide Shaped, ReservedRows, LegacyKeyed, CopyFits, Unique, Linked;
    ShapedUnique(l, seeded, u);
    ShapedLinked(l, seeded, u);
  }

  lemma FilledOutKeyed(l: LegacyTables, k: string)
    requires LegacyKeyed(l)
    ensures KeyedCandidates(FilledOut(l, k)) <==> DistinctRanks(LegacyCandidates(l, k))
    ensures (forall c :: c in FilledOut(l, k) ==> FilledOut(l, k)[c].rank >= 1) <==>
            (forall c :: c in LegacyCandidates(l, k) ==> LegacyCandidates(l, k)[c].rank >= 1)
    ensures |FilledOut(l, k)| == |LegacyCandidates(l, k)| + |Unshown(l, k)|
    ensures FilledOut(l, k).Keys == LegacyCandidates(l, k).Keys + Unshown(l, k)
  {
    hide Filled, DistinctRanks;
    FilledKeyed(LegacyCandidates(l, k), Unshown(l, k));
    FilledRows(LegacyCandidates(l, k), Unshown(l, k));
  }

  /** A projected run's header is in bounds and names a copied lens. */
  lemma HeaderPlaced(env: Env, id: string -> string, l: LegacyTables, seeded: Tables, u: Tables, k: string)
    requires Sound(env, id, l) && Shaped(l, seeded, u) && k in u.runs
    ensures HeaderOK(env, u.runs[k]) && u.runs[k].runID == k
    ensures u.runs[k].scopeID == ROOT && u.runs[k].agentID == LEGACY_AGENT && (ROOT, u.runs[k].lensID) in u.lenses
    ensures if CopiedRun(l, k) then u.runs[k].lensID == l.runs[k].lensID
            else exists m :: m in l.verdicts && l.verdicts[m].runID == k && l.verdicts[m].lensID == u.runs[k].lensID
  {
    hide HeaderOK, LegacyLensOK, VerdictTextOK, VerdictFine, CandidateOK, PlainConstants, FilledOut, VerdictsPaired;
    if !CopiedRun(l, k) {
      hide RebuiltHeader;
      RebuiltHeaderOK(env, l, u.lenses.Keys, k);
    }
  }

  lemma EntitiesProjected(env: Env, id: string -> string, l: LegacyTables, seeded: Tables, u: Tables)
    requires Sound(env, id, l) && Reserved(env, seeded) && Shaped(l, seeded, u)
    ensures EntitiesValid(env, u)
  {
    hide HeaderOK, VerdictTextOK, VerdictFine, CandidateOK, VerdictsPaired, ScopeOK, ActorOK, LensOK, LegacyLensOK;
    hide RebuiltHeader, FilledOut, Grouped, JudgedRuns, RootLens, LensKeysApart;
    forall k | k in u.lenses ensures LensOK(env, u.lenses[k]) {
      SecretMembers(env, [ROOT, LEGACY_AGENT, "", "Recovered legacy feedback", "legacy-recovery"]);
      RootLensOK(env, seeded, l.lenses[k.1]);
    }
    RootKeysApart(u.lenses);
  }

  /** All copied lenses share the root scope, so their joined keys differ. */
  lemma RootKeysApart(lenses: map<(string, string), Lens>)
    requires forall k :: k in lenses ==> k.0 == ROOT
    ensures LensKeysApart(lenses)
  {
    hide Joined;
    forall k, l | k in lenses && l in lenses && k != l ensures Joined(k.0, k.1) != Joined(l.0, l.1) {
      JoinedParts(k.0, k.1, l.0, l.1);
    }
  }

  ghost predicate FitsRun(l: LegacyTables, run: string) {
    && DistinctRanks(LegacyCandidates(l, run))
    && (forall c :: c in LegacyCandidates(l, run) ==> LegacyCandidates(l, run)[c].rank >= 1)
    && |LegacyCandidates(l, run)| + |Unshown(l, run)| <= 100
  }

  lemma FilledOutIff(env: Env, id: string -> string, l: LegacyTables, k: string, c: string)
    requires Sound(env, id, l) && c in FilledOut(l, k)
    ensures CandidateOK(env, FilledOut(l, k)[c]) <==> FilledOut(l, k)[c].rank >= 1
  {
    hide HeaderOK, LegacyLensOK, VerdictFine, PlainConstants, FilledOut, VerdictsPaired, VerdictTextOK, Bounded,
         AnySecret;
    if FilledOut(l, k)[c].rank >= 1 {
      hide CandidateOK;
      FilledOutOK(env, l, k, c);
    }
  }

  lemma FitsIff(env: Env, l: LegacyTables, u: Tables, k: string)
    requires LegacyKeyed(l) && k in u.runs && k in u.candidates && u.candidates[k] == FilledOut(l, k)
    requires HeaderOK(env, u.runs[k]) && (u.runs[k].scopeID, u.runs[k].lensID) in u.lenses &&
             u.runs[k].agentID in u.actors
    requires forall c :: c in u.candidates[k] ==>
               (CandidateOK(env, u.candidates[k][c]) <==> u.candidates[k][c].rank >= 1)
    ensures FitsRun(l, k) <==> DistinctRanks(LegacyCandidates(l, k)) && RunPlaced(env, u, k)
  {
    hide HeaderOK, CandidateOK, FilledOut, DistinctRanks, LegacyCandidates, Unshown;
    FilledOutKeyed(l, k);
  }

  lemma RunProjected(env: Env, id: string -> string, l: LegacyTables, seeded: Tables, u: Tables, k: string)
    requires Sound(env, id, l) && Reserved(env, seeded) && Shaped(l, seeded, u) && k in u.runs
    ensures FitsRun(l, k) <==> DistinctRanks(LegacyCandidates(l, k)) && RunPlaced(env, u, k)
  {
    hide HeaderOK, CandidateOK, FilledOut, DistinctRanks, LegacyCandidates, Unshown, ScopeOK, ActorOK, VerdictTextOK;
    hide RebuiltHeader, Grouped, JudgedRuns, CopiedRun, FitsRun, RunPlaced, HeaderOf, LegacyLensOK, VerdictFine,
         VerdictsPaired;
    HeaderPlaced(env, id, l, seeded, u, k);
    forall c | c in u.candidates[k] ensures CandidateOK(env, u.candidates[k][c]) <==> u.candidates[k][c].rank >= 1 {
      FilledOutIff(env, id, l, k, c);
    }
    FitsIff(env, l, u, k);
  }

  lemma VerdictPlaced(env: Env, id: string -> string, l: LegacyTables, seeded: Tables, u: Tables, k: string)
    requires Sound(env, id, l) && Reserved(env, seeded) && Shaped(l, seeded, u) && k in l.verdicts
    ensures var v := l.verdicts[k];
            JudgmentPlaced(u, u.judgments[k]) <==> v.runID in u.runs && u.runs[v.runID].lensID == v.lensID
    ensures JudgmentTextOK(env, u.judgments[k])
  {
    hide HeaderOK, CandidateOK, VerdictTextOK, VerdictFine, LegacyLensOK, PlainConstants, ScopeOK, ActorOK;
    hide RebuiltHeader, Grouped, CopiedRun, FilledOut, DistinctRanks, JudgmentTextOK, CandidatePlaced, VerdictsPaired,
         JudgedRuns, RootLens, LegacyCandidates;
    var v := l.verdicts[k];
    ScopedTextOK(env, id, l, k);
    if v.runID in u.runs {
      HeaderPlaced(env, id, l, seeded, u, v.runID);
      JudgedRecordShown(l, k);
      PlacedRecord(u, v.runID, v.recordID);
    }
  }

  lemma JudgedRecordShown(l: LegacyTables, k: string)
    requires LegacyKeyed(l) && k in l.verdicts
    ensures l.verdicts[k].recordID in FilledOut(l, l.verdicts[k].runID)
  {
    var v := l.verdicts[k];
    FilledOutKeyed(l, v.runID);
    hide FilledOut, LegacyCandidates;
    if v.recordID !in LegacyCandidates(l, v.runID) {
      assert v.recordID in Unshown(l, v.runID);
    }
  }

  lemma PlacedRecord(t: Tables, run: string, record: string)
    requires run in t.candidates && record in t.candidates[run]
    ensures CandidatePlaced(t, Joined(run, record))
  {
    hide Joined;
  }

  lemma ScopedUndoes(env: Env, l: LegacyTables, k: string)
    requires k in l.verdicts && l.verdicts[k].reversesID in l.verdicts && "" !in l.verdicts
    requires l.verdicts[k].reversesID != ""
    requires var o := l.verdicts[l.verdicts[k].reversesID];
             o.reversesID == "" && o.judgmentID == l.verdicts[k].reversesID && ReversalOK(env, l.verdicts[k], o)
    ensures Undoes(Scoped(l, l.verdicts[k]), Scoped(l, l.verdicts[l.verdicts[k].reversesID]))
  {
    hide VerdictTextOK;
  }

  lemma PairsProjected(env: Env, id: string -> string, l: LegacyTables, seeded: Tables, u: Tables)
    requires Sound(env, id, l) && Shaped(l, seeded, u)
    ensures PairsPlaced(u.judgments)
  {
    hide HeaderOK, CandidateOK, VerdictFine, LegacyLensOK, PlainConstants, RebuiltHeader, Grouped, FilledOut,
         VerdictTextOK;
    hide JudgedRuns, CopiedRun, RootLens, ReversalOK, Undoes;
    forall m | m in l.verdicts ensures m != "" {
      VerdictTexts(env, l.verdicts[m]);
    }
    forall k | k in u.judgments && u.judgments[k].reversesID != ""
      ensures u.judgments[k].reversesID in u.judgments && Undoes(u.judgments[k], u.judgments[u.judgments[k].reversesID])
    {
      assert u.judgments[k].reversesID == l.verdicts[k].reversesID;
      ScopedUndoes(env, l, k);
    }
    forall k, m | k in u.judgments && m in u.judgments && k != m
      ensures u.judgments[k].key != u.judgments[m].key
      ensures u.judgments[k].reversesID != "" ==> u.judgments[k].reversesID != u.judgments[m].reversesID
    {
      assert l.verdicts[k].key != l.verdicts[m].key;
    }
  }

  /** A projection is accepted exactly when every judgment's lens was kept, each
      judged run has one lens, and each judged run's candidates can be ranked. */
  lemma ProjectionAccepted(env: Env, id: string -> string, l: LegacyTables, t: Tables, now: string)
    requires Sound(env, id, l) && Unprojected(t) && Reserved(env, Seeded(t, now))
    ensures var u := Projected(l, t, now);
            CopyFits(l, u) && Valid(env, Build(u)) <==> LensesExist(l) && OneLens(l) && RanksFit(l)
  {
    ProjectedShape(l, t, now);
    AcceptedIff(env, id, l, Seeded(t, now), Projected(l, t, now));
  }

  lemma AcceptedIff(env: Env, id: string -> string, l: LegacyTables, seeded: Tables, u: Tables)
    requires Sound(env, id, l) && Reserved(env, seeded) && Shaped(l, seeded, u)
    ensures CopyFits(l, u) && Valid(env, Build(u)) <==> LensesExist(l) && OneLens(l) && RanksFit(l)
  {
    hide Sound, Reserved, Shaped, Valid, Build, EntitiesValid, Keyed, PairsPlaced;
    ShapedKeyedSound(env, id, l, seeded, u);
    EntitiesProjected(env, id, l, seeded, u);
    PairsProjected(env, id, l, seeded, u);
    if LensesExist(l) && OneLens(l) && RanksFit(l) {
      AcceptedForward(env, id, l, seeded, u);
      ValidIff(env, u);
    }
    if CopyFits(l, u) && Valid(env, Build(u)) {
      ValidIff(env, u);
      AcceptedBackward(env, id, l, seeded, u);
    }
  }

  lemma ShapedKeyedSound(env: Env, id: string -> string, l: LegacyTables, seeded: Tables, u: Tables)
    requires Sound(env, id, l) && Reserved(env, seeded) && Shaped(l, seeded, u)
    ensures CopyFits(l, u) ==> Keyed(u)
  {
    hide Shaped, Keyed, CopyFits, LegacyKeyed, ReservedRows, ScopeOK, ActorOK;
    ShapedKeyed(l, seeded, u);
  }

  /** Each judged run is there, under the lens its judgments share. */
  lemma JudgedRunThere(env: Env, id: string -> string, l: LegacyTables, seeded: Tables, u: Tables, k: string)
    requires Sound(env, id, l) && Reserved(env, seeded) && Shaped(l, seeded, u)
    requires LensesExist(l) && k in l.verdicts
    ensures l.verdicts[k].runID in u.runs
    ensures OneLens(l) ==> u.runs[l.verdicts[k].runID].lensID == l.verdicts[k].lensID
  {
    hide Sound, Reserved, HeaderOK, HeaderOf, RebuiltHeader, FilledOut, Scoped, RootLens;
    var v := l.verdicts[k];
    assert (ROOT, v.lensID) in u.lenses;
    assert Groups(l, u.lenses.Keys, v.runID, v.lensID);
    assert v.runID in JudgedRuns(l);
    HeaderPlaced(env, id, l, seeded, u, v.runID);
  }

  lemma ShapedDomains(l: LegacyTables, seeded: Tables, u: Tables)
    requires Shaped(l, seeded, u)
    ensures u.candidates.Keys == u.runs.Keys && u.judgments.Keys == l.verdicts.Keys && u.runs.Keys <= JudgedRuns(l)
    ensures forall k :: k in l.lenses <==> (ROOT, k) in u.lenses
  {
    hide Grouped, CopiedRun, HeaderOf, RebuiltHeader, FilledOut, Scoped, JudgedRuns;
  }

  lemma ForwardRun(env: Env, id: string -> string, l: LegacyTables, seeded: Tables, u: Tables, k: string)
    requires Sound(env, id, l) && Reserved(env, seeded) && Shaped(l, seeded, u) && k in u.runs && FitsRun(l, k)
    ensures DistinctRanks(LegacyCandidates(l, k)) && RunPlaced(env, u, k)
  {
    hide *;
    RunProjected(env, id, l, seeded, u, k);
  }

  lemma RanksFitAt(l: LegacyTables, run: string)
    requires RanksFit(l) && run in JudgedRuns(l)
    ensures FitsRun(l, run)
  {
    hide FitsRun, JudgedRuns;
  }

  lemma ForwardRuns(env: Env, id: string -> string, l: LegacyTables, seeded: Tables, u: Tables)
    requires Sound(env, id, l) && Reserved(env, seeded) && Shaped(l, seeded, u) && RanksFit(l)
    ensures CopyFits(l, u) && RunsPlaced(env, u)
  {
    hide *;
    ShapedDomains(l, seeded, u);
    forall k | k in u.runs ensures DistinctRanks(LegacyCandidates(l, k)) && RunPlaced(env, u, k) {
      RanksFitAt(l, k);
      ForwardRun(env, id, l, seeded, u, k);
    }
    AllRuns(env, l, u);
  }

  lemma AllRuns(env: Env, l: LegacyTables, u: Tables)
    requires u.candidates.Keys == u.runs.Keys
    requires forall k :: k in u.runs ==> DistinctRanks(LegacyCandidates(l, k)) && RunPlaced(env, u, k)
    ensures CopyFits(l, u) && RunsPlaced(env, u)
  {
    hide DistinctRanks, LegacyCandidates, RunPlaced;
  }

  lemma ForwardLog(env: Env, id: string -> string, l: LegacyTables, seeded: Tables, u: Tables)
    requires Sound(env, id, l) && Reserved(env, seeded) && Shaped(l, seeded, u)
    requires LensesExist(l) && OneLens(l) && PairsPlaced(u.judgments)
    ensures LogPlaced(env, u)
  {
    hide *;
    ShapedDomains(l, seeded, u);
    forall k | k in u.judgments ensures JudgmentTextOK(env, u.judgments[k]) && JudgmentPlaced(u, u.judgments[k]) {
      JudgedRunThere(env, id, l, seeded, u, k);
      VerdictPlaced(env, id, l, seeded, u, k);
    }
    WholeLog(env, u);
  }

  lemma WholeLog(env: Env, u: Tables)
    requires PairsPlaced(u.judgments)
    requires forall k :: k in u.judgments ==> JudgmentTextOK(env, u.judgments[k]) && JudgmentPlaced(u, u.judgments[k])
    ensures LogPlaced(env, u)
  {
    hide PairsPlaced, JudgmentTextOK, JudgmentPlaced;
  }

  lemma AcceptedForward(env: Env, id: string -> string, l: LegacyTables, seeded: Tables, u: Tables)
    requires Sound(env, id, l) && Reserved(env, seeded) && Shaped(l, seeded, u)
    requires LensesExist(l) && OneLens(l) && RanksFit(l) && EntitiesValid(env, u) && PairsPlaced(u.judgments)
    ensures CopyFits(l, u) && TablesValid(env, u)
  {
    hide Sound, Reserved, Shaped, LensesExist, OneLens, RanksFit, EntitiesValid, PairsPlaced, RunsPlaced, LogPlaced,
         CopyFits;
    ForwardRuns(env, id, l, seeded, u);
    ForwardLog(env, id, l, seeded, u);
  }

  /** Every judgment's run was projected under the judgment's own lens. */
  ghost predicate RunsHold(l: LegacyTables, u: Tables) {
    forall k :: k in l.verdicts ==>
      l.verdicts[k].runID in u.runs && u.runs[l.verdicts[k].runID].lensID == l.verdicts[k].lensID &&
      l.verdicts[k].lensID in l.lenses &&
      (CopiedRun(l, l.verdicts[k].runID) ==> l.runs[l.verdicts[k].runID].lensID == l.verdicts[k].lensID)
  }

  lemma BackwardVerdict(env: Env, id: string -> string, l: LegacyTables, seeded: Tables, u: Tables, k: string)
    requires Sound(env, id, l) && Reserved(env, seeded) && Shaped(l, seeded, u)
    requires k in l.verdicts && k in u.judgments && JudgmentPlaced(u, u.judgments[k])
    ensures var v := l.verdicts[k];
            && v.runID in u.runs && u.runs[v.runID].lensID == v.lensID && v.lensID in l.lenses
            && (CopiedRun(l, v.runID) ==> l.runs[v.runID].lensID == v.lensID)
  {
    hide *;
    ShapedDomains(l, seeded, u);
    VerdictPlaced(env, id, l, seeded, u, k);
    HeaderPlaced(env, id, l, seeded, u, l.verdicts[k].runID);
    CopiedIsThere(l, l.verdicts[k].runID);
  }

  lemma CopiedIsThere(l: LegacyTables, run: string)
    ensures CopiedRun(l, run) ==> run in l.runs
  {
  }

  lemma LogPlacedAt(env: Env, u: Tables, k: string)
    requires LogPlaced(env, u) && k in u.judgments
    ensures JudgmentPlaced(u, u.judgments[k])
  {
    hide PairsPlaced, JudgmentTextOK, JudgmentPlaced;
  }

  lemma BackwardLog(env: Env, id: string -> string, l: LegacyTables, seeded: Tables, u: Tables)
    requires Sound(env, id, l) && Reserved(env, seeded) && Shaped(l, seeded, u) && LogPlaced(env, u)
    ensures RunsHold(l, u)
  {
    hide Sound, Reserved, Shaped, LogPlaced, CopiedRun, JudgmentPlaced;
    ShapedDomains(l, seeded, u);
    forall k | k in l.verdicts
      ensures var v := l.verdicts[k];
              && v.runID in u.runs && u.runs[v.runID].lensID == v.lensID && v.lensID in l.lenses
              && (CopiedRun(l, v.runID) ==> v.runID in l.runs && l.runs[v.runID].lensID == v.lensID)
    {
      LogPlacedAt(env, u, k);
      BackwardVerdict(env, id, l, seeded, u, k);
      CopiedIsThere(l, l.verdicts[k].runID);
    }
  }

  lemma HeldIsOneLens(l: LegacyTables, u: Tables)
    requires RunsHold(l, u)
    ensures LensesExist(l) && OneLens(l) && JudgedRuns(l) <= u.runs.Keys
  {
  }

  lemma BackwardRun(env: Env, id: string -> string, l: LegacyTables, seeded: Tables, u: Tables, k: string)
    requires Sound(env, id, l) && Reserved(env, seeded) && Shaped(l, seeded, u)
    requires k in u.runs && DistinctRanks(LegacyCandidates(l, k)) && RunPlaced(env, u, k)
    ensures FitsRun(l, k)
  {
    hide *;
    RunProjected(env, id, l, seeded, u, k);
  }

  lemma BackwardRuns(env: Env, id: string -> string, l: LegacyTables, seeded: Tables, u: Tables)
    requires Sound(env, id, l) && Reserved(env, seeded) && Shaped(l, seeded, u)
    requires CopyFits(l, u) && RunsPlaced(env, u) && JudgedRuns(l) <= u.runs.Keys
    ensures RanksFit(l)
  {
    hide Sound, Reserved, Shaped, RunPlaced, FitsRun, DistinctRanks, LegacyCandidates, JudgedRuns;
    forall k | k in JudgedRuns(l) ensures FitsRun(l, k) {
      BackwardRun(env, id, l, seeded, u, k);
    }
  }

  lemma AcceptedBackward(env: Env, id: string -> string, l: LegacyTables, seeded: Tables, u: Tables)
    requires Sound(env, id, l) && Reserved(env, seeded) && Shaped(l, seeded, u)
    requires CopyFits(l, u) && TablesValid(env, u)
    ensures LensesExist(l) && OneLens(l) && RanksFit(l)
  {
    hide Sound, Reserved, Shaped, EntitiesValid, RunsPlaced, LogPlaced, CopyFits, LensesExist, OneLens, RanksFit,
         JudgedRuns;
    BackwardLog(env, id, l, seeded, u);
    HeldIsOneLens(l, u);
    BackwardRuns(env, id, l, seeded, u);
  }

  // ------------------------------------------------------- projecting once more

  lemma MergeWithin<K, V>(extra: map<K, V>, m: map<K, V>)
    requires extra.Keys <= m.Keys
    ensures extra + m == m
  {
    assert (extra + m).Keys == m.Keys;
  }

  lemma SameLenses(l: LegacyTables, u: Tables)
    requires forall k :: k in l.lenses ==> (ROOT, k) in u.lenses && u.lenses[(ROOT, k)] == RootLens(u, l.lenses[k])
    ensures WithLegacyLenses(l, u) == u
  {
    hide RootLens;
    var copies := map k | k in l.lenses :: (ROOT, k) := RootLens(u, l.lenses[k]);
    forall k | k in copies ensures k in u.lenses && u.lenses[k] == copies[k] {}
    assert u.lenses + copies == u.lenses;
  }

  lemma LensesAgain(l: LegacyTables, seeded: Tables, u: Tables)
    requires ReservedRows(seeded) && Shaped(l, seeded, u)
    ensures WithLegacyLenses(l, u) == u
  {
    hide FilledOut, JudgedRuns, Scoped, HeaderOf, RebuiltHeader, Grouped, CopiedRun, WithLegacyLenses;
    forall k | k in l.lenses ensures (ROOT, k) in u.lenses && u.lenses[(ROOT, k)] == RootLens(u, l.lenses[k]) {
      assert u.lenses[(ROOT, k)] == RootLens(seeded, l.lenses[k]);
    }
    SameLenses(l, u);
  }

  lemma NoRunsAdded(l: LegacyTables, u: Tables)
    requires forall k :: k in l.runs && k in JudgedRuns(l) && (ROOT, l.runs[k].lensID) in u.lenses ==> k in u.runs
    ensures WithLegacyRuns(l, u) == u
  {
    hide JudgedRuns, HeaderOf;
    var added := map k | k in l.runs && k in JudgedRuns(l) && k !in u.runs && (ROOT, l.runs[k].lensID) in u.lenses
      :: HeaderOf(l.runs[k]);
    assert added.Keys == {};
    assert u.runs + added == u.runs;
    assert u.candidates + (map k | k in added :: map[]) == u.candidates;
  }

  lemma RunsAgain(l: LegacyTables, seeded: Tables, u: Tables)
    requires Shaped(l, seeded, u)
    ensures WithLegacyRuns(l, u) == u
  {
    hide FilledOut, JudgedRuns, Scoped, HeaderOf, RebuiltHeader, Grouped, RootLens, WithLegacyRuns;
    forall k | k in l.runs && k in JudgedRuns(l) && (ROOT, l.runs[k].lensID) in u.lenses ensures k in u.runs {
      assert CopiedRun(l, k);
    }
    NoRunsAdded(l, u);
  }

  lemma NoRunsRebuilt(l: LegacyTables, u: Tables)
    requires RebuiltRows(l, u.lenses.Keys).Keys <= u.runs.Keys && u.candidates.Keys == u.runs.Keys
    ensures WithRebuiltRuns(l, u) == u
  {
    hide RebuiltRows;
    var rows := RebuiltRows(l, u.lenses.Keys);
    MergeWithin(rows, u.runs);
    var nothing: map<string, map<string, Candidate>> := map k | k in rows :: map[];
    assert nothing.Keys == rows.Keys;
    MergeWithin(nothing, u.candidates);
  }

  lemma RebuiltAgain(l: LegacyTables, seeded: Tables, u: Tables)
    requires Shaped(l, seeded, u)
    ensures WithRebuiltRuns(l, u) == u
  {
    hide FilledOut, JudgedRuns, Scoped, HeaderOf, RebuiltHeader, Grouped, CopiedRun, RootLens, RebuiltRows,
         WithRebuiltRuns;
    forall k | k in RebuiltRows(l, u.lenses.Keys) ensures k in u.runs {
      RebuiltRowsAt(l, u.lenses.Keys, k);
    }
    NoRunsRebuilt(l, u);
  }

  lemma CopiedShown(l: LegacyTables, run: string)
    requires LegacyKeyed(l)
    ensures LegacyCandidates(l, run) + FilledOut(l, run) == FilledOut(l, run)
  {
    FilledOutKeyed(l, run);
    hide *;
    MergeWithin(LegacyCandidates(l, run), FilledOut(l, run));
  }

  lemma CandidatesAgain(l: LegacyTables, seeded: Tables, u: Tables)
    requires LegacyKeyed(l) && Shaped(l, seeded, u)
    ensures WithLegacyCandidates(l, u) == u
  {
    hide JudgedRuns, Scoped, HeaderOf, RebuiltHeader, Grouped, CopiedRun, RootLens, FilledOut, LegacyKeyed;
    forall k | k in u.candidates ensures CopiedCandidates(l, u, k) == u.candidates[k] {
      CopiedShown(l, k);
    }
    hide CopiedCandidates;
    assert WithLegacyCandidates(l, u).candidates == u.candidates;
  }

  lemma NoneMissing(l: LegacyTables, seeded: Tables, u: Tables, run: string)
    requires LegacyKeyed(l) && Shaped(l, seeded, u) && run in u.candidates
    ensures Missing(l, u, run) == {}
  {
    hide JudgedRuns, Scoped, HeaderOf, RebuiltHeader, Grouped, CopiedRun, RootLens, FilledOut, LegacyKeyed;
    forall k | k in l.verdicts && l.verdicts[k].runID == run ensures l.verdicts[k].recordID in u.candidates[run] {
      JudgedRecordShown(l, k);
    }
  }

  lemma NoCandidatesRebuilt(l: LegacyTables, u: Tables)
    requires forall k :: k in u.candidates ==> Missing(l, u, k) == {}
    ensures WithRebuiltCandidates(l, u) == u
  {
    hide Missing, TopRank, RowNumber;
    var none: map<string, Candidate> := map[];
    forall top ensures Rebuilt({}, top) == none {}
    hide Rebuilt;
    forall k | k in u.candidates
      ensures u.candidates[k] + Rebuilt(Missing(l, u, k), TopRank(u.candidates[k])) == u.candidates[k]
    {
      assert u.candidates[k] + none == u.candidates[k];
    }
    assert WithRebuiltCandidates(l, u).candidates == u.candidates;
  }

  lemma RebuiltCandidatesAgain(l: LegacyTables, seeded: Tables, u: Tables)
    requires LegacyKeyed(l) && Shaped(l, seeded, u)
    ensures WithRebuiltCandidates(l, u) == u
  {
    hide *;
    forall k | k in u.candidates ensures Missing(l, u, k) == {} {
      NoneMissing(l, seeded, u, k);
    }
    NoCandidatesRebuilt(l, u);
  }

  lemma JudgmentsAgain(l: LegacyTables, seeded: Tables, u: Tables)
    requires Shaped(l, seeded, u)
    ensures WithLegacyJudgments(l, u) == u
  {
    ShapedLog(l, seeded, u);
    hide Shaped, Scoped;
  }

  lemma SeededAgain(l: LegacyTables, seeded: Tables, u: Tables, now: string)
    requires ReservedRows(seeded) && Shaped(l, seeded, u)
    ensures Seeded(u, now) == u
  {
    hide JudgedRuns, Scoped, HeaderOf, RebuiltHeader, Grouped, CopiedRun, RootLens, FilledOut;
  }

  /** A process that dies between the projection and the schema marker projects
      again when it is next opened: nothing changes, whatever the time is then. */
  lemma ProjectedAgain(l: LegacyTables, t: Tables, now: string, later: string)
    requires LegacyKeyed(l) && Unprojected(t)
    ensures Projected(l, Projected(l, t, now), later) == Projected(l, t, now)
  {
    var seeded, u := Seeded(t, now), Projected(l, t, now);
    SeededReserved(t, now);
    ProjectedShape(l, t, now);
    SeededAgain(l, seeded, u, later);
    LensesAgain(l, seeded, u);
    RunsAgain(l, seeded, u);
    RebuiltAgain(l, seeded, u);
    CandidatesAgain(l, seeded, u);
    RebuiltCandidatesAgain(l, seeded, u);
    JudgmentsAgain(l, seeded, u);
    hide *;
    ProjectedSteps(l, u, later);
  }

  lemma ProjectedSteps(l: LegacyTables, t: Tables, now: string)
    ensures Projected(l, t, now) ==
            WithLegacyJudgments(l, WithRebuiltCandidates(l, WithLegacyCandidates(l,
              WithRebuiltRuns(l, WithLegacyRuns(l, WithLegacyLenses(l, Seeded(t, now)))))))
  {
    hide WithLegacyJudgments, WithRebuiltCandidates, WithLegacyCandidates, WithRebuiltRuns, WithLegacyRuns,
         WithLegacyLenses, Seeded;
  }

  lemma SeededReserved(t: Tables, now: string)
    requires Unprojected(t)
    ensures ReservedRows(Seeded(t, now)) && t.actors.Keys <= Seeded(t, now).actors.Keys
  {
  }

  // ------------------------------------------------------------ conservation

  /** SUM(effect) over unscoped judgments. */
  ghost function LegacyTotal(vs: set<Verdict>): int {
    Sum(vs, VerdictEffect)
  }

  function VerdictEffect(v: Verdict): int { v.effect }

  ghost function LegacyCounted(l: LegacyTables, lens: string, record: string): set<Verdict> {
    set v | v in l.verdicts.Values && v.lensID == lens && v.recordID == record
  }

  lemma ImageWithout(l: LegacyTables, vs: set<Verdict>, v: Verdict)
    requires v in vs && forall a, b :: a in vs && b in vs && a.judgmentID == b.judgmentID ==> a == b
    ensures Scoped(l, v) in set w | w in vs :: Scoped(l, w)
    ensures (set w | w in vs :: Scoped(l, w)) - {Scoped(l, v)} == set w | w in vs - {v} :: Scoped(l, w)
  {
    forall w ensures Scoped(l, w).judgmentID == w.judgmentID {}
    hide Scoped;
    forall w | w in vs - {v} ensures Scoped(l, w) != Scoped(l, v) {
      assert w.judgmentID != v.judgmentID;
    }
  }

  lemma {:induction false} TotalImage(l: LegacyTables, vs: set<Verdict>)
    requires forall a, b :: a in vs && b in vs && a.judgmentID == b.judgmentID ==> a == b
    ensures Total(set v | v in vs :: Scoped(l, v)) == LegacyTotal(vs)
    decreases vs
  {
    forall v ensures Scoped(l, v).judgmentID == v.judgmentID && Scoped(l, v).effect == v.effect {}
    hide Scoped;
    var image := set v | v in vs :: Scoped(l, v);
    if vs == {} {
      assert image == {};
    } else {
      var v :| v in vs;
      SumWithout(vs, VerdictEffect, v);
      TotalImage(l, vs - {v});
      ImageWithout(l, vs, v);
      SumWithout(image, EffectIn, Scoped(l, v));
    }
  }

  /** Projection conserves feedback: what a lens had learnt about a record is what
      the root scope's copy of that lens shows the legacy agent. */
  lemma ProjectionConserves(l: LegacyTables, t: Tables, now: string, lens: string, record: string)
    requires LegacyKeyed(l) && Unprojected(t)
    ensures Total(Counted(Projected(l, t, now).judgments.Values, Context(ROOT, lens, LEGACY_AGENT), record)) ==
            LegacyTotal(LegacyCounted(l, lens, record))
  {
    hide *;
    ProjectedShape(l, t, now);
    ShapedLog(l, Seeded(t, now), Projected(l, t, now));
    CountedImage(l, Projected(l, t, now).judgments, lens, record);
    TotalImage(l, LegacyCounted(l, lens, record));
  }

  lemma ShapedLog(l: LegacyTables, seeded: Tables, u: Tables)
    requires Shaped(l, seeded, u)
    ensures u.judgments == map k | k in l.verdicts :: Scoped(l, l.verdicts[k])
  {
    hide Grouped, CopiedRun, HeaderOf, RebuiltHeader, FilledOut, Scoped, JudgedRuns, RootLens;
  }

  lemma CountedImage(l: LegacyTables, js: map<string, Judgment>, lens: string, record: string)
    requires LegacyKeyed(l) && js == map k | k in l.verdicts :: Scoped(l, l.verdicts[k])
    ensures Counted(js.Values, Context(ROOT, lens, LEGACY_AGENT), record) ==
            set v | v in LegacyCounted(l, lens, record) :: Scoped(l, v)
    ensures forall a, b :: a in LegacyCounted(l, lens, record) && b in LegacyCounted(l, lens, record) ==>
                             (a.judgmentID == b.judgmentID ==> a == b)
  {
    var vs, c := LegacyCounted(l, lens, record), Context(ROOT, lens, LEGACY_AGENT);
    forall j ensures j in Counted(js.Values, c, record) <==> exists v :: v in vs && j == Scoped(l, v) {
      if j in Counted(js.Values, c, record) {
        var k :| k in js && js[k] == j;
        assert l.verdicts[k] in vs && j == Scoped(l, l.verdicts[k]);
      }
      if v :| v in vs && j == Scoped(l, v) {
        var k :| k in l.verdicts && l.verdicts[k] == v;
        assert js[k] == j;
      }
    }
  }
}
