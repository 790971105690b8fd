/** What a projected row says, read off the tables before and after. */
module ProjectionLaws {
  import opened Text
  import opened ScopedModel
  import opened Feedback
  import opened ScopedStore
  import opened LegacyModel
  import opened LegacyProjection

  /** Only the lens statement writes lenses. */
  lemma LensesWritten(l: LegacyTables, t: Tables, now: string)
    ensures Projected(l, t, now).lenses == WithLegacyLenses(l, Seeded(t, now)).lenses
    ensures Projected(l, t, now).scopes == Seeded(t, now).scopes && Projected(l, t, now).actors == Seeded(t, now).actors
  {
    hide RootLens, HeaderOf, RebuiltHeader, Grouped, JudgedRuns, FilledOut, Scoped;
  }

  /** Over any tables: every legacy lens stands under the root scope as it was named,
      asked and timed; a new row is active, one that was there keeps its status; and
      no other lens changes. */
  lemma LensProjected(l: LegacyTables, t: Tables, now: string, k: string)
    requires LegacyKeyed(l) && k in l.lenses
    ensures var u := Projected(l, t, now);
            && ("owner_root_scope", k) in u.lenses
            && var was, row := l.lenses[k], u.lenses[("owner_root_scope", k)];
               && row.scopeID == "owner_root_scope" && row.id == k && row.name == was.name && row.query == was.query
               && row.createdAt == was.createdAt && row.updatedAt == was.updatedAt
               && row.status == if ("owner_root_scope", k) in t.lenses then t.lenses[("owner_root_scope", k)].status
                                else Active
    ensures forall key :: key in Projected(l, t, now).lenses ==>
              (key.0 == "owner_root_scope" && key.1 in l.lenses) ||
              (key in t.lenses && Projected(l, t, now).lenses[key] == t.lenses[key])
  {
    LensesWritten(l, t, now);
    hide Projected;
  }

  /** After a first projection a context of the root scope, a legacy lens and any agent
      that is active resolves, whatever agents come in later. */
  lemma LensUsable(l: LegacyTables, t: Tables, now: string, k: string, u: Tables, agent: string)
    requires LegacyKeyed(l) && Unprojected(t) && k in l.lenses && Bounded(k, 256)
    requires "owner_root_scope" in t.scopes ==> t.scopes["owner_root_scope"].status.Active?
    requires u.scopes == Projected(l, t, now).scopes && u.lenses == Projected(l, t, now).lenses
    requires agent in u.actors && u.actors[agent].status.Active? && Bounded(agent, 256)
    ensures Resolves(u, Context("owner_root_scope", k, agent))
  {
    LensAwake(l, t, now, k);
    RootProjected(l, t, now);
    TightIsBounded("owner_root_scope", 256);
    hide *;
    AllAwake(u, "owner_root_scope", k, agent);
  }

  lemma LensAwake(l: LegacyTables, t: Tables, now: string, k: string)
    requires LegacyKeyed(l) && Unprojected(t) && k in l.lenses
    ensures ("owner_root_scope", k) in Projected(l, t, now).lenses
    ensures Projected(l, t, now).lenses[("owner_root_scope", k)].status.Active?
  {
    assert ("owner_root_scope", k) !in t.lenses;
    hide *;
    LensProjected(l, t, now, k);
  }

  /** The reserved rows stand after a projection, as they stood before or newly made:
      the root scope active, and the legacy agent archived, so that nobody acts for it;
      no other scope or agent changes. */
  lemma RootProjected(l: LegacyTables, t: Tables, now: string)
    ensures var u := Projected(l, t, now);
            && u.scopes == (if "owner_root_scope" in t.scopes then t.scopes
                            else t.scopes["owner_root_scope" := Scope("owner_root_scope", "Owner root",
                                            "Legacy owner-created lenses", Active, now, now)])
            && u.actors == (if "legacy_agent_actor" in t.actors then t.actors
                            else t.actors["legacy_agent_actor" :=
                                            AgentActor("legacy_agent_actor", "Legacy agent", Archived, now, now)])
    ensures "legacy_agent_actor" !in t.actors ==>
              forall scope, lens :: !Resolves(Projected(l, t, now), Context(scope, lens, "legacy_agent_actor"))
  {
    LensesWritten(l, t, now);
    hide Projected, Bounded;
  }

  lemma AllAwake(t: Tables, scope: string, lens: string, agent: string)
    requires Bounded(scope, 256) && Bounded(lens, 256) && Bounded(agent, 256)
    requires scope in t.scopes && (scope, lens) in t.lenses && agent in t.actors
    requires t.scopes[scope].status.Active? && t.lenses[(scope, lens)].status.Active? && t.actors[agent].status.Active?
    ensures Resolves(t, Context(scope, lens, agent))
  {
    hide Bounded;
  }

  /** A status changed between two projections is kept by the second, and a lens
      renamed there gets its own name back. */
  lemma StatusKept(l: LegacyTables, t: Tables, now: string, later: string, k: string, changed: Lens)
    requires LegacyKeyed(l) && Unprojected(t) && k in l.lenses
    requires changed.scopeID == "owner_root_scope" && changed.id == k
    ensures var u := Projected(l, t, now);
            var v := u.(lenses := u.lenses[("owner_root_scope", k) := changed]);
            && Projected(l, v, later).lenses[("owner_root_scope", k)].status == changed.status
            && Projected(l, v, later).lenses[("owner_root_scope", k)].name == l.lenses[k].name
  {
    var u := Projected(l, t, now);
    LensProjected(l, u.(lenses := u.lenses[("owner_root_scope", k) := changed]), later, k);
    hide Projected;
  }

  /** Whoever speaks in a projected judgment: the legacy agent for helpers, otherwise
      the owner; a reversal has the voice of the judgment it reverses. */
  ghost predicate Speaks(l: LegacyTables, v: Verdict, j: Judgment) {
    var voice := if v.reversesID in l.verdicts then l.verdicts[v.reversesID].voice else v.voice;
    if voice.Helper? then j.actor.Agent? && j.agentID == "legacy_agent_actor" else j.actor.Owner? && j.agentID == ""
  }

  ghost predicate SaysAlike(v: Verdict, j: Judgment) {
    && j.key == v.key && j.runID == v.runID && j.scopeID == "owner_root_scope" && j.lensID == v.lensID
    && j.recordID == v.recordID && j.disposition == v.disposition && j.reason == v.reason
    && j.reversesID == v.reversesID && j.effect == v.effect && j.createdAt == v.createdAt
  }

  /** Every judgment keeps its key, run, lens, record, disposition, reason, target,
      effect and time. */
  lemma JudgmentProjected(l: LegacyTables, t: Tables, now: string, k: string)
    requires LegacyKeyed(l) && Unprojected(t) && k in l.verdicts
    ensures var u := Projected(l, t, now);
            && k in u.judgments
            && u.judgments[k].judgmentID == k && SaysAlike(l.verdicts[k], u.judgments[k])
            && Speaks(l, l.verdicts[k], u.judgments[k])
    ensures Projected(l, t, now).judgments.Keys == l.verdicts.Keys
  {
    VerdictKeyed(l, k);
    hide *;
    ProjectedShape(l, t, now);
    ShapedRow(l, Seeded(t, now), Projected(l, t, now), k);
    RowSays(l, l.verdicts[k]);
  }

  lemma ShapedRow(l: LegacyTables, seeded: Tables, u: Tables, k: string)
    requires Shaped(l, seeded, u) && k in l.verdicts
    ensures k in u.judgments && u.judgments[k] == LegacyProjection.Scoped(l, l.verdicts[k])
    ensures u.judgments.Keys == l.verdicts.Keys
  {
    hide RootLens, HeaderOf, RebuiltHeader, Grouped, FilledOut, LegacyProjection.Scoped, JudgedRuns, CopiedRun;
  }

  lemma VerdictKeyed(l: LegacyTables, k: string)
    requires LegacyKeyed(l) && k in l.verdicts
    ensures l.verdicts[k].judgmentID == k
  {
  }

  lemma RowSays(l: LegacyTables, v: Verdict)
    ensures var j := LegacyProjection.Scoped(l, v);
            j.judgmentID == v.judgmentID && SaysAlike(v, j) && Speaks(l, v, j)
  {
  }

  /** A judged run whose row and lens survive keeps its query, lens, method, library
      and time, under the root scope and the legacy agent, and its candidates. */
  lemma RunProjected(l: LegacyTables, t: Tables, now: string, k: string)
    requires LegacyKeyed(l) && Unprojected(t) && k in l.runs && l.runs[k].lensID in l.lenses
    requires exists j :: j in l.verdicts && l.verdicts[j].runID == k
    ensures var u := Projected(l, t, now);
            && k in u.runs && k in u.candidates
            && var was, h := l.runs[k], u.runs[k];
               && h.runID == k && h.query == was.query && h.lensID == was.lensID && h.scopeID == "owner_root_scope"
               && h.agentID == "legacy_agent_actor" && h.retrievalMethod == was.retrievalMethod
               && h.library == was.library && h.createdAt == was.createdAt
    ensures var rows := Projected(l, t, now).candidates[k];
            && (forall c :: c in l.candidates[k] ==> c in rows && rows[c] == l.candidates[k][c])
            && (forall j :: j in l.verdicts && l.verdicts[j].runID == k ==> l.verdicts[j].recordID in rows)
  {
    RunKeyed(l, k);
    Judged(l, k);
    hide *;
    ProjectedShape(l, t, now);
    CopiedRow(l, Seeded(t, now), Projected(l, t, now), k);
    HeaderSays(l.runs[k]);
    FilledSays(l, k);
  }

  lemma RunKeyed(l: LegacyTables, k: string)
    requires LegacyKeyed(l) && k in l.runs
    ensures l.runs[k].runID == k && k in l.candidates
  {
  }

  lemma Judged(l: LegacyTables, k: string)
    requires exists j :: j in l.verdicts && l.verdicts[j].runID == k
    ensures k in JudgedRuns(l)
  {
  }

  lemma CopiedRow(l: LegacyTables, seeded: Tables, u: Tables, k: string)
    requires Shaped(l, seeded, u) && k in JudgedRuns(l) && k in l.runs && l.runs[k].lensID in l.lenses
    ensures k in u.runs && k in u.candidates && u.runs[k] == HeaderOf(l.runs[k]) && u.candidates[k] == FilledOut(l, k)
  {
    hide RootLens, RebuiltHeader, Grouped, FilledOut, LegacyProjection.Scoped, JudgedRuns, HeaderOf;
  }

  lemma HeaderSays(r: LegacyRun)
    ensures var h := HeaderOf(r);
            && h.runID == r.runID && h.query == r.query && h.lensID == r.lensID && h.scopeID == "owner_root_scope"
            && h.agentID == "legacy_agent_actor" && h.retrievalMethod == r.retrievalMethod
            && h.library == r.library && h.createdAt == r.createdAt
  {
  }

  lemma FilledSays(l: LegacyTables, k: string)
    requires k in l.candidates
    ensures forall c :: c in l.candidates[k] ==> c in FilledOut(l, k) && FilledOut(l, k)[c] == l.candidates[k][c]
    ensures forall j :: j in l.verdicts && l.verdicts[j].runID == k ==> l.verdicts[j].recordID in FilledOut(l, k)
  {
    hide TopRank, RowNumber;
    forall j | j in l.verdicts && l.verdicts[j].runID == k ensures l.verdicts[j].recordID in FilledOut(l, k) {
      assert l.verdicts[j].recordID in l.candidates[k] || l.verdicts[j].recordID in Unshown(l, k);
    }
  }
}
