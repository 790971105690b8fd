/** What the rows of a valid state say, field by field, and that nothing the store does
    leaves a row that says anything else. */
module ValidityLaws {
  import opened Text
  import opened ScopedModel
  import opened LegacyModel
  import opened Feedback
  import opened ScopedStore
  import opened StoreHistory
  import opened Histories

  /** A text that may be kept: not blank, within its bound once trimmed, and no secret. */
  predicate Kept(env: Env, s: string, maximum: nat) {
    0 < |Trim(s)| <= maximum && !env.secretLike(s)
  }

  /** Times of creation and change. */
  predicate Dated(env: Env, createdAt: string, updatedAt: string) {
    Kept(env, createdAt, 256) && Kept(env, updatedAt, 256)
  }

  predicate FineScope(env: Env, s: Scope) {
    && Kept(env, s.id, 256) && Kept(env, s.name, 1024) && Kept(env, s.purpose, 65536)
    && (s.status == Active || s.status == Archived) && Dated(env, s.createdAt, s.updatedAt)
  }

  predicate FineLens(env: Env, l: Lens) {
    && !env.secretLike(l.scopeID) && Kept(env, l.id, 256) && Kept(env, l.name, 1024) && Kept(env, l.query, 65536)
    && (l.status == Active || l.status == Archived) && Dated(env, l.createdAt, l.updatedAt)
  }

  predicate FineActor(env: Env, a: AgentActor) {
    && Kept(env, a.id, 256) && Kept(env, a.name, 1024)
    && (a.status == Active || a.status == Archived) && Dated(env, a.createdAt, a.updatedAt)
  }

  predicate FineHeader(env: Env, h: RunHeader) {
    && Kept(env, h.runID, 256) && Kept(env, h.query, 65536) && Kept(env, h.retrievalMethod, 1024)
    && Kept(env, h.library, 256) && Kept(env, h.createdAt, 256)
    && !env.secretLike(h.scopeID) && !env.secretLike(h.lensID) && !env.secretLike(h.agentID)
  }

  predicate FineCandidate(env: Env, c: Candidate) {
    && Kept(env, c.recordID, 1024) && 0 < c.rank && c.finalScore != NotFinite && |c.components| < 1001
    && (forall name :: name in c.components ==> Kept(env, name, 256) && c.components[name] != NotFinite)
  }

  /** An owner's word counts 4 quarters, an agent's 1, for or against. */
  predicate Weighed(j: Judgment) {
    || (j.actor == Owner && j.disposition == Used && j.effect == 4)
    || (j.actor == Owner && j.disposition == Dismissed && j.effect == -4)
    || (j.actor == Agent && j.disposition == Used && j.effect == 1)
    || (j.actor == Agent && j.disposition == Dismissed && j.effect == -1)
  }

  predicate FineJudgment(env: Env, j: Judgment) {
    && Kept(env, j.judgmentID, 256) && Kept(env, j.key, 1024) && Kept(env, j.createdAt, 256)
    && (|Trim(j.reason)| == 0 || |j.reason| <= 4096) && !env.secretLike(j.reason)
    && !env.secretLike(j.runID) && !env.secretLike(j.scopeID) && !env.secretLike(j.lensID)
    && !env.secretLike(j.agentID) && !env.secretLike(j.recordID) && !env.secretLike(j.reversesID)
    && (j.reversesID == "" ==> Weighed(j))
  }

  // ------------------------------------------------------ the validator's checks

  lemma ScopeIff(env: Env, s: Scope)
    ensures ScopeOK(env, s) <==> FineScope(env, s)
  {
    var x := [s.id, s.name, s.purpose, s.createdAt, s.updatedAt];
    assert x[0] == s.id && x[1] == s.name && x[2] == s.purpose && x[3] == s.createdAt && x[4] == s.updatedAt;
    hide Trim;
  }

  lemma LensIff(env: Env, l: Lens)
    ensures LensOK(env, l) <==> FineLens(env, l)
  {
    var x := [l.scopeID, l.id, l.name, l.query, l.createdAt, l.updatedAt];
    assert x[0] == l.scopeID && x[1] == l.id && x[2] == l.name && x[3] == l.query;
    assert x[4] == l.createdAt && x[5] == l.updatedAt;
    hide Trim;
  }

  lemma ActorIff(env: Env, a: AgentActor)
    ensures ActorOK(env, a) <==> FineActor(env, a)
  {
    var x := [a.id, a.name, a.createdAt, a.updatedAt];
    assert x[0] == a.id && x[1] == a.name && x[2] == a.createdAt && x[3] == a.updatedAt;
    hide Trim;
  }

  lemma HeaderIff(env: Env, h: RunHeader)
    ensures HeaderOK(env, h) <==> FineHeader(env, h)
  {
    var x := [h.runID, h.query, h.scopeID, h.lensID, h.agentID, h.retrievalMethod, h.library, h.createdAt];
    assert x[0] == h.runID && x[1] == h.query && x[2] == h.scopeID && x[3] == h.lensID && x[4] == h.agentID;
    assert x[5] == h.retrievalMethod && x[6] == h.library && x[7] == h.createdAt;
    hide Trim;
  }

  lemma CandidateIff(env: Env, c: Candidate)
    ensures CandidateOK(env, c) <==> FineCandidate(env, c)
  {
    assert [c.recordID][0] == c.recordID;
    hide Trim;
  }

  lemma JudgmentIff(env: Env, j: Judgment)
    ensures JudgmentTextOK(env, j) <==> FineJudgment(env, j)
  {
    var x := [j.judgmentID, j.key, j.runID, j.scopeID, j.lensID, j.agentID, j.recordID, j.reason, j.reversesID,
              j.createdAt];
    assert x[0] == j.judgmentID && x[1] == j.key && x[2] == j.runID && x[3] == j.scopeID && x[4] == j.lensID;
    assert x[5] == j.agentID && x[6] == j.recordID && x[7] == j.reason && x[8] == j.reversesID && x[9] == j.createdAt;
    hide Trim;
  }

  // ------------------------------------------------------------- whole states

  ghost predicate FineRows(env: Env, t: Tables) {
    && (forall k :: k in t.scopes ==> FineScope(env, t.scopes[k]))
    && (forall k :: k in t.lenses ==> FineLens(env, t.lenses[k]))
    && (forall k :: k in t.actors ==> FineActor(env, t.actors[k]))
    && (forall k :: k in t.runs ==> FineHeader(env, t.runs[k]))
    && (forall k, c :: k in t.candidates && c in t.candidates[k] ==> FineCandidate(env, t.candidates[k][c]))
    && (forall k :: k in t.judgments ==> FineJudgment(env, t.judgments[k]))
  }

  /** A run shows at most a hundred records, each under a rank of its own, in a stored
      scope, lens and agent. */
  ghost predicate RunStands(t: Tables, k: string)
    requires k in t.runs && k in t.candidates
  {
    var h := t.runs[k];
    && h.scopeID in t.scopes && (h.scopeID, h.lensID) in t.lenses && h.agentID in t.actors && |t.candidates[k]| <= 100
    && forall c, d :: c in t.candidates[k] && d in t.candidates[k] && c != d ==>
                        t.candidates[k][c].rank != t.candidates[k][d].rank
  }

  /** A judgment is of a stored run, in the run's own scope and lens, by the owner or by
      the run's own agent; and its key is its own. */
  ghost predicate JudgmentStands(t: Tables, k: string)
    requires k in t.judgments
  {
    var j := t.judgments[k];
    && j.runID in t.runs && t.runs[j.runID].scopeID == j.scopeID && t.runs[j.runID].lensID == j.lensID
    && (if j.actor == Agent then j.agentID == t.runs[j.runID].agentID else j.actor == Owner && j.agentID == "")
    && forall l :: l in t.judgments && t.judgments[l].key == j.key ==> l == k
  }

  /** A reversal takes back an original of the same run, record and speaker, whole, and
      no other reversal does. */
  ghost predicate ReversalStands(t: Tables, k: string)
    requires k in t.judgments
  {
    var j := t.judgments[k];
    j.reversesID != "" ==>
      && j.disposition == Reversed && j.reversesID in t.judgments
      && var o := t.judgments[j.reversesID];
      && o.reversesID == "" && j.effect + o.effect == 0
      && (o.runID, o.scopeID, o.lensID, o.agentID, o.recordID, o.actor) ==
         (j.runID, j.scopeID, j.lensID, j.agentID, j.recordID, j.actor)
      && forall l :: l in t.judgments && t.judgments[l].reversesID == j.reversesID ==> l == k
  }

  ghost predicate FineTables(env: Env, t: Tables) {
    && FineRows(env, t)
    && (forall k :: k in t.lenses ==> k.0 in t.scopes)
    && (forall k :: k in t.runs ==> k in t.candidates && RunStands(t, k))
    && (forall k :: k in t.judgments ==> JudgmentStands(t, k) && ReversalStands(t, k))
  }

  lemma ValidIsFine(env: Env, t: Tables)
    requires Unique(t) && TablesValid(env, t)
    ensures FineTables(env, t)
  {
    hide TablesValid, Unique, FineRows, RunStands, JudgmentStands, ReversalStands, JudgmentPlaced, PairsPlaced;
    RowsFine(env, t);
    Placed(env, t);
    forall k | k in t.runs ensures k in t.candidates && RunStands(t, k) {
      RunsStand(env, t, k);
    }
    forall k | k in t.judgments ensures JudgmentStands(t, k) && ReversalStands(t, k) {
      JudgmentsStand(t, k);
      ReversalsStand(t, k);
    }
  }

  lemma Placed(env: Env, t: Tables)
    requires TablesValid(env, t)
    ensures forall k :: k in t.lenses ==> k.0 in t.scopes
    ensures forall k :: k in t.judgments ==> JudgmentPlaced(t, t.judgments[k])
    ensures PairsPlaced(t.judgments)
  {
    hide JudgmentPlaced, PairsPlaced, JudgmentTextOK, LensKeysApart, LensOK, ScopeOK, ActorOK, RunsPlaced;
  }

  lemma RunsStand(env: Env, t: Tables, k: string)
    requires Unique(t) && TablesValid(env, t) && k in t.runs
    ensures k in t.candidates && RunStands(t, k)
  {
    hide LogPlaced, HeaderOK, CandidateOK, LensKeysApart, LensOK, ScopeOK, ActorOK;
    assert RunPlaced(env, t, k) && KeyedCandidates(t.candidates[k]);
  }

  lemma JudgmentsStand(t: Tables, k: string)
    requires k in t.judgments && JudgmentPlaced(t, t.judgments[k]) && PairsPlaced(t.judgments)
    ensures JudgmentStands(t, k)
  {
    hide CandidatePlaced, Undoes;
  }

  lemma ReversalsStand(t: Tables, k: string)
    requires k in t.judgments && PairsPlaced(t.judgments)
    ensures ReversalStands(t, k)
  {
  }

  lemma RowsFine(env: Env, t: Tables)
    requires Unique(t) && TablesValid(env, t)
    ensures FineRows(env, t)
  {
    hide ScopeOK, LensOK, ActorOK, HeaderOK, CandidateOK, JudgmentTextOK, CandidatePlaced, LensKeysApart;
    hide FineScope, FineLens, FineActor, FineHeader, FineCandidate, FineJudgment;
    forall k | k in t.scopes ensures FineScope(env, t.scopes[k]) {
      ScopeIff(env, t.scopes[k]);
    }
    forall k | k in t.lenses ensures FineLens(env, t.lenses[k]) {
      LensIff(env, t.lenses[k]);
    }
    forall k | k in t.actors ensures FineActor(env, t.actors[k]) {
      ActorIff(env, t.actors[k]);
    }
    forall k | k in t.runs ensures FineHeader(env, t.runs[k]) {
      HeaderIff(env, t.runs[k]);
    }
    forall k, c | k in t.candidates && c in t.candidates[k] ensures FineCandidate(env, t.candidates[k][c]) {
      CandidateIff(env, t.candidates[k][c]);
    }
    forall k | k in t.judgments ensures FineJudgment(env, t.judgments[k]) {
      JudgmentIff(env, t.judgments[k]);
    }
  }

  /** Whatever the nine mutations are called with, and wherever their writes fail: in
      every state a store can reach no text is blank where it must not be, too long or a
      secret, every effect is the speaker's weight or takes one back whole, every row
      belongs where it says, and the snapshot is within the byte limit. */
  lemma FineForever(env: Env, h: Hashes, states: seq<State>, calls: seq<Mutation>, n: nat)
    requires IsRun(Mutations(env, h), states, calls) && n < |states| && Admitted(env, states[0].0)
    ensures FineTables(env, states[n].0)
    ensures env.encodedSize(Build(states[n].0)) <= env.limit
  {
    hide IsRun, Valid, Build, FineTables, TablesValid;
    AdmittedForever(env, h, states, calls, n);
    ValidIff(env, states[n].0);
    ValidIsFine(env, states[n].0);
  }

  // --------------------------------------------------------- the unscoped state

  predicate FineLegacyLens(env: Env, l: LegacyLens) {
    && Kept(env, l.id, 256) && Kept(env, l.name, 1024) && Kept(env, l.query, 65536)
    && Dated(env, l.createdAt, l.updatedAt)
  }

  predicate FineText(env: Env, v: Verdict) {
    && Kept(env, v.judgmentID, 256) && Kept(env, v.key, 1024) && Kept(env, v.runID, 256) && Kept(env, v.lensID, 256)
    && Kept(env, v.recordID, 1024) && Kept(env, v.createdAt, 256)
    && (|Trim(v.reason)| == 0 || |v.reason| <= 4096) && !env.secretLike(v.reason) && !env.secretLike(v.reversesID)
  }

  predicate Spoken(v: Verdict) {
    || (v.voice == User && v.disposition == Used && v.effect == 4)
    || (v.voice == User && v.disposition == Dismissed && v.effect == -4)
    || (v.voice == Helper && v.disposition == Used && v.effect == 1)
    || (v.voice == Helper && v.disposition == Dismissed && v.effect == -1)
  }

  /** Of the same run, lens and record, whoever says it, and nobody else's target. */
  predicate TakesBack(v: Verdict, o: Verdict) {
    && (v.voice == User || v.voice == Helper) && v.disposition == Reversed && o.reversesID == ""
    && (v.runID, v.lensID, v.recordID) == (o.runID, o.lensID, o.recordID) && v.effect + o.effect == 0
  }

  ghost predicate VerdictStands(env: Env, id: string -> string, l: LegacyTables, k: string)
    requires k in l.verdicts
  {
    var v := l.verdicts[k];
    && FineText(env, v) && v.judgmentID == id(v.key)
    && (forall m :: m in l.verdicts && l.verdicts[m].key == v.key ==> m == k)
    && (if v.reversesID == "" then Spoken(v)
        else && v.reversesID in l.verdicts && TakesBack(v, l.verdicts[v.reversesID])
             && forall m :: m in l.verdicts && l.verdicts[m].reversesID == v.reversesID ==> m == k)
  }

  /** An unscoped state is valid exactly when its rows say this. */
  lemma LegacyIff(env: Env, id: string -> string, l: LegacyTables)
    ensures LegacyValid(env, id, l) <==>
            && LegacyKeyed(l)
            && (forall k :: k in l.lenses ==> FineLegacyLens(env, l.lenses[k]))
            && (forall k :: k in l.verdicts ==> VerdictStands(env, id, l, k))
  {
    forall k | k in l.lenses ensures LegacyLensOK(env, l.lenses[k]) <==> FineLegacyLens(env, l.lenses[k]) {
      LegacyLensIff(env, l.lenses[k]);
    }
    if LegacyValid(env, id, l) {
      forall k | k in l.verdicts ensures VerdictStands(env, id, l, k) {
        ValidStands(env, id, l, k);
      }
    }
    if forall k :: k in l.verdicts ==> VerdictStands(env, id, l, k) {
      StandsFine(env, id, l);
    }
    hide LegacyLensOK, FineLegacyLens, VerdictFine, VerdictsPaired, VerdictStands, LegacyKeyed;
  }

  lemma LegacyLensIff(env: Env, l: LegacyLens)
    ensures LegacyLensOK(env, l) <==> FineLegacyLens(env, l)
  {
    var x := [l.id, l.name, l.query, l.createdAt, l.updatedAt];
    assert x[0] == l.id && x[1] == l.name && x[2] == l.query && x[3] == l.createdAt && x[4] == l.updatedAt;
    hide Trim;
  }

  lemma VerdictTextIff(env: Env, v: Verdict)
    ensures VerdictTextOK(env, v) <==> FineText(env, v)
  {
    var x := [v.judgmentID, v.key, v.runID, v.lensID, v.recordID, v.reason, v.reversesID, v.createdAt];
    assert x[0] == v.judgmentID && x[1] == v.key && x[2] == v.runID && x[3] == v.lensID && x[4] == v.recordID;
    assert x[5] == v.reason && x[6] == v.reversesID && x[7] == v.createdAt;
    hide Trim;
  }

  lemma ValidStands(env: Env, id: string -> string, l: LegacyTables, k: string)
    requires LegacyValid(env, id, l) && k in l.verdicts
    ensures VerdictStands(env, id, l, k)
  {
    hide VerdictTextOK, FineText, LegacyKeyed, LegacyLensOK;
    VerdictTextIff(env, l.verdicts[k]);
  }

  lemma StandsFine(env: Env, id: string -> string, l: LegacyTables)
    requires forall k :: k in l.verdicts ==> VerdictStands(env, id, l, k)
    ensures forall k :: k in l.verdicts ==> VerdictFine(env, id, l.verdicts[k])
    ensures VerdictsPaired(env, l.verdicts)
  {
    hide VerdictStands, VerdictFine, ReversalOK;
    forall k | k in l.verdicts
      ensures VerdictFine(env, id, l.verdicts[k])
      ensures l.verdicts[k].reversesID != "" ==>
                && l.verdicts[k].reversesID in l.verdicts && l.verdicts[l.verdicts[k].reversesID].reversesID == ""
                && ReversalOK(env, l.verdicts[k], l.verdicts[l.verdicts[k].reversesID])
    {
      StandsAlone(env, id, l, k);
    }
    forall k, m | k in l.verdicts && m in l.verdicts && k != m
      ensures l.verdicts[k].key != l.verdicts[m].key
      ensures l.verdicts[k].reversesID != "" ==> l.verdicts[k].reversesID != l.verdicts[m].reversesID
    {
      StandApart(env, id, l, k, m);
    }
  }

  lemma StandsAlone(env: Env, id: string -> string, l: LegacyTables, k: string)
    requires k in l.verdicts && VerdictStands(env, id, l, k)
    ensures VerdictFine(env, id, l.verdicts[k])
    ensures l.verdicts[k].reversesID != "" ==>
              && l.verdicts[k].reversesID in l.verdicts && l.verdicts[l.verdicts[k].reversesID].reversesID == ""
              && ReversalOK(env, l.verdicts[k], l.verdicts[l.verdicts[k].reversesID])
  {
    hide VerdictTextOK, FineText;
    VerdictTextIff(env, l.verdicts[k]);
  }

  lemma StandApart(env: Env, id: string -> string, l: LegacyTables, k: string, m: string)
    requires k in l.verdicts && m in l.verdicts && k != m && VerdictStands(env, id, l, k)
    ensures l.verdicts[k].key != l.verdicts[m].key
    ensures l.verdicts[k].reversesID != "" ==> l.verdicts[k].reversesID != l.verdicts[m].reversesID
  {
    hide FineText, Spoken, TakesBack;
  }
}
