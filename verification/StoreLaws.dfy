/** What the store's calls do to rows, contexts and sums, in the callers' own terms. */
module StoreLaws {
  import opened Text
  import opened ScopedModel
  import opened Preflight
  import opened Feedback
  import opened ScopedStore
  import opened FeedbackHistory
  import opened StoreHistory
  import opened Histories

  // ------------------------------------------------------- archived contexts

  /** A scope, lens or agent the context names is there and is not active. */
  ghost predicate Dormant(t: Tables, c: Context) {
    || (c.scopeID in t.scopes && !t.scopes[c.scopeID].status.Active?)
    || ((c.scopeID, c.lensID) in t.lenses && !t.lenses[(c.scopeID, c.lensID)].status.Active?)
    || (c.agentID in t.actors && !t.actors[c.agentID].status.Active?)
  }

  /** All three are there and active. */
  ghost predicate Awake(t: Tables, c: Context) {
    && c.scopeID in t.scopes && t.scopes[c.scopeID].status.Active?
    && (c.scopeID, c.lensID) in t.lenses && t.lenses[(c.scopeID, c.lensID)].status.Active?
    && c.agentID in t.actors && t.actors[c.agentID].status.Active?
  }

  function Trims(c: Context): Context {
    Context(Trim(c.scopeID), Trim(c.lensID), Trim(c.agentID))
  }

  lemma ResolvesIff(t: Tables, c: Context)
    ensures Resolves(t, c) <==>
            Awake(t, c) && Bounded(c.scopeID, 256) && Bounded(c.lensID, 256) && Bounded(c.agentID, 256)
    ensures Dormant(t, c) ==> !Awake(t, c)
  {
    hide Bounded;
  }

  /** A dormant context is told nothing and shown nothing. */
  method AskDormant(store: Store, run: string, c: Context, record: string, records: seq<string>)
    returns (hydrated: Option<(string, Source)>, told: Option<map<string, real>>)
    requires Admitted(store.env, store.tables) && Dormant(store.tables, Trims(c))
    ensures hydrated.None? && (records != [] ==> told.None?)
  {
    ResolvesIff(store.tables, Trims(c));
    AdmittedKeyed(store.env, store.tables);
    hide Admitted, Keyed, Resolves, Dormant, Awake, Trim, Bounded, SourceOK, Counted, Total, Scaled, Feedback.Standing;
    hydrated := store.RequireCandidate(run, c, record);
    told := store.Relevance(c, records);
  }

  /** One whose three rows are active is told about up to a hundred thousand records. */
  method AskAwake(store: Store, c: Context, records: seq<string>) returns (told: Option<map<string, real>>)
    requires Admitted(store.env, store.tables) && Awake(store.tables, Trims(c)) && |records| <= 100000
    requires Bounded(Trim(c.scopeID), 256) && Bounded(Trim(c.lensID), 256) && Bounded(Trim(c.agentID), 256)
    ensures told.Some?
  {
    ResolvesIff(store.tables, Trims(c));
    hide Admitted, Resolves, Awake, Trim, Bounded, Counted, Total, Scaled, Feedback.Standing;
    told := store.Relevance(c, records);
  }

  /** No trace is saved in a dormant context. */
  method SaveDormant(store: Store, h: RunHeader, traces: seq<Trace>, fault: Fault) returns (reply: Reply<()>)
    requires Keyed(store.tables) && Dormant(store.tables, Context(Trim(h.scopeID), Trim(h.lensID), Trim(h.agentID)))
    modifies store
    ensures reply.Refused? && store.tables == old(store.tables) && store.sidecar == old(store.sidecar)
  {
    ghost var c := Context(Trim(h.scopeID), Trim(h.lensID), Trim(h.agentID));
    ResolvesIff(store.tables, c);
    hide Keyed, Resolves, Dormant, Awake, Trim, Bounded, Writes, HeaderOK, TraceOK, DistinctTraces, TrimmedTraces;
    reply := store.SaveRetrieval(h, traces, fault);
  }

  /** Any judgment that is added is on a record its run showed, in the run's own scope
      and lens, an agent's in the agent's own run, and the run's context is awake. */
  lemma AddedAwake(env: Env, h: Hashes, t: Tables, q: Request, now: string, reply: Reply<Judgment>, u: Tables)
    returns (d: Judgment)
    requires FeedbackStep(env, h, t, q, now, reply, u) && u != t
    ensures d.judgmentID !in t.judgments && u == t.(judgments := t.judgments[d.judgmentID := d])
    ensures d.runID in t.runs && d.runID in t.candidates && d.recordID in t.candidates[d.runID]
    ensures var run := t.runs[d.runID];
            && run.scopeID == d.scopeID && run.lensID == d.lensID && (d.actor.Agent? ==> run.agentID == d.agentID)
            && Awake(t, Trims(Context(run.scopeID, run.lensID, run.agentID)))
  {
    d := StepAdds(env, h, t, q, now, reply, u);
    hide FeedbackStep, KeyOf, EffectOf, UnderToken;
    ResolvesIff(t, Trims(Context(d.scopeID, d.lensID, t.runs[d.runID].agentID)));
    hide Bounded, Trim;
  }

  // ------------------------------------------------------ rows over any history

  /** Scopes, lenses, agents, runs and judgments are never removed; their identity and
      creation time never change; what is archived stays archived; and traces, source
      bindings and judgments are never changed at all. */
  ghost predicate Onward(t: Tables, u: Tables) {
    && (forall k :: k in t.scopes ==> k in u.scopes && u.scopes[k].createdAt == t.scopes[k].createdAt &&
                                      (!t.scopes[k].status.Active? ==> !u.scopes[k].status.Active?))
    && (forall k :: k in t.lenses ==> k in u.lenses && u.lenses[k].createdAt == t.lenses[k].createdAt &&
                                      (!t.lenses[k].status.Active? ==> !u.lenses[k].status.Active?))
    && (forall k :: k in t.actors ==> k in u.actors && u.actors[k].createdAt == t.actors[k].createdAt &&
                                      (!t.actors[k].status.Active? ==> !u.actors[k].status.Active?))
    && (forall k :: k in t.runs ==> k in u.runs && u.runs[k] == t.runs[k])
    && (forall k :: k in t.candidates ==> k in u.candidates && u.candidates[k] == t.candidates[k])
    && (forall k :: k in t.judgments ==> k in u.judgments && u.judgments[k] == t.judgments[k])
  }

  /** Rows that are new are active and dated by the call that wrote them. */
  ghost predicate BornActive(t: Tables, u: Tables) {
    && (forall k :: k in u.scopes && k !in t.scopes ==>
          u.scopes[k].status.Active? && u.scopes[k].createdAt == u.scopes[k].updatedAt)
    && (forall k :: k in u.lenses && k !in t.lenses ==>
          u.lenses[k].status.Active? && u.lenses[k].createdAt == u.lenses[k].updatedAt)
    && (forall k :: k in u.actors && k !in t.actors ==>
          u.actors[k].status.Active? && u.actors[k].createdAt == u.actors[k].updatedAt)
  }

  /** The puts carry no status of their own. */
  predicate Plainly(m: Mutation) {
    match m
    case PutScopeCall(p, _, _) => p.status == OtherStatus("")
    case PutLensCall(p, _, _) => p.status == OtherStatus("")
    case _ => true
  }

  lemma ScopesOnward(t: Tables, row: Scope)
    requires row.id in t.scopes ==>
               row.createdAt == t.scopes[row.id].createdAt && (row.status.Active? ==> t.scopes[row.id].status.Active?)
    requires row.id !in t.scopes ==> row.status.Active? && row.createdAt == row.updatedAt
    ensures Onward(t, WithScope(t, row)) && BornActive(t, WithScope(t, row))
  {
  }

  lemma LensesOnward(t: Tables, row: Lens)
    requires var k := (row.scopeID, row.id);
             k in t.lenses ==>
               row.createdAt == t.lenses[k].createdAt && (row.status.Active? ==> t.lenses[k].status.Active?)
    requires (row.scopeID, row.id) !in t.lenses ==> row.status.Active? && row.createdAt == row.updatedAt
    ensures Onward(t, WithLens(t, row)) && BornActive(t, WithLens(t, row))
  {
  }

  lemma ActorsOnward(t: Tables, row: AgentActor)
    requires row.id in t.actors ==>
               row.createdAt == t.actors[row.id].createdAt && (row.status.Active? ==> t.actors[row.id].status.Active?)
    requires row.id !in t.actors ==> row.status.Active? && row.createdAt == row.updatedAt
    ensures Onward(t, WithActor(t, row)) && BornActive(t, WithActor(t, row))
  {
  }

  lemma TraceOnward(t: Tables, h: RunHeader, xs: seq<Trace>)
    requires DistinctTraces(xs) && h.runID !in t.runs && t.candidates.Keys == t.runs.Keys
    ensures Onward(t, WithTrace(t, h, xs)) && BornActive(t, WithTrace(t, h, xs))
  {
    hide DistinctTraces, CandidateTable, SourceTable;
  }

  lemma JudgmentOnward(t: Tables, d: Judgment)
    requires d.judgmentID !in t.judgments
    ensures Onward(t, WithJudgment(t, d)) && BornActive(t, WithJudgment(t, d))
  {
  }

  /** A write leaves the tables as they were or with its row. */
  lemma WriteLeaves<T>(env: Env, asked: bool, row: T, before: State, after: Tables, fault: Fault, reply: Reply<T>,
                       state: State)
    requires Writes(env, asked, row, before, after, fault, reply, state)
    ensures state.0 == before.0 || state.0 == after
  {
    hide Projects;
  }

  lemma ArchiveOnward(env: Env, h: Hashes, s: State, m: Mutation, t: State)
    requires Mutates(env, h, s, m, t) && Keyed(s.0)
    requires m.ArchiveScopeCall? || m.ArchiveLensCall? || m.ArchiveActorCall?
    ensures Onward(s.0, t.0) && BornActive(s.0, t.0)
  {
    RowsKeyed(s.0);
    Same(s.0);
    hide Keyed, Onward, BornActive, Writes, WithScope, WithLens, WithActor, Bounded;
    match m
    case ArchiveScopeCall(id, now, fault, r) =>
      if t.0 != s.0 {
        var row := s.0.scopes[id].(status := Archived, updatedAt := now);
        WriteLeaves(env, true, row, s, WithScope(s.0, row), fault, r, t);
        ScopesOnward(s.0, row);
      }
    case ArchiveLensCall(key, now, fault, r) =>
      if t.0 != s.0 {
        var row := s.0.lenses[key].(status := Archived, updatedAt := now);
        WriteLeaves(env, true, row, s, WithLens(s.0, row), fault, r, t);
        LensesOnward(s.0, row);
      }
    case ArchiveActorCall(id, now, fault, r) =>
      if t.0 != s.0 {
        var row := s.0.actors[id].(status := Archived, updatedAt := now);
        WriteLeaves(env, true, row, s, WithActor(s.0, row), fault, r, t);
        ActorsOnward(s.0, row);
      }
  }

  /** Whichever of the nine calls is made, and however it ends. */
  lemma StepOnward(env: Env, h: Hashes, s: State, m: Mutation, t: State)
    requires Mutates(env, h, s, m, t) && Keyed(s.0) && Plainly(m)
    ensures Onward(s.0, t.0) && BornActive(s.0, t.0)
  {
    RowsKeyed(s.0);
    Same(s.0);
    hide Keyed, Onward, BornActive, Writes, ScopeAsked, LensAsked, ActorAsked, RegistrationAsked, TraceAsked,
         FeedbackStep, RetrievalSaved, Settled, WithScope, WithLens, WithActor, Bounded;
    match m
    case PutScopeCall(p, fault, r) =>
      var row := UpsertedScope(s.0, p);
      WriteLeaves(env, ScopeAsked(env, p), row, s, WithScope(s.0, row), fault, r, t);
      ScopesOnward(s.0, row);
    case ArchiveScopeCall(id, now, fault, r) =>
      ArchiveOnward(env, h, s, m, t);
    case PutLensCall(p, fault, r) =>
      var row := UpsertedLens(s.0, p);
      WriteLeaves(env, LensAsked(env, s.0, p), row, s, WithLens(s.0, row), fault, r, t);
      LensesOnward(s.0, row);
    case ArchiveLensCall(key, now, fault, r) =>
      ArchiveOnward(env, h, s, m, t);
    case PutActorCall(id, name, now, fault, r) =>
      var row := UpsertedActor(s.0, AgentActor(id, name, UNSET, "", now));
      WriteLeaves(env, ActorAsked(env, id, name), row, s, WithActor(s.0, row), fault, r, t);
      ActorsOnward(s.0, row);
    case RegisterActorCall(id, name, now, fault, r) =>
      var row := if id in s.0.actors then s.0.actors[id] else AgentActor(id, name, Active, now, now);
      WriteLeaves(env, RegistrationAsked(env, s.0, id, name), row, s, WithActor(s.0, row), fault, r, t);
      ActorsOnward(s.0, row);
    case ArchiveActorCall(id, now, fault, r) =>
      ArchiveOnward(env, h, s, m, t);
    case SaveRetrievalCall(header, xs, fault, r) =>
      SaveOnward(env, s, header, xs, fault, r, t);
    case ApplyJudgmentCall(q, now, r) =>
      JudgeOnward(env, h, s.0, q, now, r, t.0);
  }

  lemma SaveOnward(env: Env, s: State, header: RunHeader, xs: seq<Trace>, fault: Fault, reply: Reply<()>, t: State)
    requires RetrievalSaved(env, s, header, xs, fault, reply, t) && Keyed(s.0)
    ensures Onward(s.0, t.0) && BornActive(s.0, t.0)
  {
    RowsKeyed(s.0);
    Same(s.0);
    hide Keyed, Onward, BornActive, Writes, TraceAsked, WithTrace, DistinctTraces;
    if TraceAsked(env, s.0, header, xs) {
      TraceNew(env, s.0, header, xs);
      WriteLeaves(env, true, (), s, WithTrace(s.0, header, xs), fault, reply, t);
      TraceOnward(s.0, header, xs);
    }
  }

  lemma JudgeOnward(env: Env, h: Hashes, t: Tables, q: Request, now: string, reply: Reply<Judgment>, u: Tables)
    requires FeedbackStep(env, h, t, q, now, reply, u)
    ensures Onward(t, u) && BornActive(t, u)
  {
    Same(t);
    hide *;
    if u != t {
      var d := StepAdds(env, h, t, q, now, reply, u);
      JudgmentOnward(t, d);
    }
  }

  lemma Same(t: Tables)
    ensures Onward(t, t) && BornActive(t, t)
  {
  }

  lemma TraceNew(env: Env, t: Tables, h: RunHeader, xs: seq<Trace>)
    requires TraceAsked(env, t, h, xs)
    ensures DistinctTraces(xs) && h.runID !in t.runs
  {
    hide HeaderOK, Resolves, TraceOK, DistinctTraces;
  }

  lemma RowsKeyed(t: Tables)
    requires Keyed(t)
    ensures forall k :: k in t.scopes ==> t.scopes[k].id == k
    ensures forall k :: k in t.lenses ==> (t.lenses[k].scopeID, t.lenses[k].id) == k
    ensures forall k :: k in t.actors ==> t.actors[k].id == k
    ensures t.candidates.Keys == t.runs.Keys
  {
    hide KeyedCandidates, Linked;
  }

  /** Over any run of the calls nothing is lost, redated, rewritten or reactivated. */
  lemma OnwardForever(env: Env, h: Hashes, states: seq<State>, calls: seq<Mutation>, m: nat, n: nat)
    requires IsRun(Mutations(env, h), states, calls) && m <= n < |states| && Admitted(env, states[0].0)
    requires forall c :: c in calls ==> Plainly(c)
    ensures Onward(states[m].0, states[n].0)
  {
    hide Mutates, Admitted, Onward, Plainly;
    forall i | 0 <= i < |states| ensures Keyed(states[i].0) && Onward(states[i].0, states[i].0) {
      AdmittedForever(env, h, states, calls, i);
      AdmittedKeyed(env, states[i].0);
      Same(states[i].0);
    }
    hide Keyed;
    forall i | 0 <= i < |calls| ensures Onward(states[i].0, states[i + 1].0) {
      assert Mutations(env, h)(states[i], calls[i], states[i + 1]);
      StepOnward(env, h, states[i], calls[i], states[i + 1]);
    }
    Chain(states, m, n);
  }

  lemma {:induction false} Chain(states: seq<State>, m: nat, n: nat)
    requires m <= n < |states|
    requires forall i :: 0 <= i < |states| ==> Onward(states[i].0, states[i].0)
    requires forall i :: 0 <= i < |states| - 1 ==> Onward(states[i].0, states[i + 1].0)
    ensures Onward(states[m].0, states[n].0)
  {
    hide Onward;
    if m < n {
      Chain(states, m, n - 1);
      assert Onward(states[n - 1].0, states[n - 1 + 1].0);
      TwoSteps(states[m].0, states[n - 1].0, states[n].0);
    }
  }

  lemma TwoSteps(t: Tables, u: Tables, v: Tables)
    requires Onward(t, u) && Onward(u, v)
    ensures Onward(t, v)
  {
  }

  lemma StepOf(env: Env, h: Hashes, states: seq<State>, calls: seq<Mutation>, i: nat)
    requires IsRun(Mutations(env, h), states, calls) && i < |calls|
    ensures |states| == |calls| + 1 && Mutates(env, h, states[i], calls[i], states[i + 1])
  {
    hide Mutates;
    assert Mutations(env, h)(states[i], calls[i], states[i + 1]);
  }

  /** An acknowledged archive of a row the context names. */
  predicate Archives(m: Mutation, c: Context) {
    match m
    case ArchiveActorCall(id, _, _, r) => r.Acknowledged? && c.agentID == id
    case ArchiveScopeCall(id, _, _, r) => r.Acknowledged? && c.scopeID == id
    case ArchiveLensCall(key, _, _, r) => r.Acknowledged? && (c.scopeID, c.lensID) == key
    case _ => false
  }

  /** What was archived is archived for good: after an acknowledged archive, in every
      later state, every context that names the row is dormant. */
  lemma ArchivedForGood(env: Env, h: Hashes, states: seq<State>, calls: seq<Mutation>, i: nat, n: nat, c: Context)
    requires IsRun(Mutations(env, h), states, calls) && i < |calls| && i < n < |states|
    requires Admitted(env, states[0].0) && forall m :: m in calls ==> Plainly(m)
    requires Archives(calls[i], c)
    ensures Dormant(states[n].0, c)
  {
    hide *;
    StepOf(env, h, states, calls, i);
    AdmittedForever(env, h, states, calls, i);
    AdmittedKeyed(env, states[i].0);
    ArchiveLands(env, h, states[i], calls[i], states[i + 1], c);
    OnwardForever(env, h, states, calls, i + 1, n);
    StillDormant(states[i + 1].0, states[n].0, c);
  }

  lemma ArchiveLands(env: Env, h: Hashes, s: State, m: Mutation, t: State, c: Context)
    requires Mutates(env, h, s, m, t) && Keyed(s.0)
    requires Archives(m, c)
    ensures Dormant(t.0, c)
  {
    RowsKeyed(s.0);
    hide Keyed, Build, Projects, Bounded, FeedbackStep;
  }

  lemma StillDormant(t: Tables, u: Tables, c: Context)
    requires Dormant(t, c) && Onward(t, u)
    ensures Dormant(u, c)
  {
  }

  // ------------------------------------------------------ what a call leaves

  /** A put is granted exactly to plain texts within their bounds, outside the reserved
      rows and under an active scope, when the snapshots before and after are fit. */
  lemma PutsGranted(env: Env, s: State, p: Scope, q: Lens, id: string, name: string, now: string, fault: Fault,
                    x: Reply<Scope>, y: Reply<Lens>, z: Reply<AgentActor>, t: State, u: State, v: State)
    requires ScopePut(env, s, p, fault, x, t) && LensPut(env, s, q, fault, y, u)
    requires ActorPut(env, s, id, name, now, fault, z, v)
    ensures !x.Refused? <==>
              && p.id != "owner_root_scope" && Bounded(p.id, 256) && Bounded(p.name, 1024)
              && Bounded(p.purpose, 64 * 1024)
              && !env.secretLike(p.id) && !env.secretLike(p.name) && !env.secretLike(p.purpose)
              && Projects(env, Build(s.0), Build(WithScope(s.0, UpsertedScope(s.0, p))))
    ensures !y.Refused? <==>
              && q.scopeID in s.0.scopes && s.0.scopes[q.scopeID].status.Active?
              && Bounded(q.scopeID, 256) && Bounded(q.id, 256) && Bounded(q.name, 1024) && Bounded(q.query, 64 * 1024)
              && !env.secretLike(q.scopeID) && !env.secretLike(q.id) && !env.secretLike(q.name)
              && !env.secretLike(q.query)
              && Projects(env, Build(s.0), Build(WithLens(s.0, UpsertedLens(s.0, q))))
    ensures !z.Refused? <==>
              && id != "legacy_agent_actor" && Bounded(id, 256) && Bounded(name, 1024)
              && !env.secretLike(id) && !env.secretLike(name)
              && var a := UpsertedActor(s.0, AgentActor(id, name, UNSET, "", now));
                 Projects(env, Build(s.0), Build(WithActor(s.0, a)))
  {
    Secrets(env, [p.id, p.name, p.purpose]);
    Secrets(env, [q.scopeID, q.id, q.name, q.query]);
    Secrets(env, [id, name]);
    hide Settled, Projects, Bounded, AnySecret, UpsertedScope, UpsertedLens, UpsertedActor;
  }

  lemma Secrets(env: Env, texts: seq<string>)
    ensures AnySecret(env, texts) <==> exists x :: x in texts && env.secretLike(x)
  {
    if i :| 0 <= i < |texts| && env.secretLike(texts[i]) {
      assert texts[i] in texts;
    }
  }

  /** A scope that was put is stored as asked, whether it was there or not, and
      nothing else changes. */
  lemma ScopeLands(env: Env, s: State, p: Scope, fault: Fault, reply: Reply<Scope>, t: State)
    requires ScopePut(env, s, p, fault, reply, t) && !reply.Refused?
    ensures p.id in t.0.scopes && t.0 == s.0.(scopes := s.0.scopes[p.id := t.0.scopes[p.id]])
    ensures var row := t.0.scopes[p.id];
            && row.id == p.id && row.name == p.name && row.purpose == p.purpose && row.updatedAt == p.updatedAt
            && (reply.Acknowledged? ==> reply.value == row)
  {
    hide Projects, ScopeAsked;
  }

  lemma LensLands(env: Env, s: State, p: Lens, fault: Fault, reply: Reply<Lens>, t: State)
    requires LensPut(env, s, p, fault, reply, t) && !reply.Refused?
    ensures var k := (p.scopeID, p.id);
            && p.scopeID in s.0.scopes && s.0.scopes[p.scopeID].status.Active?
            && k in t.0.lenses && t.0 == s.0.(lenses := s.0.lenses[k := t.0.lenses[k]])
            && var row := t.0.lenses[k];
               && row.scopeID == p.scopeID && row.id == p.id && row.name == p.name && row.query == p.query
               && row.updatedAt == p.updatedAt && (reply.Acknowledged? ==> reply.value == row)
  {
    hide Projects, Bounded, AnySecret;
  }

  lemma ActorLands(env: Env, s: State, id: string, name: string, now: string, fault: Fault, reply: Reply<AgentActor>,
                   t: State)
    requires ActorPut(env, s, id, name, now, fault, reply, t) && !reply.Refused?
    ensures id != "legacy_agent_actor" && id in t.0.actors && t.0 == s.0.(actors := s.0.actors[id := t.0.actors[id]])
    ensures var row := t.0.actors[id];
            row.id == id && row.name == name && row.updatedAt == now && (reply.Acknowledged? ==> reply.value == row)
  {
    hide Projects, Bounded, AnySecret;
  }

  /** A registration answers with an active agent of that name, new or as it stands. */
  lemma RegistrationLands(env: Env, s: State, id: string, name: string, now: string, fault: Fault,
                          reply: Reply<AgentActor>, t: State)
    requires ActorRegistered(env, s, id, name, now, fault, reply, t) && !reply.Refused? && Keyed(s.0)
    ensures id in t.0.actors && t.0.actors[id].name == name && t.0.actors[id].status.Active?
    ensures id in s.0.actors ==> t.0 == s.0
    ensures id !in s.0.actors ==> t.0 == s.0.(actors := s.0.actors[id := AgentActor(id, name, Active, now, now)])
    ensures reply.Acknowledged? ==> reply.value == t.0.actors[id]
  {
    RowsKeyed(s.0);
    hide Keyed, Projects, Bounded, AnySecret, RegisteredID;
    if id in s.0.actors {
      assert s.0.actors[id := s.0.actors[id]] == s.0.actors;
    }
  }

  /** A run's rows are those of its traces, one candidate and one source for each. */
  ghost predicate Shows(t: Tables, run: string, xs: seq<Trace>) {
    && run in t.candidates
    && (forall i :: 0 <= i < |xs| ==>
          && xs[i].candidate.recordID in t.candidates[run]
          && t.candidates[run][xs[i].candidate.recordID] == xs[i].candidate
          && (run, xs[i].candidate.recordID) in t.sources
          && t.sources[(run, xs[i].candidate.recordID)] == xs[i].source)
    && (forall record :: record in t.candidates[run] ==>
          exists i :: 0 <= i < |xs| && xs[i].candidate.recordID == record)
  }

  /** A saved run is stored with its header, its candidates and their sources. */
  lemma TraceLands(env: Env, s: State, h: RunHeader, xs: seq<Trace>, fault: Fault, reply: Reply<()>, t: State)
    requires RetrievalSaved(env, s, h, xs, fault, reply, t) && !reply.Refused?
    ensures h.runID !in s.0.runs && t.0.runs == s.0.runs[h.runID := h] && Shows(t.0, h.runID, xs)
    ensures t.0.scopes == s.0.scopes && t.0.lenses == s.0.lenses && t.0.actors == s.0.actors
    ensures t.0.judgments == s.0.judgments
  {
    TraceCommitted(env, s, h, xs, fault, reply, t);
    hide *;
    WithTraceShows(s.0, h, xs);
  }

  lemma TraceCommitted(env: Env, s: State, h: RunHeader, xs: seq<Trace>, fault: Fault, reply: Reply<()>, t: State)
    requires RetrievalSaved(env, s, h, xs, fault, reply, t) && !reply.Refused?
    ensures DistinctTraces(xs) && h.runID !in s.0.runs && t.0 == WithTrace(s.0, h, xs)
  {
    hide HeaderOK, Resolves, TraceOK, DistinctTraces, Projects, WithTrace;
  }

  lemma WithTraceShows(t: Tables, h: RunHeader, xs: seq<Trace>)
    requires DistinctTraces(xs)
    ensures var u := WithTrace(t, h, xs);
            && u.runs == t.runs[h.runID := h] && Shows(u, h.runID, xs) && u.judgments == t.judgments
            && u.scopes == t.scopes && u.lenses == t.lenses && u.actors == t.actors
  {
    hide CandidateTable, SourceTable, DistinctTraces, Shows;
    ShowsTables(WithTrace(t, h, xs), h.runID, xs);
  }

  lemma ShowsTables(u: Tables, run: string, xs: seq<Trace>)
    requires DistinctTraces(xs) && run in u.candidates && u.candidates[run] == CandidateTable(xs)
    requires forall k :: k in SourceTable(run, xs) ==> k in u.sources && u.sources[k] == SourceTable(run, xs)[k]
    ensures Shows(u, run, xs)
  {
    hide CandidateTable, SourceTable, DistinctTraces;
    forall i | 0 <= i < |xs|
      ensures xs[i].candidate.recordID in CandidateTable(xs)
      ensures CandidateTable(xs)[xs[i].candidate.recordID] == xs[i].candidate
    {
      CandidateRow(xs, i);
    }
    SourceRows(run, xs);
    CandidatesOnly(xs);
  }

  lemma SourceRows(run: string, xs: seq<Trace>)
    requires DistinctTraces(xs)
    ensures forall i :: 0 <= i < |xs| ==>
              (run, xs[i].candidate.recordID) in SourceTable(run, xs) &&
              SourceTable(run, xs)[(run, xs[i].candidate.recordID)] == xs[i].source
  {
  }

  lemma CandidatesOnly(xs: seq<Trace>)
    requires DistinctTraces(xs)
    ensures forall record :: record in CandidateTable(xs) ==>
              exists i :: 0 <= i < |xs| && xs[i].candidate.recordID == record
  {
  }

  /** Right after a run was saved, hydration is granted to exactly its own context, for
      exactly the records it showed, with the library and the sources it was saved with. */
  method SaveThenHydrate(store: Store, h: RunHeader, traces: seq<Trace>, fault: Fault, c: Context, record: string)
    returns (reply: Reply<()>, hydrated: Option<(string, Source)>)
    requires Keyed(store.tables)
    modifies store
    ensures reply.Acknowledged? ==>
              (hydrated.Some? <==>
                 && Trims(c) == Context(Trim(h.scopeID), Trim(h.lensID), Trim(h.agentID))
                 && exists i :: 0 <= i < |traces| && Trim(traces[i].candidate.recordID) == Trim(record))
    ensures reply.Acknowledged? && hydrated.Some? ==>
              forall i :: 0 <= i < |traces| && Trim(traces[i].candidate.recordID) == Trim(record) ==>
                hydrated.value == (h.library, traces[i].source)
  {
    ghost var before := store.State();
    ghost var g, xs := TrimmedHeader(h), TrimmedTraces(traces);
    hide *;
    reply := store.SaveRetrieval(h, traces, fault);
    hydrated := store.RequireCandidate(h.runID, c, record);
    if reply.Acknowledged? {
      TraceLands(store.env, before, g, xs, fault, reply, store.State());
      AskedInOrder(store.env, before, g, xs, fault, reply, store.State());
      StoreIs(store);
      Hydrated(store.env, store.tables, h, traces, c, record);
    }
  }

  /** A trace as it may be saved: ranked, naming its record, and bound to one of the two
      kinds of source. */
  predicate FineTrace(x: Trace) {
    && x.candidate.rank >= 1 && Trim(x.candidate.recordID) != ""
    && x.source.schema == "mindline-compact-source-binding/v0.1"
    && (x.source.kind == "record_source" || x.source.kind == "current_resource")
  }

  /** A run is saved under its own texts, trimmed, and only with traces in order. */
  method SaveStores(store: Store, h: RunHeader, traces: seq<Trace>, fault: Fault) returns (reply: Reply<()>)
    requires Keyed(store.tables)
    modifies store
    ensures !reply.Refused? ==>
              && Trim(h.runID) in store.tables.runs
              && store.tables.runs[Trim(h.runID)] ==
                 RunHeader(Trim(h.runID), Trim(h.query), Trim(h.scopeID), Trim(h.lensID), Trim(h.agentID),
                           h.retrievalMethod, h.library, h.createdAt)
              && |traces| <= 100 && forall x :: x in traces ==> FineTrace(x)
  {
    ghost var before := store.State();
    HeaderIs(h);
    TracesAre(store.env, traces);
    hide *;
    reply := store.SaveRetrieval(h, traces, fault);
    if !reply.Refused? {
      TraceLands(store.env, before, TrimmedHeader(h), TrimmedTraces(traces), fault, reply, store.State());
      AskedInOrder(store.env, before, TrimmedHeader(h), TrimmedTraces(traces), fault, reply, store.State());
      StoreIs(store);
    }
  }

  lemma HeaderIs(h: RunHeader)
    ensures TrimmedHeader(h) ==
            RunHeader(Trim(h.runID), Trim(h.query), Trim(h.scopeID), Trim(h.lensID), Trim(h.agentID),
                      h.retrievalMethod, h.library, h.createdAt)
  {
  }

  lemma TracesAre(env: Env, traces: seq<Trace>)
    ensures |TrimmedTraces(traces)| == |traces|
    ensures (forall i :: 0 <= i < |traces| ==> TraceOK(env, TrimmedTraces(traces)[i])) ==>
              forall x :: x in traces ==> FineTrace(x)
  {
    hide TraceOK, FineTrace, TrimmedTrace;
    if forall i :: 0 <= i < |traces| ==> TraceOK(env, TrimmedTraces(traces)[i]) {
      forall x | x in traces ensures FineTrace(x) {
        var i :| 0 <= i < |traces| && traces[i] == x;
        assert TrimmedTraces(traces)[i] == TrimmedTrace(traces[i]);
        TraceIsFine(env, x);
      }
    }
  }

  lemma TraceIsFine(env: Env, x: Trace)
    requires TraceOK(env, TrimmedTrace(x))
    ensures FineTrace(x)
  {
    hide HexDigest;
    assert Trim("") == "";
  }

  lemma StoreIs(store: Store)
    ensures store.State() == (store.tables, store.sidecar)
  {
  }

  /** Header and traces of a saved run were in order, and its context is awake. */
  lemma AskedInOrder(env: Env, s: State, h: RunHeader, xs: seq<Trace>, fault: Fault, reply: Reply<()>, t: State)
    requires RetrievalSaved(env, s, h, xs, fault, reply, t) && !reply.Refused?
    requires t.0.scopes == s.0.scopes && t.0.lenses == s.0.lenses && t.0.actors == s.0.actors
    ensures HeaderOK(env, h) && Resolves(t.0, Context(h.scopeID, h.lensID, h.agentID)) && |xs| <= 100
    ensures forall i :: 0 <= i < |xs| ==> TraceOK(env, xs[i])
  {
    hide HeaderOK, TraceOK, Writes, WithTrace, DistinctTraces, Bounded;
  }

  lemma Hydrated(env: Env, t: Tables, h: RunHeader, traces: seq<Trace>, c: Context, record: string)
    requires HeaderOK(env, TrimmedHeader(h)) && TrimmedHeader(h).runID in t.runs
    requires t.runs[TrimmedHeader(h).runID] == TrimmedHeader(h)
    requires Shows(t, TrimmedHeader(h).runID, TrimmedTraces(traces))
    requires Resolves(t, Context(TrimmedHeader(h).scopeID, TrimmedHeader(h).lensID, TrimmedHeader(h).agentID))
    requires forall i :: 0 <= i < |traces| ==> TraceOK(env, TrimmedTraces(traces)[i])
    ensures Hydrates(t, Trim(h.runID), ScopedStore.Trimmed(c), Trim(record)) <==>
              && Trims(c) == Context(Trim(h.scopeID), Trim(h.lensID), Trim(h.agentID))
              && exists i :: 0 <= i < |traces| && Trim(traces[i].candidate.recordID) == Trim(record)
    ensures t.runs[Trim(h.runID)].library == h.library
    ensures forall i :: 0 <= i < |traces| && Trim(traces[i].candidate.recordID) == Trim(record) ==>
              (Trim(h.runID), Trim(record)) in t.sources && t.sources[(Trim(h.runID), Trim(record))] == traces[i].source
  {
    var xs := TrimmedTraces(traces);
    assert forall i :: 0 <= i < |traces| ==>
        xs[i].candidate.recordID == Trim(traces[i].candidate.recordID) && xs[i].source == traces[i].source;
    hide Trim, Bounded, Resolves, AnySecret;
  }
}
