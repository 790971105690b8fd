/** Whole runs of the scoped store: what its tables and its sidecar are worth after
    any number of mutations, some refused, some cut short between the commit and
    the write. */
module StoreHistory {
  import opened Text
  import opened ScopedModel
  import opened Preflight
  import opened Feedback
  import opened ScopedStore
  import opened FeedbackHistory
  import opened Histories

  /** One mutation: what was asked, trimmed, and what was answered. */
  datatype Mutation =
    | PutScopeCall(scope: Scope, fault: Fault, scopeReply: Reply<Scope>)
    | ArchiveScopeCall(id: string, now: string, fault: Fault, scopeReply: Reply<Scope>)
    | PutLensCall(lens: Lens, fault: Fault, lensReply: Reply<Lens>)
    | ArchiveLensCall(key: (string, string), now: string, fault: Fault, lensReply: Reply<Lens>)
    | PutActorCall(id: string, name: string, now: string, fault: Fault, actorReply: Reply<AgentActor>)
    | RegisterActorCall(id: string, name: string, now: string, fault: Fault, actorReply: Reply<AgentActor>)
    | ArchiveActorCall(id: string, now: string, fault: Fault, actorReply: Reply<AgentActor>)
    | SaveRetrievalCall(header: RunHeader, traces: seq<Trace>, fault: Fault, saved: Reply<()>)
    | ApplyJudgmentCall(request: Request, now: string, judgmentReply: Reply<Judgment>)

  function Acknowledges(m: Mutation): bool {
    match m
    case PutScopeCall(_, _, r) => r.Acknowledged?
    case ArchiveScopeCall(_, _, _, r) => r.Acknowledged?
    case PutLensCall(_, _, r) => r.Acknowledged?
    case ArchiveLensCall(_, _, _, r) => r.Acknowledged?
    case PutActorCall(_, _, _, _, r) => r.Acknowledged?
    case RegisterActorCall(_, _, _, _, r) => r.Acknowledged?
    case ArchiveActorCall(_, _, _, r) => r.Acknowledged?
    case SaveRetrievalCall(_, _, _, r) => r.Acknowledged?
    case ApplyJudgmentCall(_, _, r) => r.Acknowledged?
  }

  /** A step of the store: whatever the called method's contract allows. */
  ghost predicate Mutates(env: Env, h: Hashes, s: State, m: Mutation, t: State) {
    match m
    case PutScopeCall(p, fault, r) => ScopePut(env, s, p, fault, r, t)
    case ArchiveScopeCall(id, now, fault, r) => ScopeArchived(env, s, id, now, fault, r, t)
    case PutLensCall(p, fault, r) => LensPut(env, s, p, fault, r, t)
    case ArchiveLensCall(key, now, fault, r) => LensArchived(env, s, key, now, fault, r, t)
    case PutActorCall(id, name, now, fault, r) => ActorPut(env, s, id, name, now, fault, r, t)
    case RegisterActorCall(id, name, now, fault, r) => ActorRegistered(env, s, id, name, now, fault, r, t)
    case ArchiveActorCall(id, now, fault, r) => ActorArchived(env, s, id, now, fault, r, t)
    case SaveRetrievalCall(header, xs, fault, r) => RetrievalSaved(env, s, header, xs, fault, r, t)
    case ApplyJudgmentCall(q, now, r) => Judged(env, h, s, q, now, r, t)
  }

  ghost function Mutations(env: Env, h: Hashes): (State, Mutation, State) -> bool {
    (s: State, m: Mutation, t: State) => Mutates(env, h, s, m, t)
  }

  // ---------------------------------------------------------- always admitted

  /** A granted write passed its preflight, so it leaves admitted tables. */
  lemma WriteAdmitted<T>(env: Env, asked: bool, row: T, before: State, after: Tables, fault: Fault, reply: Reply<T>,
                         state: State)
    requires Writes(env, asked, row, before, after, fault, reply, state) && Admitted(env, before.0)
    requires asked ==> Keyed(after)
    ensures Admitted(env, state.0)
  {
    hide Keyed, Valid, Build, Fits;
  }

  lemma StepAdmitted(env: Env, h: Hashes, s: State, m: Mutation, t: State)
    requires Mutates(env, h, s, m, t) && Admitted(env, s.0)
    ensures Admitted(env, t.0)
  {
    hide Keyed, Writes, Acceptable, Bounded, ActorAsked, ScopeAsked, LensOK, RegistrationAsked, WithScope, WithLens,
         WithActor, WithTrace, FeedbackStep, Settled;
    match m
    case PutScopeCall(p, fault, r) =>
      var row := UpsertedScope(s.0, p);
      WithScopeKeyed(s.0, row);
      WriteAdmitted(env, ScopeAsked(env, p), row, s, WithScope(s.0, row), fault, r, t);
    case ArchiveScopeCall(id, now, fault, r) =>
      if r.Refused? && t == s {
      } else {
        var row := s.0.scopes[id].(status := Archived, updatedAt := now);
        WithScopeKeyed(s.0, row);
        WriteAdmitted(env, true, row, s, WithScope(s.0, row), fault, r, t);
      }
    case PutLensCall(p, fault, r) =>
      var row := UpsertedLens(s.0, p);
      if row.scopeID in s.0.scopes {
        WithLensKeyed(s.0, row);
      }
      WriteAdmitted(env, LensAsked(env, s.0, p), row, s, WithLens(s.0, row), fault, r, t);
    case ArchiveLensCall(key, now, fault, r) =>
      if r.Refused? && t == s {
      } else {
        var row := s.0.lenses[key].(status := Archived, updatedAt := now);
        KeyedLens(s.0, key);
        WithLensKeyed(s.0, row);
        WriteAdmitted(env, true, row, s, WithLens(s.0, row), fault, r, t);
      }
    case PutActorCall(id, name, now, fault, r) =>
      var row := UpsertedActor(s.0, AgentActor(id, name, UNSET, "", now));
      WithActorKeyed(s.0, row);
      WriteAdmitted(env, ActorAsked(env, id, name), row, s, WithActor(s.0, row), fault, r, t);
    case RegisterActorCall(id, name, now, fault, r) =>
      var row := if id in s.0.actors then s.0.actors[id] else AgentActor(id, name, Active, now, now);
      WithActorKeyed(s.0, row);
      WriteAdmitted(env, RegistrationAsked(env, s.0, id, name), row, s, WithActor(s.0, row), fault, r, t);
    case ArchiveActorCall(id, now, fault, r) =>
      if r.Refused? && t == s {
      } else {
        var row := s.0.actors[id].(status := Archived, updatedAt := now);
        WithActorKeyed(s.0, row);
        WriteAdmitted(env, true, row, s, WithActor(s.0, row), fault, r, t);
      }
    case SaveRetrievalCall(header, xs, fault, r) =>
      if TraceAsked(env, s.0, header, xs) {
        WithTraceKeyed(env, s.0, header, xs);
        WriteAdmitted(env, true, (), s, WithTrace(s.0, header, xs), fault, r, t);
      }
    case ApplyJudgmentCall(q, now, r) =>
      FeedbackAdmitted(env, h, s.0, q, now, r, t.0);
  }

  lemma KeyedLens(t: Tables, key: (string, string))
    requires Keyed(t) && key in t.lenses
    ensures t.lenses[key].scopeID in t.scopes
  {
    hide KeyedCandidates;
  }

  lemma FeedbackAdmitted(env: Env, h: Hashes, t: Tables, q: Request, now: string, reply: Reply<Judgment>, u: Tables)
    requires FeedbackStep(env, h, t, q, now, reply, u) && Admitted(env, t)
    ensures Admitted(env, u)
  {
    hide Keyed, Valid, Fits, Build, WellFormed, Granted, WithJudgment, Drafted;
    if u != t {
      WithJudgmentKeyed(t, Drafted(h, t, q, now).value);
    }
  }

  /** From an admitted state on, the tables always pass the recovery validator and
      their snapshot always fits: every mutation's own guard sees to it. */
  lemma AdmittedForever(env: Env, h: Hashes, states: seq<State>, calls: seq<Mutation>, n: nat)
    requires IsRun(Mutations(env, h), states, calls) && n < |states| && Admitted(env, states[0].0)
    ensures Admitted(env, states[n].0)
  {
    hide Admitted, Mutates;
    var inv := (s: State) => Admitted(env, s.0);
    forall i | 0 <= i < |calls| && inv(states[i]) && Mutations(env, h)(states[i], calls[i], states[i + 1])
      ensures inv(states[i + 1])
    {
      StepAdmitted(env, h, states[i], calls[i], states[i + 1]);
    }
    Always(Mutations(env, h), inv, states, calls, n);
  }

  // ----------------------------------------------------- the sidecar over time

  lemma StepSettles(env: Env, h: Hashes, s: State, m: Mutation, t: State)
    requires Mutates(env, h, s, m, t)
    ensures t.1 == Some(Build(t.0)) || (t.1 == s.1 && !Acknowledges(m))
  {
    hide Build, Projects, Bounded, ScopeAsked, LensAsked, ActorAsked, RegistrationAsked, TraceAsked, FeedbackStep,
         WithTrace;
  }

  /** The sidecar lists the tables as they were at some point, and every mutation
      acknowledged so far came before that point: what a recovery restores holds
      everything that was ever acknowledged, up to later committed changes. */
  lemma {:induction false} SidecarIsCurrent(env: Env, h: Hashes, states: seq<State>, calls: seq<Mutation>, n: nat)
    returns (k: nat)
    requires IsRun(Mutations(env, h), states, calls) && n < |states|
    requires states[0].1 == Some(Build(states[0].0))
    ensures k <= n && states[n].1 == Some(Build(states[k].0))
    ensures forall i :: 0 <= i < n && Acknowledges(calls[i]) ==> i < k
  {
    hide Build, Mutates, Acknowledges;
    k := 0;
    if n > 0 {
      k := SidecarIsCurrent(env, h, states, calls, n - 1);
      assert Mutations(env, h)(states[n - 1], calls[n - 1], states[n]);
      StepSettles(env, h, states[n - 1], calls[n - 1], states[n]);
      if states[n].1 == Some(Build(states[n].0)) {
        k := n;
      }
    }
  }

  /** No mutation changes or removes a stored judgment. */
  lemma StepExtends(env: Env, h: Hashes, s: State, m: Mutation, t: State)
    requires Mutates(env, h, s, m, t)
    ensures Extends(s.0, t.0)
  {
    hide Build, Projects, Bounded, ScopeAsked, LensAsked, ActorAsked, RegistrationAsked, TraceAsked, WellFormed,
         Granted, Drafted, CandidateTable, SourceTable;
  }

  lemma JudgmentsKept(env: Env, h: Hashes, states: seq<State>, calls: seq<Mutation>, m: nat, n: nat)
    requires IsRun(Mutations(env, h), states, calls) && m <= n < |states|
    ensures Extends(states[m].0, states[n].0)
  {
    hide Mutates;
    var rel := (s: State, t: State) => Extends(s.0, t.0);
    forall s, i {:trigger rel(s, states[i]), calls[i]}
      | 0 <= i < |calls| && rel(s, states[i]) && Mutations(env, h)(states[i], calls[i], states[i + 1])
      ensures rel(s, states[i + 1])
    {
      StepExtends(env, h, states[i], calls[i], states[i + 1]);
    }
    AlwaysSince(Mutations(env, h), rel, states, calls, m, n);
  }

  lemma AcknowledgedIsStored(env: Env, h: Hashes, t: Tables, q: Request, now: string, reply: Reply<Judgment>, u: Tables)
    requires FeedbackStep(env, h, t, q, now, reply, u) && reply.Acknowledged?
    ensures reply.value in u.judgments.Values
  {
    hide WellFormed, Granted, Drafted, Projects, Build;
    if u != t {
      assert u.judgments[reply.value.judgmentID] == reply.value;
    }
  }

  lemma ExtendsKeeps(t: Tables, u: Tables, j: Judgment)
    requires Extends(t, u) && j in t.judgments.Values
    ensures j in u.judgments.Values
  {
    var id :| id in t.judgments && t.judgments[id] == j;
    assert u.judgments[id] == j;
  }

  /** Acknowledged feedback survives: whatever is called afterwards, the sidecar a
      recovery reads lists a state that holds the judgment. */
  lemma AcknowledgedFeedbackSurvives(env: Env, h: Hashes, states: seq<State>, calls: seq<Mutation>, i: nat, n: nat)
    returns (k: nat)
    requires IsRun(Mutations(env, h), states, calls) && i < n < |states|
    requires states[0].1 == Some(Build(states[0].0))
    requires calls[i].ApplyJudgmentCall? && calls[i].judgmentReply.Acknowledged?
    ensures k < |states| && states[n].1 == Some(Build(states[k].0))
    ensures calls[i].judgmentReply.value in states[k].0.judgments.Values
  {
    hide Build, FeedbackStep, Extends, Settled;
    assert Mutations(env, h)(states[i], calls[i], states[i + 1]);
    assert Mutates(env, h, states[i], calls[i], states[i + 1]);
    AcknowledgedIsStored(env, h, states[i].0, calls[i].request, calls[i].now, calls[i].judgmentReply, states[i + 1].0);
    hide *;
    assert Acknowledges(calls[i]) by { AcknowledgedCall(calls[i]); }
    k := SidecarIsCurrent(env, h, states, calls, n);
    JudgmentsKept(env, h, states, calls, i + 1, k);
    ExtendsKeeps(states[i + 1].0, states[k].0, calls[i].judgmentReply.value);
  }

  lemma AcknowledgedCall(m: Mutation)
    requires m.ApplyJudgmentCall? && m.judgmentReply.Acknowledged?
    ensures Acknowledges(m)
  {
  }
}
