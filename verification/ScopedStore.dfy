/** The scoped store: committed tables and the sidecar that mirrors them. Every
    mutation passes its preflight, commits, then rewrites the sidecar; it is
    acknowledged only when the sidecar holds the new state. */
module ScopedStore {
  import opened Text
  import opened Ordering
  import opened ScopedModel
  import opened ScopedRecovery
  import opened Preflight
  import opened Feedback

  const OWNER_ROOT := "owner_root_scope"
  const LEGACY_AGENT := "legacy_agent_actor"
  const BINDING_SCHEMA := "mindline-compact-source-binding/v0.1"

  /** How a sidecar write may end: done, or failed with the old or the new content in place. */
  datatype Fault = Clean | FailedBefore | FailedAfter

  /** Refused: nothing changed. Unwritten: committed, but the sidecar write
      failed and the caller got an error. Acknowledged: both hold the change. */
  datatype Reply<+T> = Refused | Unwritten | Acknowledged(value: T)

  datatype Trace = Trace(candidate: Candidate, source: Source)

  /** An agent's or owner's judgment as asked for. */
  datatype Request = Request(key: string, retryToken: string, runID: string, scopeID: string,
                             lensID: string, agentID: string, recordID: string, actor: Actor,
                             disposition: Disposition, reason: string, reversesID: string)

  const NO_DISPOSITION: Disposition := OtherDisposition("")

  // ------------------------------------------------------------- pure parts

  /** resolveScopedContext: all three exist and all three are active. */
  predicate Resolves(t: Tables, c: Context) {
    && Bounded(c.scopeID, 256) && Bounded(c.lensID, 256) && Bounded(c.agentID, 256)
    && c.scopeID in t.scopes && (c.scopeID, c.lensID) in t.lenses && c.agentID in t.actors
    && t.scopes[c.scopeID].status.Active? && t.lenses[(c.scopeID, c.lensID)].status.Active?
    && t.actors[c.agentID].status.Active?
  }

  function Trimmed(c: Context): Context {
    Context(Trim(c.scopeID), Trim(c.lensID), Trim(c.agentID))
  }

  function Normalized(q: Request): Request {
    q.(key := Trim(q.key), retryToken := Trim(q.retryToken), runID := Trim(q.runID),
       scopeID := Trim(q.scopeID), lensID := Trim(q.lensID), agentID := Trim(q.agentID),
       recordID := Trim(q.recordID), reason := Trim(q.reason), reversesID := Trim(q.reversesID))
  }

  /** validateScopedJudgmentRequest */
  predicate WellFormed(env: Env, q: Request) {
    && Bounded(q.scopeID, 256) && Bounded(q.lensID, 256)
    && ((q.actor.Owner? && q.agentID == "") || (q.actor.Agent? && Bounded(q.agentID, 256)))
    && OptionalBounded(q.reason, 4096)
    && !AnySecret(env, [q.key, q.runID, q.scopeID, q.lensID, q.agentID, q.recordID, q.reason, q.reversesID])
    && if q.reversesID != "" then
         && Bounded(q.key, 1024) && q.retryToken == "" && Bounded(q.reversesID, 256)
         && q.runID == "" && q.recordID == "" && q.disposition == NO_DISPOSITION
       else
         && (q.key == "") != (q.retryToken == "")
         && Bounded(q.runID, 256) && Bounded(q.recordID, 1024)
         && (q.disposition.Used? || q.disposition.Dismissed?)
         && (q.key != "" ==> Bounded(q.key, 1024))
         && (q.retryToken != "" ==> Bounded(q.retryToken, 256))
  }

  function IntentOf(q: Request): Intent {
    Intent(q.runID, q.scopeID, q.lensID, q.agentID, q.recordID, q.actor, q.disposition, q.reason, q.retryToken)
  }

  /** The key a request is stored under: derived from its token when it has one. */
  function KeyOf(h: Hashes, q: Request): string {
    if q.retryToken != "" then RetryKey(h, IntentOf(q)) else q.key
  }

  /** sameScopedJudgmentRequest */
  predicate SameRequest(j: Judgment, q: Request) {
    && j.actor == q.actor && j.scopeID == q.scopeID && j.lensID == q.lensID
    && j.agentID == q.agentID && j.reason == q.reason
    && if q.reversesID != "" then
         j.reversesID == q.reversesID
       else
         j.reversesID == "" && j.runID == q.runID && j.recordID == q.recordID && j.disposition == q.disposition
  }

  /** requireActiveScopedRun */
  predicate RunAdmits(t: Tables, runID: string, c: Context, actor: Actor, record: string) {
    && runID in t.runs && runID in t.candidates && record in t.candidates[runID]
    && t.runs[runID].scopeID == c.scopeID && t.runs[runID].lensID == c.lensID
    && (actor.Agent? ==> t.runs[runID].agentID == c.agentID)
    && Resolves(t, Trimmed(Context(c.scopeID, c.lensID, t.runs[runID].agentID)))
  }

  predicate Reversible(t: Tables, q: Request) {
    && q.reversesID in t.judgments
    && var o := t.judgments[q.reversesID];
       && o.reversesID == "" && o.actor == q.actor && o.scopeID == q.scopeID
       && o.lensID == q.lensID && o.agentID == q.agentID
       && (forall k :: k in t.judgments ==> t.judgments[k].reversesID != o.judgmentID)
       && RunAdmits(t, o.runID, Context(o.scopeID, o.lensID, o.agentID), o.actor, o.recordID)
  }

  /** The judgment a fresh request adds, or none when it is not admissible. */
  function Drafted(h: Hashes, t: Tables, q: Request, now: string): (j: Option<Judgment>)
    ensures j.Some? ==> j.value.key == KeyOf(h, q) && j.value.judgmentID == h.stableID(KeyOf(h, q))
  {
    var key := KeyOf(h, q);
    if q.reversesID != "" then
      if Reversible(t, q) then
        var o := t.judgments[q.reversesID];
        Some(Judgment(h.stableID(key), key, o.runID, q.scopeID, q.lensID, q.agentID, o.recordID, q.actor,
                      Reversed, q.reason, q.reversesID, -o.effect, now))
      else
        None
    else if !RunAdmits(t, q.runID, Context(q.scopeID, q.lensID, q.agentID), q.actor, q.recordID) then
      None
    else
      match EffectOf(q.actor, q.disposition)
      case None => None
      case Some(effect) =>
        Some(Judgment(h.stableID(key), key, q.runID, q.scopeID, q.lensID, q.agentID, q.recordID, q.actor,
                      q.disposition, q.reason, "", effect, now))
  }

  ghost predicate KeyTaken(t: Tables, key: string) {
    exists j :: j in t.judgments.Values && j.key == key
  }

  /** The rows a token's prefix query matches. */
  ghost function UnderToken(h: Hashes, t: Tables, token: string): set<Judgment> {
    set j | j in t.judgments.Values && TokenPrefix(h, token) <= j.key
  }

  /** A call that must not be refused: its token was used for nothing else, and
      either its key is stored with the same meaning, or its draft is new and
      leaves an acceptable state. */
  ghost predicate Granted(env: Env, h: Hashes, t: Tables, q: Request, now: string) {
    var key := KeyOf(h, q);
    && WellFormed(env, q)
    && (q.retryToken != "" ==> forall j :: j in UnderToken(h, t, q.retryToken) ==> j.key == key)
    && if KeyTaken(t, key) then
         forall j :: j in t.judgments.Values && j.key == key ==> SameRequest(j, q)
       else
         && Drafted(h, t, q, now).Some?
         && var d := Drafted(h, t, q, now).value;
            d.judgmentID !in t.judgments && Projects(env, Build(t), Build(WithJudgment(t, d)))
  }

  /** What one feedback call may do to the tables, seen from the outside. */
  ghost predicate FeedbackStep(env: Env, h: Hashes, t: Tables, q: Request, now: string, reply: Reply<Judgment>,
                               u: Tables) {
    var key := KeyOf(h, q);
    if reply.Refused? then
      u == t && !Granted(env, h, t, q, now)
    else
      && WellFormed(env, q)
      // something under the token is stored under this very key, or nothing is
      && (q.retryToken != "" ==>
            UnderToken(h, t, q.retryToken) == {} || exists j :: j in UnderToken(h, t, q.retryToken) && j.key == key)
      && if KeyTaken(t, key) then
           // a stored key changes no table and answers with the stored judgment
           && u == t && (exists j :: j in t.judgments.Values && j.key == key && SameRequest(j, q))
           && (reply.Acknowledged? ==>
                 reply.value in t.judgments.Values && reply.value.key == key && SameRequest(reply.value, q))
         else
           // a new key adds exactly the drafted judgment, to a state that stays acceptable
           && Drafted(h, t, q, now).Some?
           && var d := Drafted(h, t, q, now).value;
              && d.judgmentID !in t.judgments && u == WithJudgment(t, d) && Projects(env, Build(t), Build(u))
              && (reply.Acknowledged? ==> reply.value == d)
  }

  /** An identical repeat of a request that is already stored. */
  ghost predicate Replayable(env: Env, h: Hashes, t: Tables, q: Request, stored: Judgment) {
    && WellFormed(env, q) && Acceptable(env, Build(t))
    && (forall j :: j in t.judgments.Values && j.key == KeyOf(h, q) <==> j == stored)
    && (q.retryToken != "" ==> forall j :: j in UnderToken(h, t, q.retryToken) ==> j == stored)
    && SameRequest(stored, q)
  }

  predicate HexDigest(s: string) {
    |s| == 64 && forall i :: 0 <= i < 64 ==> '0' <= s[i] <= '9' || 'a' <= s[i] <= 'f'
  }

  predicate SourceOK(s: Source) {
    && s.schema == BINDING_SCHEMA && (s.kind == "record_source" || s.kind == "current_resource")
    && Bounded(s.id, 1024) && HexDigest(s.contentHash)
  }

  predicate TraceOK(env: Env, x: Trace) {
    && Bounded(x.candidate.recordID, 1024) && x.candidate.rank >= 1 && !env.secretLike(x.candidate.recordID)
    && (forall name :: name in x.candidate.components ==> Bounded(name, 256) && !env.secretLike(name))
    && SourceOK(x.source) && !env.secretLike(x.source.id)
  }

  function TrimmedTrace(x: Trace): Trace {
    x.(candidate := x.candidate.(recordID := Trim(x.candidate.recordID)))
  }

  function TrimmedTraces(traces: seq<Trace>): seq<Trace> {
    seq(|traces|, i requires 0 <= i < |traces| => TrimmedTrace(traces[i]))
  }

  predicate DistinctTraces(xs: seq<Trace>) {
    forall i, j :: 0 <= i < j < |xs| ==>
      xs[i].candidate.recordID != xs[j].candidate.recordID && xs[i].candidate.rank != xs[j].candidate.rank
  }

  /** The candidate rows and source-binding rows a trace inserts. */
  function CandidateTable(xs: seq<Trace>): map<string, Candidate>
    requires DistinctTraces(xs)
  {
    map i | 0 <= i < |xs| :: xs[i].candidate.recordID := xs[i].candidate
  }

  function SourceTable(run: string, xs: seq<Trace>): map<(string, string), Source>
    requires DistinctTraces(xs)
  {
    map i | 0 <= i < |xs| :: (run, xs[i].candidate.recordID) := xs[i].source
  }

  function Candidates(xs: seq<Trace>): seq<Candidate> {
    seq(|xs|, i requires 0 <= i < |xs| => xs[i].candidate)
  }

  lemma CandidateRow(xs: seq<Trace>, i: nat)
    requires DistinctTraces(xs) && i < |xs|
    ensures xs[i].candidate.recordID in CandidateTable(xs)
    ensures CandidateTable(xs)[xs[i].candidate.recordID] == Candidates(xs)[i] == xs[i].candidate
  {
  }

  lemma CandidateOf(xs: seq<Trace>, k: string) returns (i: nat)
    requires DistinctTraces(xs) && k in CandidateTable(xs)
    ensures i < |xs| && xs[i].candidate.recordID == k
  {
    i :| 0 <= i < |xs| && xs[i].candidate.recordID == k;
  }

  lemma CandidateTableRows(xs: seq<Trace>)
    requires DistinctTraces(xs)
    ensures KeyedCandidates(CandidateTable(xs)) && Distinct(Candidates(xs))
    ensures CandidateTable(xs).Values == Rows(Candidates(xs))
  {
    var m, cs := CandidateTable(xs), Candidates(xs);
    assert |cs| == |xs|;
    hide CandidateTable, Candidates;
    forall k | k in m ensures m[k] in cs && m[k].recordID == k {
      var i := CandidateOf(xs, k);
      CandidateRow(xs, i);
      assert m[k] == cs[i];
    }
    forall c | c in cs ensures c in m.Values {
      var i :| 0 <= i < |cs| && cs[i] == c;
      CandidateRow(xs, i);
      assert m[xs[i].candidate.recordID] == c;
    }
    forall i, j | 0 <= i < j < |cs| ensures cs[i] != cs[j] {
      CandidateRow(xs, i);
      CandidateRow(xs, j);
    }
    forall k, l | k in m && l in m && k != l ensures m[k].rank != m[l].rank {
      var i := CandidateOf(xs, k);
      var j := CandidateOf(xs, l);
      CandidateRow(xs, i);
      CandidateRow(xs, j);
    }
  }

  function TrimmedHeader(h: RunHeader): RunHeader {
    h.(runID := Trim(h.runID), query := Trim(h.query), scopeID := Trim(h.scopeID),
       lensID := Trim(h.lensID), agentID := Trim(h.agentID))
  }

  /** The tables after a retrieval trace is saved. */
  function WithTrace(t: Tables, h: RunHeader, xs: seq<Trace>): Tables
    requires DistinctTraces(xs)
  {
    WithRun(t, h, CandidateTable(xs)).(sources := t.sources + SourceTable(h.runID, xs))
  }

  lemma SourcesUnseen(t: Tables, sources: map<(string, string), Source>)
    ensures Build(t.(sources := sources)) == Build(t)
    ensures Keyed(t) ==> Keyed(t.(sources := sources))
  {
    SameRunRows(t, t.(sources := sources));
  }

  // -------------------------------------------------------------- the store

  /** What a preflight lets through: a snapshot can be taken, and the one after
      the mutation would be valid and fit. */
  predicate Projects(env: Env, before: Snapshot, after: Snapshot) {
    Valid(env, before) && Acceptable(env, after)
  }

  predicate ScopeAsked(env: Env, p: Scope) {
    && Bounded(p.id, 256) && Bounded(p.name, 1024) && Bounded(p.purpose, TEXT_LIMIT) && p.id != OWNER_ROOT
    && !AnySecret(env, [p.id, p.name, p.purpose])
  }

  predicate LensAsked(env: Env, t: Tables, p: Lens) {
    && Bounded(p.scopeID, 256) && Bounded(p.id, 256) && Bounded(p.name, 1024) && Bounded(p.query, TEXT_LIMIT)
    && !AnySecret(env, [p.scopeID, p.id, p.name, p.query])
    && p.scopeID in t.scopes && t.scopes[p.scopeID].status.Active?
  }

  predicate ActorAsked(env: Env, id: string, name: string) {
    Bounded(id, 256) && Bounded(name, 1024) && id != LEGACY_AGENT && !AnySecret(env, [id, name])
  }

  predicate RegistrationAsked(env: Env, t: Tables, id: string, name: string) {
    && RegisteredID(id) && Bounded(name, 1024) && id != LEGACY_AGENT && !AnySecret(env, [id, name])
    && (id in t.actors ==> t.actors[id].name == name && t.actors[id].status.Active?)
  }

  predicate TraceAsked(env: Env, t: Tables, h: RunHeader, xs: seq<Trace>) {
    && HeaderOK(env, h) && |xs| <= 100 && Resolves(t, Context(h.scopeID, h.lensID, h.agentID))
    && (forall i :: 0 <= i < |xs| ==> TraceOK(env, xs[i])) && DistinctTraces(xs) && h.runID !in t.runs
  }

  /** Tables a preflight let through. */
  ghost predicate Admitted(env: Env, t: Tables) {
    Keyed(t) && Acceptable(env, Build(t))
  }

  lemma AdmittedKeyed(env: Env, t: Tables)
    requires Admitted(env, t)
    ensures Keyed(t)
  {
  }

  /** The committed tables and the sidecar. */
  type State = (Tables, Option<Snapshot>)

  /** What every reply says: a refusal changed nothing; anything else committed
      exactly these tables; and an acknowledgement means the sidecar lists them. */
  ghost predicate Settled<T>(reply: Reply<T>, before: State, after: Tables, state: State) {
    match reply
    case Refused => state == before
    case Unwritten => state.0 == after && (state.1 == before.1 || state.1 == Some(Build(after)))
    case Acknowledged(_) => state == (after, Some(Build(after)))
  }

  /** A mutation that writes one row: it is granted exactly when what was asked is
      in order and the preflight passes, and only a failed write leaves it unwritten. */
  ghost predicate Writes<T>(env: Env, asked: bool, row: T, before: State, after: Tables, fault: Fault, reply: Reply<T>,
                            state: State)
  {
    && (!reply.Refused? <==> asked && Projects(env, Build(before.0), Build(after)))
    && Settled(reply, before, after, state)
    && (reply.Acknowledged? ==> reply.value == row && fault.Clean?)
    && (reply.Unwritten? ==> !fault.Clean? && state.1 == if fault.FailedBefore? then before.1 else Some(Build(after)))
  }

  lemma WithScopeKeyed(t: Tables, row: Scope)
    requires Keyed(t)
    ensures Keyed(WithScope(t, row))
  {
    hide KeyedCandidates;
  }

  lemma WithLensKeyed(t: Tables, row: Lens)
    requires Keyed(t) && row.scopeID in t.scopes
    ensures Keyed(WithLens(t, row))
  {
    hide KeyedCandidates;
  }

  lemma WithActorKeyed(t: Tables, row: AgentActor)
    requires Keyed(t)
    ensures Keyed(WithActor(t, row))
  {
    hide KeyedCandidates;
  }

  lemma WithTraceKeyed(env: Env, t: Tables, h: RunHeader, xs: seq<Trace>)
    requires Keyed(t) && TraceAsked(env, t, h, xs)
    ensures Keyed(WithTrace(t, h, xs))
  {
    CandidateTableRows(xs);
    WithRunKeyed(t, h, CandidateTable(xs));
    SourcesUnseen(WithRun(t, h, CandidateTable(xs)), t.sources + SourceTable(h.runID, xs));
    hide Keyed, CandidateTable, SourceTable, HeaderOK, TraceOK, Build;
  }

  lemma TraceDistinct(env: Env, t: Tables, h: RunHeader, xs: seq<Trace>)
    requires TraceAsked(env, t, h, xs)
    ensures DistinctTraces(xs)
  {
    hide HeaderOK, Resolves, TraceOK, DistinctTraces;
  }

  /** The preflight of a trace measures the snapshot the trace leaves. */
  lemma TraceProjection(env: Env, t: Tables, h: RunHeader, xs: seq<Trace>)
    requires Keyed(t) && TraceAsked(env, t, h, xs)
    ensures Valid(env, Build(t)) && h.runID !in t.runs && Acceptable(env, Build(WithRun(t, h, CandidateTable(xs)))) <==>
            Projects(env, Build(t), Build(WithTrace(t, h, xs)))
    ensures Projects(env, Build(t), Build(WithTrace(t, h, xs))) ==> Admitted(env, WithTrace(t, h, xs))
  {
    WithTraceKeyed(env, t, h, xs);
    SourcesUnseen(WithRun(t, h, CandidateTable(xs)), t.sources + SourceTable(h.runID, xs));
    hide Build, Valid, Fits, Keyed, HeaderOK, Resolves, TraceOK, DistinctTraces, CandidateTable, SourceTable;
  }

  /** What a refusal or a commit comes to. */
  lemma WritesOf<T>(env: Env, before: State, after: Tables, row: T, fault: Fault, reply: Reply<T>, state: State)
    requires !reply.Refused? <==> Projects(env, Build(before.0), Build(after))
    requires reply.Refused? ==> state == before
    requires !reply.Refused? ==>
               && state == (after, if fault.FailedBefore? then before.1 else Some(Build(after)))
               && reply == if fault.Clean? then Acknowledged(row) else Unwritten
    ensures Writes(env, true, row, before, after, fault, reply, state)
  {
    hide Build, Projects;
  }

  lemma TraceIs(env: Env, t: Tables, h: RunHeader, xs: seq<Trace>)
    requires HeaderOK(env, h) && |xs| <= 100 && Resolves(t, Context(h.scopeID, h.lensID, h.agentID))
    requires (forall i :: 0 <= i < |xs| ==> TraceOK(env, xs[i])) && DistinctTraces(xs) && h.runID !in t.runs
    ensures TraceAsked(env, t, h, xs)
  {
    hide HeaderOK, Resolves, TraceOK, DistinctTraces;
  }

  lemma NoTrace(env: Env, before: State, h: RunHeader, xs: seq<Trace>, fault: Fault)
    ensures !(HeaderOK(env, h) && |xs| <= 100 && Resolves(before.0, Context(h.scopeID, h.lensID, h.agentID)) &&
              (forall i :: 0 <= i < |xs| ==> TraceOK(env, xs[i])) && DistinctTraces(xs)) || h.runID in before.0.runs ==>
              RetrievalSaved(env, before, h, xs, fault, Refused, before)
  {
    hide HeaderOK, Resolves, TraceOK, DistinctTraces;
  }

  lemma TraceSaved(env: Env, before: State, h: RunHeader, xs: seq<Trace>, fault: Fault, reply: Reply<()>, state: State)
    requires TraceAsked(env, before.0, h, xs) &&
             Writes(env, true, (), before, WithTrace(before.0, h, xs), fault, reply, state)
    ensures RetrievalSaved(env, before, h, xs, fault, reply, state)
  {
    hide Writes, TraceOK, HeaderOK, Resolves, WithTrace;
  }

  // ------------------------------------------------- what each mutation may do

  ghost predicate ScopePut(env: Env, before: State, p: Scope, fault: Fault, reply: Reply<Scope>, state: State) {
    var row := UpsertedScope(before.0, p);
    Writes(env, ScopeAsked(env, p), row, before, WithScope(before.0, row), fault, reply, state)
  }

  ghost predicate ScopeArchived(env: Env, before: State, id: string, now: string, fault: Fault, reply: Reply<Scope>,
                                state: State) {
    if !Bounded(id, 256) || id == OWNER_ROOT || id !in before.0.scopes then reply.Refused? && state == before else
      var row := before.0.scopes[id].(status := Archived, updatedAt := now);
      Writes(env, true, row, before, WithScope(before.0, row), fault, reply, state)
  }

  ghost predicate LensPut(env: Env, before: State, p: Lens, fault: Fault, reply: Reply<Lens>, state: State) {
    var row := UpsertedLens(before.0, p);
    Writes(env, LensAsked(env, before.0, p), row, before, WithLens(before.0, row), fault, reply, state)
  }

  ghost predicate LensArchived(env: Env, before: State, key: (string, string), now: string, fault: Fault,
                               reply: Reply<Lens>, state: State)
  {
    if !Bounded(key.0, 256) || !Bounded(key.1, 256) || key !in before.0.lenses then
      reply.Refused? && state == before
    else
      var row := before.0.lenses[key].(status := Archived, updatedAt := now);
      Writes(env, true, row, before, WithLens(before.0, row), fault, reply, state)
  }

  ghost predicate ActorPut(env: Env, before: State, id: string, name: string, now: string, fault: Fault,
                           reply: Reply<AgentActor>, state: State)
  {
    var row := UpsertedActor(before.0, AgentActor(id, name, UNSET, "", now));
    Writes(env, ActorAsked(env, id, name), row, before, WithActor(before.0, row), fault, reply, state)
  }

  ghost predicate ActorRegistered(env: Env, before: State, id: string, name: string, now: string, fault: Fault,
                                  reply: Reply<AgentActor>, state: State)
  {
    var row := if id in before.0.actors then before.0.actors[id] else AgentActor(id, name, Active, now, now);
    Writes(env, RegistrationAsked(env, before.0, id, name), row, before, WithActor(before.0, row), fault, reply, state)
  }

  ghost predicate ActorArchived(env: Env, before: State, id: string, now: string, fault: Fault,
                                reply: Reply<AgentActor>, state: State)
  {
    if !Bounded(id, 256) || id == LEGACY_AGENT || id !in before.0.actors then reply.Refused? && state == before else
      var row := before.0.actors[id].(status := Archived, updatedAt := now);
      Writes(env, true, row, before, WithActor(before.0, row), fault, reply, state)
  }

  ghost predicate RetrievalSaved(env: Env, before: State, h: RunHeader, xs: seq<Trace>, fault: Fault, reply: Reply<()>,
                                 state: State)
  {
    if !TraceAsked(env, before.0, h, xs) then reply.Refused? && state == before else
      Writes(env, true, (), before, WithTrace(before.0, h, xs), fault, reply, state)
  }

  ghost predicate Judged(env: Env, h: Hashes, before: State, q: Request, now: string, reply: Reply<Judgment>,
                         state: State) {
    FeedbackStep(env, h, before.0, q, now, reply, state.0) && Settled(reply, before, state.0, state)
  }

  class Store {
    const env: Env
    const hashes: Hashes
    var tables: Tables
    var sidecar: Option<Snapshot>

    constructor (env: Env, hashes: Hashes, tables: Tables, sidecar: Option<Snapshot>)
      ensures this.env == env && this.hashes == hashes && this.tables == tables && this.sidecar == sidecar
    {
      this.env, this.hashes, this.tables, this.sidecar := env, hashes, tables, sidecar;
    }

    /** writeRecoverySnapshot */
    method WriteSidecar(fault: Fault) returns (ok: bool)
      requires Keyed(tables)
      modifies this`sidecar
      ensures ok <==> fault.Clean? && Acceptable(env, Build(tables))
      ensures sidecar == if Acceptable(env, Build(tables)) && !fault.FailedBefore? then Some(Build(tables))
              else old(sidecar)
    {
      var built := BuildSnapshot(env, tables);
      if built.None? || !Fits(env, built.value) || fault.FailedBefore? {
        return false;
      }
      sidecar := built;
      ok := fault.Clean?;
    }

    /** The commit and the sidecar write that follow an accepted preflight. */
    method Commit(after: Tables, fault: Fault) returns (ok: bool)
      requires Admitted(env, after)
      modifies this
      ensures tables == after && (ok <==> fault.Clean?)
      ensures sidecar == if fault.FailedBefore? then old(sidecar) else Some(Build(after))
      ensures Settled(if ok then Acknowledged(()) else Unwritten, old(State()), after, State())
    {
      tables := after;
      ok := WriteSidecar(fault);
    }

    function State(): State
      reads this
    {
      (tables, sidecar)
    }

    method PutScope(id0: string, name0: string, purpose0: string, now: string, fault: Fault)
      returns (reply: Reply<Scope>)
      requires Keyed(tables)
      modifies this
      ensures Keyed(tables)
      ensures ScopePut(env, old(State()), Scope(Trim(id0), Trim(name0), Trim(purpose0), UNSET, "", now), fault, reply,
                       State())
    {
      hide Trim, Bounded, AnySecret, Acceptable, Build, KeyedCandidates;
      var id, name, purpose := Trim(id0), Trim(name0), Trim(purpose0);
      if !Bounded(id, 256) || !Bounded(name, 1024) || !Bounded(purpose, TEXT_LIMIT) ||
         id == OWNER_ROOT || AnySecret(env, [id, name, purpose]) {
        return Refused;
      }
      var proposed := Scope(id, name, purpose, UNSET, "", now);
      var accepted := PreflightScope(env, tables, proposed);
      if accepted.None? {
        return Refused;
      }
      var saved := if id in tables.scopes
        then tables.scopes[id].(name := name, purpose := purpose, updatedAt := now)
        else Scope(id, name, purpose, Active, now, now);
      WithScopeKeyed(tables, saved);
      var ok := Commit(WithScope(tables, saved), fault);
      reply := if ok then Acknowledged(saved) else Unwritten;
    }

    method ArchiveScope(id0: string, now: string, fault: Fault) returns (reply: Reply<Scope>)
      requires Keyed(tables)
      modifies this
      ensures Keyed(tables) && ScopeArchived(env, old(State()), Trim(id0), now, fault, reply, State())
    {
      hide Trim, Bounded, Acceptable, Build, KeyedCandidates;
      var id := Trim(id0);
      if !Bounded(id, 256) || id == OWNER_ROOT || id !in tables.scopes {
        return Refused;
      }
      var current := tables.scopes[id].(status := Archived, updatedAt := now);
      var accepted := PreflightScope(env, tables, current);
      if accepted.None? {
        return Refused;
      }
      assert accepted.value == current;
      WithScopeKeyed(tables, current);
      var ok := Commit(WithScope(tables, current), fault);
      reply := if ok then Acknowledged(current) else Unwritten;
    }

    method PutLens(scopeID0: string, id0: string, name0: string, query0: string, now: string, fault: Fault)
      returns (reply: Reply<Lens>)
      requires Keyed(tables)
      modifies this
      ensures Keyed(tables)
      ensures LensPut(env, old(State()), Lens(Trim(scopeID0), Trim(id0), Trim(name0), Trim(query0), UNSET, "", now),
                      fault, reply, State())
    {
      hide Trim, Bounded, AnySecret, Acceptable, Build, KeyedCandidates;
      var scopeID, id, name, query := Trim(scopeID0), Trim(id0), Trim(name0), Trim(query0);
      if !Bounded(scopeID, 256) || !Bounded(id, 256) || !Bounded(name, 1024) || !Bounded(query, TEXT_LIMIT) ||
         AnySecret(env, [scopeID, id, name, query]) {
        return Refused;
      }
      if scopeID !in tables.scopes || !tables.scopes[scopeID].status.Active? {
        return Refused;
      }
      var accepted := PreflightLens(env, tables, Lens(scopeID, id, name, query, UNSET, "", now));
      if accepted.None? {
        return Refused;
      }
      var saved := if (scopeID, id) in tables.lenses
        then tables.lenses[(scopeID, id)].(name := name, query := query, updatedAt := now)
        else Lens(scopeID, id, name, query, Active, now, now);
      WithLensKeyed(tables, saved);
      var ok := Commit(WithLens(tables, saved), fault);
      reply := if ok then Acknowledged(saved) else Unwritten;
    }

    method ArchiveLens(scopeID0: string, id0: string, now: string, fault: Fault) returns (reply: Reply<Lens>)
      requires Keyed(tables)
      modifies this
      ensures Keyed(tables) && LensArchived(env, old(State()), (Trim(scopeID0), Trim(id0)), now, fault, reply, State())
    {
      hide Trim, Bounded, Acceptable, Build, KeyedCandidates;
      var key := (Trim(scopeID0), Trim(id0));
      if !Bounded(key.0, 256) || !Bounded(key.1, 256) || key !in tables.lenses {
        return Refused;
      }
      var current := tables.lenses[key].(status := Archived, updatedAt := now);
      var accepted := PreflightLens(env, tables, current);
      if accepted.None? {
        return Refused;
      }
      assert accepted.value == current;
      WithLensKeyed(tables, current);
      var ok := Commit(WithLens(tables, current), fault);
      reply := if ok then Acknowledged(current) else Unwritten;
    }

    method PutActor(id0: string, name0: string, now: string, fault: Fault) returns (reply: Reply<AgentActor>)
      requires Keyed(tables)
      modifies this
      ensures Keyed(tables) && ActorPut(env, old(State()), Trim(id0), Trim(name0), now, fault, reply, State())
    {
      hide Trim, Bounded, AnySecret, Acceptable, Build, KeyedCandidates;
      var id, name := Trim(id0), Trim(name0);
      if !Bounded(id, 256) || !Bounded(name, 1024) || id == LEGACY_AGENT || AnySecret(env, [id, name]) {
        return Refused;
      }
      var accepted := PreflightActor(env, tables, AgentActor(id, name, UNSET, "", now));
      if accepted.None? {
        return Refused;
      }
      var saved := if id in tables.actors
        then tables.actors[id].(name := name, updatedAt := now)
        else AgentActor(id, name, Active, now, now);
      WithActorKeyed(tables, saved);
      var ok := Commit(WithActor(tables, saved), fault);
      reply := if ok then Acknowledged(saved) else Unwritten;
    }

    /** An exact replay of an active registration rewrites only the sidecar. */
    method ReplayActor(existing: AgentActor, fault: Fault) returns (reply: Reply<AgentActor>)
      requires Keyed(tables) && existing.id in tables.actors && tables.actors[existing.id] == existing
      requires existing.status.Active?
      modifies this
      ensures Keyed(tables) && Writes(env, true, existing, old(State()), old(tables), fault, reply, State())
    {
      hide Acceptable, Build, KeyedCandidates;
      assert WithActor(tables, existing) == tables;
      assert UpsertedActor(tables, existing) == existing;
      var accepted := PreflightActor(env, tables, existing);
      if accepted.None? {
        return Refused;
      }
      var ok := Commit(tables, fault);
      reply := if ok then Acknowledged(existing) else Unwritten;
    }

    method AddActor(id: string, name: string, now: string, fault: Fault) returns (reply: Reply<AgentActor>)
      requires Keyed(tables) && id !in tables.actors
      modifies this
      ensures Keyed(tables)
      ensures var row := AgentActor(id, name, Active, now, now);
              Writes(env, true, row, old(State()), WithActor(old(tables), row), fault, reply, State())
    {
      hide Acceptable, Build, KeyedCandidates;
      var accepted := PreflightActor(env, tables, AgentActor(id, name, UNSET, "", now));
      if accepted.None? {
        return Refused;
      }
      var saved := AgentActor(id, name, Active, now, now);
      WithActorKeyed(tables, saved);
      var ok := Commit(WithActor(tables, saved), fault);
      reply := if ok then Acknowledged(saved) else Unwritten;
    }

    /** Registration creates an actor once; an exact active replay changes no row. */
    method RegisterActor(id0: string, name0: string, now: string, fault: Fault)
      returns (reply: Reply<AgentActor>, created: bool)
      requires Keyed(tables)
      modifies this
      ensures Keyed(tables) && ActorRegistered(env, old(State()), Trim(id0), Trim(name0), now, fault, reply, State())
      ensures created <==> reply.Acknowledged? && Trim(id0) !in old(tables).actors
    {
      hide Trim, Bounded, AnySecret, Acceptable, Build, RegisteredID;
      var id, name := Trim(id0), Trim(name0);
      if !RegisteredID(id) || !Bounded(name, 1024) || id == LEGACY_AGENT || AnySecret(env, [id, name]) {
        return Refused, false;
      }
      if id in tables.actors {
        var existing := tables.actors[id];
        if existing.name != name || !existing.status.Active? {
          return Refused, false;
        }
        assert WithActor(tables, existing) == tables;
        reply := ReplayActor(existing, fault);
        created := false;
      } else {
        reply := AddActor(id, name, now, fault);
        created := reply.Acknowledged?;
      }
    }

    method ArchiveActor(id0: string, now: string, fault: Fault) returns (reply: Reply<AgentActor>)
      requires Keyed(tables)
      modifies this
      ensures Keyed(tables) && ActorArchived(env, old(State()), Trim(id0), now, fault, reply, State())
    {
      hide Trim, Bounded, Acceptable, Build, KeyedCandidates;
      var id := Trim(id0);
      if !Bounded(id, 256) || id == LEGACY_AGENT || id !in tables.actors {
        return Refused;
      }
      var current := tables.actors[id].(status := Archived, updatedAt := now);
      var accepted := PreflightActor(env, tables, current);
      if accepted.None? {
        return Refused;
      }
      assert accepted.value == current;
      WithActorKeyed(tables, current);
      var ok := Commit(WithActor(tables, current), fault);
      reply := if ok then Acknowledged(current) else Unwritten;
    }

    method SaveRetrieval(h0: RunHeader, traces: seq<Trace>, fault: Fault) returns (reply: Reply<()>)
      requires Keyed(tables)
      modifies this
      ensures Keyed(tables)
      ensures RetrievalSaved(env, old(State()), TrimmedHeader(h0), TrimmedTraces(traces), fault, reply, State())
    {
      var h, xs := TrimmedHeader(h0), TrimmedTraces(traces);
      StateIs();
      hide *;
      var fine := ScanTraces(h, xs);
      NoTrace(env, (tables, sidecar), h, xs, fault);
      if !fine || h.runID in tables.runs {
        return Refused;
      }
      TraceIs(env, tables, h, xs);
      reply := InsertTrace(h, xs, fault);
      TraceSaved(env, (old(tables), old(sidecar)), h, xs, fault, reply, State());
    }

    lemma StateIs()
      ensures State() == (tables, sidecar)
    {
    }

    /** The checks before the preflight. */
    method ScanTraces(h: RunHeader, xs: seq<Trace>) returns (fine: bool)
      ensures fine <==> HeaderOK(env, h) && |xs| <= 100 && Resolves(tables, Context(h.scopeID, h.lensID, h.agentID)) &&
                        (forall i :: 0 <= i < |xs| ==> TraceOK(env, xs[i])) && DistinctTraces(xs)
    {
      hide Resolves, HeaderOK, TraceOK;
      if !HeaderOK(env, h) || |xs| > 100 || !Resolves(tables, Context(h.scopeID, h.lensID, h.agentID)) {
        return false;
      }
      var records;
      fine, records := ScanRows((x: Trace) => TraceOK(env, x), (x: Trace) => x.candidate.recordID,
                                (x: Trace) => x.candidate.rank, xs);
    }

    /** A trace whose checks passed: its preflight, and the inserts. */
    method InsertTrace(h: RunHeader, xs: seq<Trace>, fault: Fault) returns (reply: Reply<()>)
      requires Keyed(tables) && TraceAsked(env, tables, h, xs)
      modifies this
      ensures Keyed(tables) && Writes(env, true, (), old(State()), WithTrace(old(tables), h, xs), fault, reply, State())
    {
      TraceDistinct(env, tables, h, xs);
      CandidateTableRows(xs);
      TraceProjection(env, tables, h, xs);
      WithTraceKeyed(env, tables, h, xs);
      StateIs();
      hide *;
      var ok := PreflightRun(env, tables, h, Candidates(xs), CandidateTable(xs));
      if ok {
        ok := Commit(WithTrace(tables, h, xs), fault);
        reply := if ok then Acknowledged(()) else Unwritten;
      } else {
        reply := Refused;
      }
      StateIs();
      WritesOf(env, (old(tables), old(sidecar)), WithTrace(old(tables), h, xs), (), fault, reply, State());
    }

    /** The first judgment, by creation time, stored under a token's prefix. */
    method FirstUnderToken(token: string) returns (first: Option<Judgment>)
      requires Keyed(tables)
      ensures first.None? <==> UnderToken(hashes, tables, token) == {}
      ensures first.Some? ==> first.value in UnderToken(hashes, tables, token)
      ensures first.Some? ==> forall j :: j in UnderToken(hashes, tables, token) && j != first.value ==>
                JudgmentLess(first.value, j)
    {
      var matching := set j | j in tables.judgments.Values && TokenPrefix(hashes, token) <= j.key;
      Orders();
      KeyedComparable(tables);
      var rows := SelectOrdered(JudgmentLess, matching);
      RowsEmpty(rows);
      if rows == [] {
        return None;
      }
      assert rows[0] in Rows(rows);
      forall j | j in matching && j != rows[0] ensures JudgmentLess(rows[0], j) {
        assert j in Rows(rows);
        var i :| 0 <= i < |rows| && rows[i] == j;
      }
      first := Some(rows[0]);
    }

    /** A repeated key: the stored judgment comes back, or the request conflicts.
        The sidecar is rewritten before the replay is acknowledged. */
    method Replay(stored: Judgment, q: Request, fault: Fault) returns (reply: Reply<Judgment>)
      requires Keyed(tables)
      modifies this`sidecar
      ensures reply.Refused? ==> sidecar == old(sidecar)
      ensures reply.Acknowledged? ==> reply.value == stored && SameRequest(stored, q) && sidecar == Some(Build(tables))
      ensures reply.Unwritten? ==> sidecar == old(sidecar) || sidecar == Some(Build(tables))
      ensures SameRequest(stored, q) && fault.Clean? && Acceptable(env, Build(tables)) ==> reply == Acknowledged(stored)
      ensures reply.Refused? <==> !SameRequest(stored, q)
    {
      if !SameRequest(stored, q) {
        return Refused;
      }
      var ok := WriteSidecar(fault);
      reply := if ok then Acknowledged(stored) else Unwritten;
    }

    /** A new key: the drafted judgment passes its preflight and is inserted. */
    method InsertDraft(d: Judgment, fault: Fault) returns (reply: Reply<Judgment>)
      requires Keyed(tables)
      modifies this
      ensures Keyed(tables)
      ensures Writes(env, d.judgmentID !in old(tables).judgments, d, old(State()), WithJudgment(old(tables), d), fault,
                     reply, State())
    {
      var ok := PreflightJudgment(env, tables, d);
      if !ok {
        return Refused;
      }
      WithJudgmentKeyed(tables, d);
      ok := Commit(WithJudgment(tables, d), fault);
      reply := if ok then Acknowledged(d) else Unwritten;
    }

    /** One call to ApplyScopedJudgment is one step of the feedback log, and
        acknowledged feedback is in the sidecar that recovery reads. */
    method ApplyJudgment(q0: Request, now: string, fault: Fault) returns (reply: Reply<Judgment>)
      requires Keyed(tables)
      modifies this
      ensures Keyed(tables) && Judged(env, hashes, old(State()), Normalized(q0), now, reply, State())
      ensures forall stored ::
                Replayable(env, hashes, old(tables), Normalized(q0), stored) && fault.Clean? ==>
                  reply == Acknowledged(stored) && tables == old(tables)
    {
      hide Bounded, AnySecret, WellFormed, Normalized, KeyOf, Drafted, Acceptable, Build, TokenPrefix;
      var q := Normalized(q0);
      var key := KeyOf(hashes, q);
      if !WellFormed(env, q) {
        return Refused;
      }
      if q.retryToken != "" {
        var first := FirstUnderToken(q.retryToken);
        if first.Some? && first.value.key != key {
          return Refused;
        }
      }
      if stored :| stored in tables.judgments.Values && stored.key == key {
        reply := Replay(stored, q, fault);
      } else {
        assert !KeyTaken(tables, key);
        var drafted := Drafted(hashes, tables, q, now);
        if drafted.None? {
          return Refused;
        }
        reply := InsertDraft(drafted.value, fault);
      }
    }

    /** ScopedRelevance: a tenth of the standing feedback of the owner and this agent, within 0.3. */
    method Relevance(c: Context, records: seq<string>) returns (r: Option<map<string, real>>)
      requires Admitted(env, tables)
      ensures records == [] ==> r == Some(map[])
      ensures records != [] ==> (r.Some? <==> |records| <= 100000 && Resolves(tables, Trimmed(c)))
      ensures r.Some? ==> forall record :: record in r.value <==>
                record in records && Counted(tables.judgments.Values, c, record) != {}
      ensures r.Some? ==> forall record :: record in r.value ==>
                && -0.3 <= r.value[record] <= 0.3
                && r.value[record] == Scaled(Total(Counted(Standing(tables.judgments.Values), c, record)))
    {
      if records == [] {
        return Some(map[]);
      }
      if |records| > 100000 || !Resolves(tables, Trimmed(c)) {
        return None;
      }
      PairedLog(env, tables);
      hide *;
      var answer := Relevances(tables.judgments.Values, c, records);
      r := Some(answer);
    }

    /** RequireScopedCandidate: hydration needs the exact run tuple and its source binding. */
    method RequireCandidate(runID0: string, c0: Context, record0: string) returns (authority: Option<(string, Source)>)
      requires Keyed(tables)
      ensures authority.Some? <==> Hydrates(tables, Trim(runID0), Trimmed(c0), Trim(record0))
      ensures authority.Some? ==>
                authority.value == (tables.runs[Trim(runID0)].library, tables.sources[(Trim(runID0), Trim(record0))])
      ensures tables.sources == map[] ==> authority.None?
    {
      var c, runID, record := Trimmed(c0), Trim(runID0), Trim(record0);
      if !Bounded(runID, 256) || !Bounded(record, 1024) || !Resolves(tables, c) {
        return None;
      }
      if runID !in tables.runs || record !in tables.candidates[runID] || (runID, record) !in tables.sources ||
         tables.runs[runID].scopeID != c.scopeID || tables.runs[runID].lensID != c.lensID ||
         tables.runs[runID].agentID != c.agentID {
        return None;
      }
      var h, s := tables.runs[runID], tables.sources[(runID, record)];
      if !Bounded(h.library, 256) || !SourceOK(s) {
        return None;
      }
      authority := Some((h.library, s));
    }
  }

  /** The run was this context's own, showed the record, and bound it to a source. */
  predicate Hydrates(t: Tables, run: string, c: Context, record: string) {
    && Bounded(run, 256) && Bounded(record, 1024) && Resolves(t, c)
    && run in t.runs && run in t.candidates && record in t.candidates[run] && (run, record) in t.sources
    && t.runs[run].scopeID == c.scopeID && t.runs[run].lensID == c.lensID && t.runs[run].agentID == c.agentID
    && Bounded(t.runs[run].library, 256) && SourceOK(t.sources[(run, record)])
  }

  predicate RegisteredID(id: string) {
    |id| == 38 && id[..6] == "agent-" && forall i :: 6 <= i < 38 ==> '0' <= id[i] <= '9' || 'a' <= id[i] <= 'f'
  }

  /** In every admitted state each reversal undoes a stored original, an original
      has at most one reversal, and no reversal is reversed. */
  lemma PairedLog(env: Env, t: Tables)
    requires Admitted(env, t)
    ensures Paired(t.judgments.Values)
  {
    BuildRows(t);
    ValidIsPaired(env, Build(t).runs, Build(t).judgments);
  }

  /** The records a context has feedback on, among those asked for. */
  lemma RecordsCounted(js: set<Judgment>, c: Context, records: seq<string>, keys: set<string>)
    requires keys == set j | j in js && Counts(j, c) && j.recordID in (set x | x in records) :: j.recordID
    ensures forall record :: record in keys <==> record in records && Counted(js, c, record) != {}
  {
    hide Counts;
    forall record ensures record in keys <==> record in records && Counted(js, c, record) != {} {
      if record in keys {
        var j :| j in js && Counts(j, c) && j.recordID in (set x | x in records) && j.recordID == record;
        assert j in Counted(js, c, record);
      }
      if Counted(js, c, record) != {} {
        var j :| j in Counted(js, c, record);
      }
    }
  }

  /** The rows of ScopedRelevance's answer. */
  method Relevances(js: set<Judgment>, c: Context, records: seq<string>) returns (m: map<string, real>)
    requires Paired(js)
    ensures forall record :: record in m <==> record in records && Counted(js, c, record) != {}
    ensures forall record :: record in m ==>
              -0.3 <= m[record] <= 0.3 && m[record] == Scaled(Total(Counted(Standing(js), c, record)))
  {
    hide *;
    var allowed := set x | x in records;
    var sums := SumCounted(js, c, allowed);
    RecordsCounted(js, c, records, sums.Keys);
    forall record | record in sums ensures sums[record] == Total(Counted(Standing(js), c, record)) {
      CountedIsStanding(js, c, record);
    }
    m := map record | record in sums :: Scaled(sums[record]);
  }
}
