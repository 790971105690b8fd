/** Scoped agent state: the tables, the recovery snapshot built from them, and
    the rules a snapshot must meet to be accepted. */
module ScopedModel {
  import opened Text
  import opened Ordering

  const TEXT_LIMIT: nat := 65536

  datatype Status = Active | Archived | OtherStatus(text: string)
  datatype Actor = Owner | Agent | OtherActor(text: string)
  datatype Disposition = Used | Dismissed | Reversed | OtherDisposition(text: string)
  datatype Score = Finite(value: real) | NotFinite
  datatype Option<+T> = None | Some(value: T)

  datatype Scope = Scope(id: string, name: string, purpose: string, status: Status,
                         createdAt: string, updatedAt: string)
  datatype Lens = Lens(scopeID: string, id: string, name: string, query: string, status: Status,
                       createdAt: string, updatedAt: string)
  datatype AgentActor = AgentActor(id: string, name: string, status: Status,
                                   createdAt: string, updatedAt: string)
  datatype RunHeader = RunHeader(runID: string, query: string, scopeID: string, lensID: string,
                                 agentID: string, retrievalMethod: string, library: string,
                                 createdAt: string)
  datatype Candidate = Candidate(recordID: string, rank: int, finalScore: Score,
                                 components: map<string, Score>)
  datatype Run = Run(header: RunHeader, candidates: seq<Candidate>)
  datatype Source = Source(schema: string, kind: string, id: string, contentHash: string)

  /** An effect is counted in quarters: an owner's weight is 4, an agent's 1. */
  datatype Judgment = Judgment(judgmentID: string, key: string, runID: string, scopeID: string,
                               lensID: string, agentID: string, recordID: string, actor: Actor,
                               disposition: Disposition, reason: string, reversesID: string,
                               effect: int, createdAt: string)

  datatype Snapshot = Snapshot(scopes: seq<Scope>, lenses: seq<Lens>, actors: seq<AgentActor>,
                               runs: seq<Run>, judgments: seq<Judgment>)

  /** Database rows by primary key; the candidates table is indexed by its run
      first. Source bindings are rows of their own and not part of a snapshot. */
  datatype Tables = Tables(
    scopes: map<string, Scope>,
    lenses: map<(string, string), Lens>,
    actors: map<string, AgentActor>,
    runs: map<string, RunHeader>,
    candidates: map<string, map<string, Candidate>>,
    sources: map<(string, string), Source>,
    judgments: map<string, Judgment>)

  const EMPTY: Tables := Tables(map[], map[], map[], map[], map[], map[], map[])

  /** What the model does not look into: the secret scanner, the size of the
      encoded snapshot, with the byte limit it is held to, and the hash that names
      an unscoped judgment by its key. */
  datatype Env = Env(secretLike: string -> bool, encodedSize: Snapshot -> nat, limit: int, legacyID: string -> string)

  /** Nothing is secret, and every snapshot fits: the environment of the examples. */
  const OPEN: Env := Env(s => false, s => 0, 1, s => s)

  predicate AnySecret(env: Env, texts: seq<string>) {
    exists i :: 0 <= i < |texts| && env.secretLike(texts[i])
  }

  // ---------------------------------------------------------------- orders

  predicate ScopeLess(a: Scope, b: Scope) { Before(a.id, b.id) }
  predicate LensLess(a: Lens, b: Lens) { PairBefore((a.scopeID, a.id), (b.scopeID, b.id)) }
  predicate ActorLess(a: AgentActor, b: AgentActor) { Before(a.id, b.id) }
  predicate RunLess(a: Run, b: Run) {
    PairBefore((a.header.createdAt, a.header.runID), (b.header.createdAt, b.header.runID))
  }
  predicate CandidateLess(a: Candidate, b: Candidate) {
    a.rank < b.rank || (a.rank == b.rank && Before(a.recordID, b.recordID))
  }
  predicate JudgmentLess(a: Judgment, b: Judgment) {
    PairBefore((a.createdAt, a.judgmentID), (b.createdAt, b.judgmentID))
  }

  lemma Orders()
    ensures StrictOrder(ScopeLess) && StrictOrder(LensLess) && StrictOrder(ActorLess)
    ensures StrictOrder(RunLess) && StrictOrder(CandidateLess) && StrictOrder(JudgmentLess)
  {
    BeforeIsOrder();
    PairsBeforeIsOrder();
  }

  // ------------------------------------------------------- tables to snapshot

  /** What SQLite keeps of the listed tables: unique keys and foreign keys. */
  ghost predicate Keyed(t: Tables) {
    Unique(t) && Linked(t)
  }

  /** A lens has a scope, and a run a lens and an agent. */
  ghost predicate Linked(t: Tables) {
    && (forall k :: k in t.lenses ==> k.0 in t.scopes)
    && (forall k :: k in t.runs ==> (t.runs[k].scopeID, t.runs[k].lensID) in t.lenses && t.runs[k].agentID in t.actors)
  }

  /** Primary keys, the candidate's foreign key, and UNIQUE(run_id, rank). */
  ghost predicate Unique(t: Tables) {
    && (forall k :: k in t.scopes ==> t.scopes[k].id == k)
    && (forall k :: k in t.lenses ==> (t.lenses[k].scopeID, t.lenses[k].id) == k)
    && (forall k :: k in t.actors ==> t.actors[k].id == k)
    && (forall k :: k in t.runs ==> t.runs[k].runID == k)
    && t.candidates.Keys == t.runs.Keys
    && (forall k :: k in t.candidates ==> KeyedCandidates(t.candidates[k]))
    && (forall k :: k in t.judgments ==> t.judgments[k].judgmentID == k)
  }

  ghost predicate KeyedCandidates(cs: map<string, Candidate>) {
    && (forall k :: k in cs ==> cs[k].recordID == k)
    && (forall k, l :: k in cs && l in cs && k != l ==> cs[k].rank != cs[l].rank)
  }

  ghost function RunRow(t: Tables, run: string): Run
    requires run in t.runs && run in t.candidates
  {
    Run(t.runs[run], Listing(CandidateLess, t.candidates[run].Values))
  }

  ghost function RunRows(t: Tables): set<Run> {
    set k | k in t.runs && k in t.candidates :: RunRow(t, k)
  }

  /** buildScopedRecoverySnapshot before validation: every table in its order. */
  ghost function Build(t: Tables): Snapshot {
    Snapshot(
      Listing(ScopeLess, t.scopes.Values),
      Listing(LensLess, t.lenses.Values),
      Listing(ActorLess, t.actors.Values),
      Listing(RunLess, RunRows(t)),
      Listing(JudgmentLess, t.judgments.Values))
  }

  lemma CandidatesComparable(cs: map<string, Candidate>)
    requires KeyedCandidates(cs)
    ensures Comparable(CandidateLess, cs.Values)
  {
    forall a, b | a in cs.Values && b in cs.Values
      ensures a == b || CandidateLess(a, b) || CandidateLess(b, a)
    {
      assert a == cs[a.recordID] && b == cs[b.recordID];
    }
  }

  lemma KeyedComparable(t: Tables)
    requires Unique(t)
    ensures Comparable(ScopeLess, t.scopes.Values)
    ensures Comparable(LensLess, t.lenses.Values)
    ensures Comparable(ActorLess, t.actors.Values)
    ensures Comparable(RunLess, RunRows(t))
    ensures Comparable(JudgmentLess, t.judgments.Values)
  {
    BeforeIsOrder();
    PairsBeforeIsOrder();
  }

  ghost predicate Ordered(s: Snapshot) {
    && Ascending(ScopeLess, s.scopes)
    && Ascending(LensLess, s.lenses)
    && Ascending(ActorLess, s.actors)
    && Ascending(RunLess, s.runs)
    && (forall r :: r in s.runs ==> Ascending(CandidateLess, r.candidates))
    && Ascending(JudgmentLess, s.judgments)
  }

  lemma BuildRows(t: Tables)
    requires Keyed(t)
    ensures Ordered(Build(t))
    ensures Rows(Build(t).scopes) == t.scopes.Values
    ensures Rows(Build(t).lenses) == t.lenses.Values
    ensures Rows(Build(t).actors) == t.actors.Values
    ensures Rows(Build(t).runs) == RunRows(t)
    ensures Rows(Build(t).judgments) == t.judgments.Values
  {
    Orders();
    KeyedComparable(t);
    ListingAscending(ScopeLess, t.scopes.Values);
    ListingAscending(LensLess, t.lenses.Values);
    ListingAscending(ActorLess, t.actors.Values);
    ListingAscending(RunLess, RunRows(t));
    ListingAscending(JudgmentLess, t.judgments.Values);
    forall r | r in Build(t).runs ensures Ascending(CandidateLess, r.candidates) {
      assert r in RunRows(t);
      var k :| k in t.runs && r == RunRow(t, k);
      CandidatesComparable(t.candidates[k]);
      ListingAscending(CandidateLess, t.candidates[k].Values);
    }
  }

  lemma KeyedMapsEqual<K, V>(a: map<K, V>, b: map<K, V>, key: V -> K)
    requires a.Values == b.Values
    requires (forall k :: k in a ==> key(a[k]) == k) && (forall k :: k in b ==> key(b[k]) == k)
    ensures a == b
  {
    forall k | k in a ensures k in b && a[k] == b[k] {
      assert a[k] in b.Values;
    }
    forall k | k in b ensures k in a {
      assert b[k] in a.Values;
    }
  }

  /** A snapshot determines the tables it was built from, source bindings aside. */
  lemma BuildInjective(t: Tables, u: Tables)
    requires Keyed(t) && Keyed(u) && Build(t) == Build(u)
    ensures t.(sources := u.sources) == u
  {
    BuildRows(t);
    BuildRows(u);
    hide Build, Ordered, RunRows;
    assert t.scopes == u.scopes && t.lenses == u.lenses && t.actors == u.actors && t.judgments == u.judgments by {
      hide KeyedCandidates;
      KeyedMapsEqual(t.scopes, u.scopes, ScopeKey);
      KeyedMapsEqual(t.lenses, u.lenses, LensKey);
      KeyedMapsEqual(t.actors, u.actors, ActorKey);
      KeyedMapsEqual(t.judgments, u.judgments, JudgmentKey);
    }
    hide Keyed;
    RunTablesEqual(t, u);
  }

  lemma RunTablesEqual(t: Tables, u: Tables)
    requires Keyed(t) && Keyed(u) && RunRows(t) == RunRows(u)
    ensures t.runs == u.runs && t.candidates == u.candidates
  {
    hide RunRows, Keyed;
    RunTablesIncluded(t, u);
    RunTablesIncluded(u, t);
  }

  lemma RunTablesIncluded(t: Tables, u: Tables)
    requires Keyed(t) && Keyed(u) && RunRows(t) == RunRows(u)
    ensures forall k :: k in t.runs ==> k in u.runs && u.runs[k] == t.runs[k]
    ensures forall k :: k in t.candidates ==> k in u.candidates && u.candidates[k] == t.candidates[k]
  {
    Orders();
    forall k | k in t.runs
      ensures k in u.runs && u.runs[k] == t.runs[k] && u.candidates[k] == t.candidates[k]
    {
      assert RunRow(t, k) in RunRows(u);
      var l :| l in u.runs && RunRow(u, l) == RunRow(t, k);
      CandidatesComparable(t.candidates[k]);
      CandidatesComparable(u.candidates[k]);
      ListingAscending(CandidateLess, t.candidates[k].Values);
      ListingAscending(CandidateLess, u.candidates[k].Values);
      KeyedMapsEqual(t.candidates[k], u.candidates[k], (c: Candidate) => c.recordID);
    }
  }

  // ------------------------------------------------------------ acceptance

  /** Two ids in one map key of the validator, with a NUL between them. */
  function Joined(a: string, b: string): string {
    a + ['\0'] + b
  }

  predicate NoNul(s: string) {
    '\0' !in s
  }

  /** A joined key gives its parts back when the first has no NUL of its own. */
  lemma JoinedParts(a: string, b: string, c: string, d: string)
    ensures Joined(a, b) == Joined(a, d) ==> b == d
    ensures NoNul(a) && NoNul(c) && Joined(a, b) == Joined(c, d) ==> a == c && b == d
  {
    assert Joined(a, b)[|a| + 1..] == b && Joined(a, d)[|a| + 1..] == d;
    if NoNul(a) && NoNul(c) && Joined(a, b) == Joined(c, d) {
      BeforeMark('\0', a, b, c, d);
    }
  }

  predicate ValidStatus(s: Status) {
    s.Active? || s.Archived?
  }

  predicate ScopeOK(env: Env, s: Scope) {
    && Bounded(s.id, 256) && Bounded(s.name, 1024) && Bounded(s.purpose, TEXT_LIMIT)
    && ValidStatus(s.status) && Bounded(s.createdAt, 256) && Bounded(s.updatedAt, 256)
    && !AnySecret(env, [s.id, s.name, s.purpose, s.createdAt, s.updatedAt])
  }

  predicate LensOK(env: Env, l: Lens) {
    && Bounded(l.id, 256) && Bounded(l.name, 1024) && Bounded(l.query, TEXT_LIMIT)
    && ValidStatus(l.status) && Bounded(l.createdAt, 256) && Bounded(l.updatedAt, 256)
    && !AnySecret(env, [l.scopeID, l.id, l.name, l.query, l.createdAt, l.updatedAt])
  }

  predicate ActorOK(env: Env, a: AgentActor) {
    && Bounded(a.id, 256) && Bounded(a.name, 1024)
    && ValidStatus(a.status) && Bounded(a.createdAt, 256) && Bounded(a.updatedAt, 256)
    && !AnySecret(env, [a.id, a.name, a.createdAt, a.updatedAt])
  }

  predicate HeaderOK(env: Env, h: RunHeader) {
    && Bounded(h.runID, 256) && Bounded(h.query, TEXT_LIMIT) && Bounded(h.retrievalMethod, 1024)
    && Bounded(h.library, 256) && Bounded(h.createdAt, 256)
    && !AnySecret(env, [h.runID, h.query, h.scopeID, h.lensID, h.agentID, h.retrievalMethod,
                        h.library, h.createdAt])
  }

  predicate ComponentOK(env: Env, name: string, score: Score) {
    Bounded(name, 256) && !env.secretLike(name) && score.Finite?
  }

  predicate CandidateOK(env: Env, c: Candidate) {
    && Bounded(c.recordID, 1024) && c.rank >= 1 && !AnySecret(env, [c.recordID])
    && c.finalScore.Finite? && |c.components| <= 1000
    && (forall name :: name in c.components ==> ComponentOK(env, name, c.components[name]))
  }

  predicate CandidatesOK(env: Env, cs: seq<Candidate>) {
    && (forall i :: 0 <= i < |cs| ==> CandidateOK(env, cs[i]))
    && (forall i, j :: 0 <= i < j < |cs| ==>
          cs[i].recordID != cs[j].recordID && cs[i].rank != cs[j].rank)
  }

  function WeightOf(actor: Actor): (w: Option<int>) {
    match actor
    case Owner => Some(4)
    case Agent => Some(1)
    case OtherActor(_) => None
  }

  /** scopedJudgmentEffect: a signed weight for used and dismissed, else an error. */
  function EffectOf(actor: Actor, disposition: Disposition): (e: Option<int>) {
    match (WeightOf(actor), disposition)
    case (Some(w), Used) => Some(w)
    case (Some(w), Dismissed) => Some(-w)
    case (_, _) => None
  }

  /** What a judgment must share with the run it was made in. */
  predicate OfRun(j: Judgment, h: RunHeader) {
    && h.runID == j.runID && h.scopeID == j.scopeID && h.lensID == j.lensID
    && ((j.actor.Owner? && j.agentID == "") || (j.actor.Agent? && j.agentID == h.agentID))
  }

  /** Some run and one of its records join to this key. */
  predicate CandidateListed(runs: seq<Run>, key: string) {
    exists r, c :: r in runs && c in r.candidates && Joined(r.header.runID, c.recordID) == key
  }

  predicate LensListed(lenses: seq<Lens>, key: string) {
    exists l :: l in lenses && Joined(l.scopeID, l.id) == key
  }

  predicate JudgmentTextOK(env: Env, j: Judgment) {
    && Bounded(j.judgmentID, 256) && Bounded(j.key, 1024)
    && !AnySecret(env, [j.judgmentID, j.key, j.runID, j.scopeID, j.lensID, j.agentID, j.recordID,
                        j.reason, j.reversesID, j.createdAt])
    && OptionalBounded(j.reason, 4096) && Bounded(j.createdAt, 256)
    && (j.reversesID == "" ==> EffectOf(j.actor, j.disposition) == Some(j.effect))
  }

  predicate Undoes(r: Judgment, o: Judgment) {
    && o.reversesID == "" && r.reversesID == o.judgmentID && r.disposition.Reversed?
    && r.runID == o.runID && r.scopeID == o.scopeID && r.lensID == o.lensID
    && r.agentID == o.agentID && r.recordID == o.recordID && r.actor == o.actor
    && r.effect == -o.effect
  }

  predicate ScopesValid(env: Env, scopes: seq<Scope>) {
    && (forall i :: 0 <= i < |scopes| ==> ScopeOK(env, scopes[i]))
    && (forall i, j :: 0 <= i < j < |scopes| ==> scopes[i].id != scopes[j].id)
  }

  predicate ScopeListed(scopes: seq<Scope>, id: string) {
    exists s :: s in scopes && s.id == id
  }

  predicate LensesValid(env: Env, scopes: seq<Scope>, lenses: seq<Lens>) {
    && (forall i :: 0 <= i < |lenses| ==> LensOK(env, lenses[i]) && ScopeListed(scopes, lenses[i].scopeID))
    && (forall i, j :: 0 <= i < j < |lenses| ==>
          Joined(lenses[i].scopeID, lenses[i].id) != Joined(lenses[j].scopeID, lenses[j].id))
  }

  predicate ActorsValid(env: Env, actors: seq<AgentActor>) {
    && (forall i :: 0 <= i < |actors| ==> ActorOK(env, actors[i]))
    && (forall i, j :: 0 <= i < j < |actors| ==> actors[i].id != actors[j].id)
  }

  predicate RunOK(env: Env, lenses: seq<Lens>, actors: seq<AgentActor>, r: Run) {
    && HeaderOK(env, r.header)
    && LensListed(lenses, Joined(r.header.scopeID, r.header.lensID))
    && (exists a :: a in actors && a.id == r.header.agentID)
    && |r.candidates| <= 100 && CandidatesOK(env, r.candidates)
  }

  predicate RunsValid(env: Env, lenses: seq<Lens>, actors: seq<AgentActor>, runs: seq<Run>) {
    && (forall i :: 0 <= i < |runs| ==> RunOK(env, lenses, actors, runs[i]))
    && (forall i, j :: 0 <= i < j < |runs| ==> runs[i].header.runID != runs[j].header.runID)
  }

  predicate JudgmentOK(env: Env, runs: seq<Run>, j: Judgment) {
    && JudgmentTextOK(env, j) && (exists r :: r in runs && OfRun(j, r.header))
    && CandidateListed(runs, Joined(j.runID, j.recordID))
  }

  /** Reversals pair up: each undoes one original and no original is undone twice. */
  predicate ReversalsValid(js: seq<Judgment>) {
    && (forall i :: 0 <= i < |js| && js[i].reversesID != "" ==>
          exists o :: o in js && Undoes(js[i], o))
    && (forall i, j :: 0 <= i < j < |js| && js[i].reversesID != "" ==>
          js[i].reversesID != js[j].reversesID)
  }

  predicate JudgmentsValid(env: Env, runs: seq<Run>, js: seq<Judgment>) {
    && (forall i :: 0 <= i < |js| ==> JudgmentOK(env, runs, js[i]))
    && (forall i, j :: 0 <= i < j < |js| ==>
          js[i].judgmentID != js[j].judgmentID && js[i].key != js[j].key)
    && ReversalsValid(js)
  }

  /** validateScopedRecoverySnapshot as one statement. */
  predicate Valid(env: Env, s: Snapshot) {
    && ScopesValid(env, s.scopes)
    && LensesValid(env, s.scopes, s.lenses)
    && ActorsValid(env, s.actors)
    && RunsValid(env, s.lenses, s.actors, s.runs)
    && JudgmentsValid(env, s.runs, s.judgments)
  }

  predicate Fits(env: Env, s: Snapshot) {
    env.limit >= 1 && env.encodedSize(s) <= env.limit
  }

  /** What every preflight demands of the projection it computes. */
  predicate Acceptable(env: Env, s: Snapshot) {
    Valid(env, s) && Fits(env, s)
  }

  // ------------------------------------------------- validity read off tables

  function ScopeKey(r: Scope): string { r.id }
  function LensKey(r: Lens): (string, string) { (r.scopeID, r.id) }
  function ActorKey(r: AgentActor): string { r.id }
  function RunKey(r: Run): string { r.header.runID }
  function CandidateKey(r: Candidate): string { r.recordID }
  function JudgmentKey(r: Judgment): string { r.judgmentID }
  function Target(j: Judgment): string { j.reversesID }

  ghost predicate JudgmentPlaced(t: Tables, j: Judgment) {
    j.runID in t.runs && OfRun(j, t.runs[j.runID]) && CandidatePlaced(t, Joined(j.runID, j.recordID))
  }

  ghost predicate CandidatePlaced(t: Tables, key: string) {
    exists r, c :: r in t.candidates && c in t.candidates[r] && Joined(r, c) == key
  }

  ghost predicate LensKeysApart(lenses: map<(string, string), Lens>) {
    forall k, l :: k in lenses && l in lenses && k != l ==> Joined(k.0, k.1) != Joined(l.0, l.1)
  }

  ghost predicate EntitiesValid(env: Env, t: Tables) {
    && (forall k :: k in t.scopes ==> ScopeOK(env, t.scopes[k]))
    && (forall k :: k in t.lenses ==> LensOK(env, t.lenses[k]) && k.0 in t.scopes)
    && (forall k :: k in t.actors ==> ActorOK(env, t.actors[k])) && LensKeysApart(t.lenses)
  }

  ghost predicate RunsPlaced(env: Env, t: Tables) {
    forall k :: k in t.runs ==> k in t.candidates && RunPlaced(env, t, k)
  }

  ghost predicate LogPlaced(env: Env, t: Tables) {
    && (forall k :: k in t.judgments ==> JudgmentTextOK(env, t.judgments[k]) && JudgmentPlaced(t, t.judgments[k]))
    && PairsPlaced(t.judgments)
  }

  /** The validator's verdict on the snapshot, as a fact about the tables. */
  ghost predicate TablesValid(env: Env, t: Tables) {
    EntitiesValid(env, t) && RunsPlaced(env, t) && LogPlaced(env, t)
  }

  /** Rows of a listing and rows of a keyed table are the same rows. */
  lemma ListedRows<K, R(!new)>(less: (R, R) -> bool, key: R -> K, table: map<K, R>)
    requires StrictOrder(less) && Comparable(less, table.Values)
    requires forall k :: k in table ==> key(table[k]) == k
    ensures forall i :: 0 <= i < |Listing(less, table.Values)| ==>
              key(Listing(less, table.Values)[i]) in table &&
              table[key(Listing(less, table.Values)[i])] == Listing(less, table.Values)[i]
    ensures forall k :: k in table ==> table[k] in Listing(less, table.Values)
    ensures forall i, j :: 0 <= i < j < |Listing(less, table.Values)| ==>
              key(Listing(less, table.Values)[i]) != key(Listing(less, table.Values)[j])
  {
    var s := Listing(less, table.Values);
    ListingAscending(less, table.Values);
    forall i | 0 <= i < |s| ensures key(s[i]) in table && table[key(s[i])] == s[i] {
      assert s[i] in Rows(s);
      var k :| k in table && table[k] == s[i];
    }
    forall k | k in table ensures table[k] in s {
      assert table[k] in Rows(s);
    }
    forall i, j | 0 <= i < j < |s| ensures key(s[i]) != key(s[j]) {
      assert less(s[i], s[j]);
    }
  }

  /** A section of a snapshot against its table: the same facts hold of the same
      rows, keys differ, and each key of the table is listed. */
  ghost predicate Lists<K, R>(s: seq<R>, key: R -> K, table: map<K, R>) {
    && (forall i :: 0 <= i < |s| ==> key(s[i]) in table && table[key(s[i])] == s[i])
    && (forall k :: k in table ==> table[k] in s && key(table[k]) == k)
    && (forall i, j :: 0 <= i < j < |s| ==> key(s[i]) != key(s[j]))
  }

  lemma ListsAll<K, R>(s: seq<R>, key: R -> K, table: map<K, R>, fine: R -> bool)
    requires Lists(s, key, table)
    ensures (forall i :: 0 <= i < |s| ==> fine(s[i])) <==> (forall k :: k in table ==> fine(table[k]))
    ensures forall k :: k in table <==> exists r :: r in s && key(r) == k
  {
    if forall i :: 0 <= i < |s| ==> fine(s[i]) {
      forall k | k in table ensures fine(table[k]) {
        var i :| 0 <= i < |s| && s[i] == table[k];
      }
    }
    forall k | k in table ensures exists r :: r in s && key(r) == k {
      assert table[k] in s;
    }
  }

  lemma BuildLists(t: Tables)
    requires Keyed(t)
    ensures Lists(Build(t).scopes, ScopeKey, t.scopes)
    ensures Lists(Build(t).lenses, LensKey, t.lenses)
    ensures Lists(Build(t).actors, ActorKey, t.actors)
    ensures Lists(Build(t).judgments, JudgmentKey, t.judgments)
  {
    Orders();
    KeyedComparable(t);
    ListedRows(ScopeLess, ScopeKey, t.scopes);
    ListedRows(LensLess, LensKey, t.lenses);
    ListedRows(ActorLess, ActorKey, t.actors);
    ListedRows(JudgmentLess, JudgmentKey, t.judgments);
  }

  lemma ScopesValidIff(env: Env, s: seq<Scope>, table: map<string, Scope>)
    requires Lists(s, ScopeKey, table)
    ensures ScopesValid(env, s) <==> forall k :: k in table ==> ScopeOK(env, table[k])
    ensures forall id :: id in table <==> ScopeListed(s, id)
  {
    hide ScopeOK;
    var key := ScopeKey;
    ListsAll(s, key, table, (r: Scope) => ScopeOK(env, r));
    forall i, j | 0 <= i < j < |s| ensures s[i].id != s[j].id {
      assert key(s[i]) != key(s[j]);
    }
  }

  lemma LensesValidIff(env: Env, scopes: seq<Scope>, parents: map<string, Scope>, s: seq<Lens>,
                       table: map<(string, string), Lens>)
    requires Lists(s, LensKey, table)
    requires forall id :: id in parents <==> ScopeListed(scopes, id)
    ensures LensesValid(env, scopes, s) <==>
              (forall k :: k in table ==> LensOK(env, table[k]) && k.0 in parents) && LensKeysApart(table)
  {
    hide LensOK, ScopeListed, Joined;
    var key := LensKey;
    var fine := (r: Lens) => LensOK(env, r) && r.scopeID in parents;
    ListsAll(s, key, table, fine);
    forall k | k in table ensures fine(table[k]) <==> LensOK(env, table[k]) && k.0 in parents {
      assert key(table[k]) == k;
    }
    LensKeysListed(s, table);
    assert LensesValid(env, scopes, s) <==> (forall i :: 0 <= i < |s| ==> fine(s[i])) && LensKeysApart(table);
  }

  lemma LensKeysListed(s: seq<Lens>, table: map<(string, string), Lens>)
    requires Lists(s, LensKey, table)
    ensures (forall i, j :: 0 <= i < j < |s| ==> Joined(s[i].scopeID, s[i].id) != Joined(s[j].scopeID, s[j].id)) <==>
            LensKeysApart(table)
  {
    hide Joined;
    var key := LensKey;
    if forall i, j :: 0 <= i < j < |s| ==> Joined(s[i].scopeID, s[i].id) != Joined(s[j].scopeID, s[j].id) {
      forall k, l | k in table && l in table && k != l ensures Joined(k.0, k.1) != Joined(l.0, l.1) {
        assert key(table[k]) == k && key(table[l]) == l;
        var i :| 0 <= i < |s| && s[i] == table[k];
        var j :| 0 <= j < |s| && s[j] == table[l];
      }
    }
    if LensKeysApart(table) {
      forall i, j | 0 <= i < j < |s| ensures Joined(s[i].scopeID, s[i].id) != Joined(s[j].scopeID, s[j].id) {
        assert key(s[i]) != key(s[j]) && key(s[i]) in table && key(s[j]) in table;
      }
    }
  }

  /** In keyed tables a run's lens is always listed. */
  lemma LensListedIn(s: seq<Lens>, table: map<(string, string), Lens>, k: (string, string))
    requires Lists(s, LensKey, table) && k in table
    ensures LensListed(s, Joined(k.0, k.1))
  {
    var key := LensKey;
    assert table[k] in s && key(table[k]) == k;
  }

  lemma ActorsValidIff(env: Env, s: seq<AgentActor>, table: map<string, AgentActor>)
    requires Lists(s, ActorKey, table)
    ensures ActorsValid(env, s) <==> forall k :: k in table ==> ActorOK(env, table[k])
    ensures forall id :: id in table <==> exists r :: r in s && r.id == id
  {
    hide ActorOK;
    var key := ActorKey;
    ListsAll(s, key, table, (r: AgentActor) => ActorOK(env, r));
    forall i, j | 0 <= i < j < |s| ensures s[i].id != s[j].id {
      assert key(s[i]) != key(s[j]);
    }
  }

  lemma CandidatesListed(cs: map<string, Candidate>)
    requires KeyedCandidates(cs)
    ensures Lists(Listing(CandidateLess, cs.Values), CandidateKey, cs)
    ensures |Listing(CandidateLess, cs.Values)| == |cs|
  {
    Orders();
    CandidatesComparable(cs);
    ListedRows(CandidateLess, CandidateKey, cs);
    ListingAscending(CandidateLess, cs.Values);
    ValuesCount(cs, CandidateKey);
  }

  lemma CandidatesOKIff(env: Env, cs: map<string, Candidate>)
    requires KeyedCandidates(cs)
    ensures CandidatesOK(env, Listing(CandidateLess, cs.Values)) <==> forall c :: c in cs ==> CandidateOK(env, cs[c])
    ensures |Listing(CandidateLess, cs.Values)| == |cs|
    ensures forall id :: id in cs <==> exists c :: c in Listing(CandidateLess, cs.Values) && c.recordID == id
  {
    hide CandidateOK;
    CandidatesListed(cs);
    var s, key := Listing(CandidateLess, cs.Values), CandidateKey;
    ListsAll(s, key, cs, (c: Candidate) => CandidateOK(env, c));
    forall i, j | 0 <= i < j < |s| ensures s[i].recordID != s[j].recordID && s[i].rank != s[j].rank {
      assert key(s[i]) != key(s[j]);
      assert cs[key(s[i])] == s[i] && cs[key(s[j])] == s[j];
    }
  }

  lemma {:induction false} ValuesCount<K, V>(m: map<K, V>, key: V -> K)
    requires forall k :: k in m ==> key(m[k]) == k
    ensures |m.Values| == |m|
    decreases |m|
  {
    if m != map[] {
      var k :| k in m;
      var rest := m - {k};
      ValuesCount(rest, key);
      forall v ensures v in m.Values <==> v in rest.Values + {m[k]} {
        if v in m.Values && v != m[k] {
          var l :| l in m && m[l] == v;
          assert l in rest && rest[l] == v;
        }
      }
      assert m.Values == rest.Values + {m[k]};
      assert m[k] !in rest.Values;
    }
  }

  ghost predicate RunPlaced(env: Env, t: Tables, k: string)
    requires k in t.runs && k in t.candidates
  {
    && HeaderOK(env, t.runs[k])
    && (t.runs[k].scopeID, t.runs[k].lensID) in t.lenses && t.runs[k].agentID in t.actors
    && |t.candidates[k]| <= 100
    && forall c :: c in t.candidates[k] ==> CandidateOK(env, t.candidates[k][c])
  }

  lemma RunsListed(t: Tables, fine: Run -> bool)
    requires Keyed(t)
    ensures var s := Build(t).runs;
            && ((forall i :: 0 <= i < |s| ==> fine(s[i])) <==> (forall k :: k in t.runs ==> fine(RunRow(t, k))))
            && (forall i, j :: 0 <= i < j < |s| ==> s[i].header.runID != s[j].header.runID)
  {
    var rows := map k | k in t.runs :: RunRow(t, k);
    forall r ensures r in rows.Values <==> r in RunRows(t) {
      if r in RunRows(t) {
        var k :| k in t.runs && RunRow(t, k) == r;
        assert rows[k] == r;
      }
    }
    assert rows.Values == RunRows(t);
    Orders();
    KeyedComparable(t);
    var key := RunKey;
    ListedRows(RunLess, key, rows);
    ListsAll(Build(t).runs, key, rows, fine);
    forall i, j | 0 <= i < j < |Build(t).runs| ensures Build(t).runs[i].header.runID != Build(t).runs[j].header.runID {
      assert key(Build(t).runs[i]) != key(Build(t).runs[j]);
    }
    if forall k :: k in rows ==> fine(rows[k]) {
      forall k | k in t.runs ensures fine(RunRow(t, k)) {
        assert rows[k] == RunRow(t, k);
      }
    }
  }

  lemma RunPlacedIff(env: Env, t: Tables, lenses: seq<Lens>, actors: seq<AgentActor>, k: string)
    requires Keyed(t) && k in t.runs && Lists(lenses, LensKey, t.lenses)
    requires forall id :: id in t.actors <==> exists r :: r in actors && r.id == id
    ensures RunOK(env, lenses, actors, RunRow(t, k)) <==> RunPlaced(env, t, k)
  {
    hide HeaderOK, CandidateOK, CandidatesOK, Lists, LensListed, Joined;
    CandidatesOKIff(env, t.candidates[k]);
    LensListedIn(lenses, t.lenses, (t.runs[k].scopeID, t.runs[k].lensID));
  }

  lemma RunsValidIff(env: Env, t: Tables, lenses: seq<Lens>, actors: seq<AgentActor>)
    requires Keyed(t) && Lists(lenses, LensKey, t.lenses)
    requires forall id :: id in t.actors <==> exists r :: r in actors && r.id == id
    ensures RunsValid(env, lenses, actors, Build(t).runs) <==> forall k :: k in t.runs ==> RunPlaced(env, t, k)
  {
    hide RunOK, RunPlaced, RunRow, Build, Lists;
    forall k | k in t.runs ensures RunOK(env, lenses, actors, RunRow(t, k)) <==> RunPlaced(env, t, k) {
      RunPlacedIff(env, t, lenses, actors, k);
    }
    RunsListed(t, (r: Run) => RunOK(env, lenses, actors, r));
  }

  lemma OfRunIff(t: Tables, j: Judgment)
    requires Keyed(t)
    ensures (exists r :: r in Build(t).runs && OfRun(j, r.header)) <==> j.runID in t.runs && OfRun(j, t.runs[j.runID])
  {
    BuildRows(t);
    hide Build, Ordered;
    if j.runID in t.runs && OfRun(j, t.runs[j.runID]) {
      assert RunRow(t, j.runID) in Rows(Build(t).runs);
    }
    if r :| r in Build(t).runs && OfRun(j, r.header) {
      assert r in RunRows(t);
    }
  }

  lemma CandidateListedIff(t: Tables, key: string)
    requires Keyed(t)
    ensures CandidateListed(Build(t).runs, key) <==> CandidatePlaced(t, key)
  {
    BuildRows(t);
    KeyedRuns(t);
    hide Build, Ordered, Joined, RunRows, RunRow, Keyed;
    var runs := Build(t).runs;
    if CandidatePlaced(t, key) {
      var r, c :| r in t.candidates && c in t.candidates[r] && Joined(r, c) == key;
      PlacedIsListed(t, runs, r, c);
    }
    if CandidateListed(runs, key) {
      var r, c :| r in runs && c in r.candidates && Joined(r.header.runID, c.recordID) == key;
      ListedIsPlaced(t, runs, r, c);
    }
  }

  lemma PlacedIsListed(t: Tables, runs: seq<Run>, r: string, c: string)
    requires Keyed(t) && Rows(runs) == RunRows(t) && r in t.candidates && c in t.candidates[r]
    ensures CandidateListed(runs, Joined(r, c))
  {
    CandidatesListed(t.candidates[r]);
    assert RunRow(t, r) in Rows(runs);
    hide Joined, Listing;
    var key := CandidateKey;
    assert key(t.candidates[r][c]) == c;
    assert t.candidates[r][c] in RunRow(t, r).candidates;
  }

  lemma ListedIsPlaced(t: Tables, runs: seq<Run>, r: Run, c: Candidate)
    requires Keyed(t) && Rows(runs) == RunRows(t) && r in runs && c in r.candidates
    ensures CandidatePlaced(t, Joined(r.header.runID, c.recordID))
  {
    assert r in Rows(runs);
    var k :| k in t.runs && k in t.candidates && RunRow(t, k) == r;
    CandidatesListed(t.candidates[k]);
    hide Joined, Listing;
    var key := CandidateKey;
    assert key(c) in t.candidates[k];
  }

  lemma PlacedIff(t: Tables, j: Judgment)
    requires Keyed(t)
    ensures ((exists r :: r in Build(t).runs && OfRun(j, r.header)) &&
             CandidateListed(Build(t).runs, Joined(j.runID, j.recordID))) <==> JudgmentPlaced(t, j)
  {
    hide Keyed, Build, CandidateListed, CandidatePlaced, OfRun;
    OfRunIff(t, j);
    CandidateListedIff(t, Joined(j.runID, j.recordID));
  }

  lemma JudgmentsValidIff(env: Env, t: Tables, s: seq<Judgment>)
    requires Keyed(t) && s == Build(t).judgments
    requires Lists(s, JudgmentKey, t.judgments)
    ensures JudgmentsValid(env, Build(t).runs, s) <==> LogPlaced(env, t)
  {
    hide JudgmentTextOK, OfRun, CandidateListed, Joined, JudgmentPlaced, PairsPlaced, ReversalsValid, Build, Keyed,
         Lists;
    forall j: Judgment
      ensures JudgmentOK(env, Build(t).runs, j) <==> JudgmentTextOK(env, j) && JudgmentPlaced(t, j)
    {
      PlacedIff(t, j);
    }
    assert (forall i :: 0 <= i < |s| ==> JudgmentOK(env, Build(t).runs, s[i])) <==>
           (forall k :: k in t.judgments ==>
            JudgmentTextOK(env, t.judgments[k]) && JudgmentPlaced(t, t.judgments[k])) by {
      hide JudgmentOK;
      ListsAll(s, JudgmentKey, t.judgments, (j: Judgment) => JudgmentOK(env, Build(t).runs, j));
    }
    hide JudgmentOK;
    LogPairsIff(t.judgments, s);
  }

  ghost predicate PairsPlaced(js: map<string, Judgment>) {
    && (forall k, l :: k in js && l in js && k != l ==> js[k].key != js[l].key)
    && (forall k :: k in js && js[k].reversesID != "" ==>
          js[k].reversesID in js && Undoes(js[k], js[js[k].reversesID]))
    && (forall k, l :: k in js && l in js && k != l && js[k].reversesID != "" ==> js[k].reversesID != js[l].reversesID)
  }

  lemma LogPairsIff(js: map<string, Judgment>, s: seq<Judgment>)
    requires Lists(s, JudgmentKey, js)
    ensures PairsPlaced(js) <==>
              (forall i, j :: 0 <= i < j < |s| ==> s[i].judgmentID != s[j].judgmentID && s[i].key != s[j].key) &&
              ReversalsValid(s)
  {
    hide Lists, Undoes;
    ListedIDs(js, s);
    KeyPairsIff(js, s);
    TargetPairsIff(js, s);
    UndoneListed(js, s);
  }

  lemma KeyPairsIff(js: map<string, Judgment>, s: seq<Judgment>)
    requires Lists(s, JudgmentKey, js)
    ensures (forall i, j :: 0 <= i < j < |s| ==> s[i].key != s[j].key) <==>
            (forall k, l :: k in js && l in js && k != l ==> js[k].key != js[l].key)
  {
    hide Lists;
    PairwiseListed(s, JudgmentKey, js, (a: Judgment, b: Judgment) => a.key != b.key);
  }

  lemma TargetPairsIff(js: map<string, Judgment>, s: seq<Judgment>)
    requires Lists(s, JudgmentKey, js)
    ensures (forall i, j :: 0 <= i < j < |s| && s[i].reversesID != "" ==> s[i].reversesID != s[j].reversesID) <==>
            (forall k, l :: k in js && l in js && k != l && js[k].reversesID != "" ==>
             js[k].reversesID != js[l].reversesID)
  {
    hide Lists;
    PairwiseListed(s, JudgmentKey, js,
                   (a: Judgment, b: Judgment) => a.reversesID != "" ==> a.reversesID != b.reversesID);
  }

  lemma ListedIDs(js: map<string, Judgment>, s: seq<Judgment>)
    requires Lists(s, JudgmentKey, js)
    ensures forall i, j :: 0 <= i < j < |s| ==> s[i].judgmentID != s[j].judgmentID
  {
    var key := JudgmentKey;
    forall i, j | 0 <= i < j < |s| ensures s[i].judgmentID != s[j].judgmentID {
      assert key(s[i]) != key(s[j]);
    }
  }

  lemma UndoneListed(js: map<string, Judgment>, s: seq<Judgment>)
    requires Lists(s, JudgmentKey, js)
    ensures (forall i :: 0 <= i < |s| && s[i].reversesID != "" ==> exists o :: o in s && Undoes(s[i], o)) <==>
            (forall k :: k in js && js[k].reversesID != "" ==>
             js[k].reversesID in js && Undoes(js[k], js[js[k].reversesID]))
  {
    var key := JudgmentKey;
    if forall i :: 0 <= i < |s| && s[i].reversesID != "" ==> exists o :: o in s && Undoes(s[i], o) {
      forall k | k in js && js[k].reversesID != ""
        ensures js[k].reversesID in js && Undoes(js[k], js[js[k].reversesID])
      {
        var i :| 0 <= i < |s| && s[i] == js[k];
        var o :| o in s && Undoes(s[i], o);
        assert key(o) in js && js[key(o)] == o;
      }
    }
    if forall k :: k in js && js[k].reversesID != "" ==> js[k].reversesID in js && Undoes(js[k], js[js[k].reversesID]) {
      forall i | 0 <= i < |s| && s[i].reversesID != "" ensures exists o :: o in s && Undoes(s[i], o) {
        assert key(s[i]) in js;
        assert Undoes(s[i], js[s[i].reversesID]);
      }
    }
  }

  /** A symmetric fact about all pairs of listed rows is one about all pairs of table rows. */
  lemma PairwiseListed<K(!new), R(!new)>(s: seq<R>, key: R -> K, table: map<K, R>, apart: (R, R) -> bool)
    requires Lists(s, key, table)
    requires forall a, b :: apart(a, b) ==> apart(b, a)
    ensures (forall i, j :: 0 <= i < j < |s| ==> apart(s[i], s[j])) <==>
            (forall k, l :: k in table && l in table && k != l ==> apart(table[k], table[l]))
  {
    if forall i, j :: 0 <= i < j < |s| ==> apart(s[i], s[j]) {
      forall k, l | k in table && l in table && k != l ensures apart(table[k], table[l]) {
        var i :| 0 <= i < |s| && s[i] == table[k];
        var j :| 0 <= j < |s| && s[j] == table[l];
        assert apart(s[if i < j then i else j], s[if i < j then j else i]);
      }
    }
    if forall k, l :: k in table && l in table && k != l ==> apart(table[k], table[l]) {
      forall i, j | 0 <= i < j < |s| ensures apart(s[i], s[j]) {
        assert apart(table[key(s[i])], table[key(s[j])]);
      }
    }
  }

  lemma EntitiesSection(env: Env, t: Tables)
    requires Keyed(t)
    ensures EntitiesValid(env, t) <==>
              ScopesValid(env, Build(t).scopes) && LensesValid(env, Build(t).scopes, Build(t).lenses) &&
              ActorsValid(env, Build(t).actors)
  {
    hide ScopeOK, LensOK, ActorOK, ScopesValid, LensesValid, ActorsValid, Lists, Build, Keyed, LensKeysApart;
    BuildLists(t);
    assert ScopesValid(env, Build(t).scopes) <==> forall k :: k in t.scopes ==> ScopeOK(env, t.scopes[k]) by {
      ScopesValidIff(env, Build(t).scopes, t.scopes);
    }
    assert LensesValid(env, Build(t).scopes, Build(t).lenses) <==>
           (forall k :: k in t.lenses ==> LensOK(env, t.lenses[k]) && k.0 in t.scopes) && LensKeysApart(t.lenses) by {
      ScopesValidIff(env, Build(t).scopes, t.scopes);
      LensesValidIff(env, Build(t).scopes, t.scopes, Build(t).lenses, t.lenses);
    }
    assert ActorsValid(env, Build(t).actors) <==> forall k :: k in t.actors ==> ActorOK(env, t.actors[k]) by {
      ActorsValidIff(env, Build(t).actors, t.actors);
    }
  }

  lemma RunsSection(env: Env, t: Tables)
    requires Keyed(t)
    ensures RunsValid(env, Build(t).lenses, Build(t).actors, Build(t).runs) <==> RunsPlaced(env, t)
  {
    KeyedRuns(t);
    hide RunPlaced, RunsValid, Build, Keyed, Lists, LensKey, ActorKey;
    BuildLists(t);
    assert forall id :: id in t.actors <==> exists r :: r in Build(t).actors && r.id == id by {
      ListsAll(Build(t).actors, ActorKey, t.actors, r => true);
      ActorKeyIs();
    }
    RunsValidIff(env, t, Build(t).lenses, Build(t).actors);
  }

  lemma KeyedRuns(t: Tables)
    requires Keyed(t)
    ensures t.candidates.Keys == t.runs.Keys
  {
  }

  lemma ActorKeyIs()
    ensures forall a: AgentActor :: ActorKey(a) == a.id
  {
  }

  lemma LogSection(env: Env, t: Tables)
    requires Keyed(t)
    ensures JudgmentsValid(env, Build(t).runs, Build(t).judgments) <==> LogPlaced(env, t)
  {
    hide JudgmentsValid, LogPlaced;
    BuildLists(t);
    JudgmentsValidIff(env, t, Build(t).judgments);
  }

  /** The validator accepts a built snapshot exactly when the tables are valid. */
  lemma ValidIff(env: Env, t: Tables)
    requires Keyed(t)
    ensures Valid(env, Build(t)) <==> TablesValid(env, t)
  {
    hide ScopesValid, LensesValid, ActorsValid, RunsValid, JudgmentsValid;
    hide EntitiesValid, RunsPlaced, LogPlaced, Build, Keyed;
    EntitiesSection(env, t);
    RunsSection(env, t);
    LogSection(env, t);
  }
}
