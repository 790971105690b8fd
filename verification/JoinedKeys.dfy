/** The validator finds lenses and candidates by two ids joined with a NUL. What
    that accepts is compared with what the tables demand, ids taken one by one. */
module JoinedKeys {
  import opened Text
  import opened ScopedModel
  import opened ScopedRecovery
  import opened Preflight
  import opened ScopedStore

  // ------------------------------------------------------------- two readings

  /** The run a judgment belongs to shows its record. */
  ghost predicate RecordShown(runs: seq<Run>, j: Judgment) {
    exists r, c :: r in runs && OfRun(j, r.header) && c in r.candidates && c.recordID == j.recordID
  }

  ghost predicate RecordsListed(s: Snapshot) {
    forall j :: j in s.judgments ==> RecordShown(s.runs, j)
  }

  /** No two lenses join to the same key. */
  ghost predicate KeysApart(lenses: seq<Lens>) {
    forall i, j :: 0 <= i < j < |lenses| ==>
      Joined(lenses[i].scopeID, lenses[i].id) != Joined(lenses[j].scopeID, lenses[j].id)
  }

  ghost predicate PairLenses(env: Env, s: Snapshot) {
    && (forall l :: l in s.lenses ==> LensOK(env, l) && ScopeListed(s.scopes, l.scopeID))
    && (forall i, j :: 0 <= i < j < |s.lenses| ==>
          (s.lenses[i].scopeID, s.lenses[i].id) != (s.lenses[j].scopeID, s.lenses[j].id))
  }

  ghost predicate PairRuns(env: Env, s: Snapshot) {
    && (forall r :: r in s.runs ==> HeaderOK(env, r.header) && |r.candidates| <= 100 && CandidatesOK(env, r.candidates))
    && (forall i, j :: 0 <= i < j < |s.runs| ==> s.runs[i].header.runID != s.runs[j].header.runID)
    && ParentsListed(s)
  }

  ghost predicate PairLog(env: Env, s: Snapshot) {
    && (forall j :: j in s.judgments ==> JudgmentTextOK(env, j))
    && (forall i, j :: 0 <= i < j < |s.judgments| ==>
          s.judgments[i].judgmentID != s.judgments[j].judgmentID && s.judgments[i].key != s.judgments[j].key)
    && ReversalsValid(s.judgments) && RecordsListed(s)
  }

  /** Validity with every id compared on its own. */
  ghost predicate PairsValid(env: Env, s: Snapshot) {
    ScopesValid(env, s.scopes) && PairLenses(env, s) && ActorsValid(env, s.actors) && PairRuns(env, s) &&
      PairLog(env, s)
  }

  lemma LensesCompared(env: Env, s: Snapshot)
    ensures LensesValid(env, s.scopes, s.lenses) <==> PairLenses(env, s) && KeysApart(s.lenses)
  {
    hide LensOK, ScopeListed, Joined;
  }

  /** A run whose pair is listed is found under its joined key. */
  lemma RunsCompared(env: Env, s: Snapshot)
    ensures RunsValid(env, s.lenses, s.actors, s.runs) && ParentsListed(s) <==> PairRuns(env, s)
  {
    hide HeaderOK, CandidatesOK, Joined;
    if PairRuns(env, s) {
      forall i | 0 <= i < |s.runs| ensures RunOK(env, s.lenses, s.actors, s.runs[i]) {
        var r := s.runs[i];
        assert r in s.runs;
        var l :| l in s.lenses && l.scopeID == r.header.scopeID && l.id == r.header.lensID;
        assert Joined(l.scopeID, l.id) == Joined(r.header.scopeID, r.header.lensID);
      }
    }
  }

  lemma ShownIsListed(runs: seq<Run>, j: Judgment)
    requires RecordShown(runs, j)
    ensures (exists r :: r in runs && OfRun(j, r.header)) && CandidateListed(runs, Joined(j.runID, j.recordID))
  {
    hide Joined;
    var r, c :| r in runs && OfRun(j, r.header) && c in r.candidates && c.recordID == j.recordID;
    assert Joined(r.header.runID, c.recordID) == Joined(j.runID, j.recordID);
  }

  lemma LogCompared(env: Env, s: Snapshot)
    ensures JudgmentsValid(env, s.runs, s.judgments) && RecordsListed(s) <==> PairLog(env, s)
  {
    hide JudgmentTextOK, ReversalsValid, RecordShown, CandidateListed, OfRun;
    forall j | j in s.judgments && RecordShown(s.runs, j)
      ensures (exists r :: r in s.runs && OfRun(j, r.header)) && CandidateListed(s.runs, Joined(j.runID, j.recordID))
    {
      ShownIsListed(s.runs, j);
    }
  }

  /** What the validator accepts beyond pairwise validity, and what it refuses:
      exactly runs and records that only their joined keys find, and lenses whose
      joined keys coincide. */
  lemma ValidAgainstPairs(env: Env, s: Snapshot)
    ensures Valid(env, s) && ParentsListed(s) && RecordsListed(s) <==> PairsValid(env, s) && KeysApart(s.lenses)
  {
    LensesCompared(env, s);
    RunsCompared(env, s);
    LogCompared(env, s);
    hide *;
    ValidParts(env, s);
    PairParts(env, s);
  }

  lemma ValidParts(env: Env, s: Snapshot)
    ensures Valid(env, s) <==>
              ScopesValid(env, s.scopes) && LensesValid(env, s.scopes, s.lenses) && ActorsValid(env, s.actors) &&
              RunsValid(env, s.lenses, s.actors, s.runs) && JudgmentsValid(env, s.runs, s.judgments)
  {
    hide ScopesValid, LensesValid, ActorsValid, RunsValid, JudgmentsValid;
  }

  lemma PairParts(env: Env, s: Snapshot)
    ensures PairsValid(env, s) <==>
              ScopesValid(env, s.scopes) && PairLenses(env, s) && ActorsValid(env, s.actors) && PairRuns(env, s) &&
                PairLog(env, s)
    ensures PairRuns(env, s) ==> ParentsListed(s)
    ensures PairLog(env, s) ==> RecordsListed(s)
  {
    hide ScopesValid, ActorsValid, PairLenses, ParentsListed, RecordsListed, HeaderOK, CandidatesOK, JudgmentTextOK,
         ReversalsValid;
  }

  // ------------------------------------------------------- ids without NUL

  /** The first id of each joined key holds no NUL. */
  ghost predicate PlainIDs(s: Snapshot) {
    && (forall l :: l in s.lenses ==> NoNul(l.scopeID))
    && (forall r :: r in s.runs ==> NoNul(r.header.scopeID) && NoNul(r.header.runID))
    && (forall j :: j in s.judgments ==> NoNul(j.runID))
  }

  lemma PlainKeysApart(env: Env, s: Snapshot)
    requires PlainIDs(s) && PairLenses(env, s)
    ensures KeysApart(s.lenses)
  {
    hide LensOK, ScopeListed, Joined, NoNul;
    forall i, j | 0 <= i < j < |s.lenses|
      ensures Joined(s.lenses[i].scopeID, s.lenses[i].id) != Joined(s.lenses[j].scopeID, s.lenses[j].id)
    {
      JoinedParts(s.lenses[i].scopeID, s.lenses[i].id, s.lenses[j].scopeID, s.lenses[j].id);
    }
  }

  lemma PlainParents(env: Env, s: Snapshot)
    requires PlainIDs(s) && RunsValid(env, s.lenses, s.actors, s.runs)
    ensures ParentsListed(s)
  {
    hide HeaderOK, CandidatesOK, Joined, NoNul;
    forall r | r in s.runs
      ensures exists l :: l in s.lenses && l.scopeID == r.header.scopeID && l.id == r.header.lensID
      ensures exists a :: a in s.actors && a.id == r.header.agentID
    {
      assert RunOK(env, s.lenses, s.actors, r);
      var l :| l in s.lenses && Joined(l.scopeID, l.id) == Joined(r.header.scopeID, r.header.lensID);
      JoinedParts(l.scopeID, l.id, r.header.scopeID, r.header.lensID);
    }
  }

  lemma PlainRecords(env: Env, s: Snapshot)
    requires PlainIDs(s) && RunsValid(env, s.lenses, s.actors, s.runs) && JudgmentsValid(env, s.runs, s.judgments)
    ensures RecordsListed(s)
  {
    hide RunOK, JudgmentTextOK, ReversalsValid, Joined, NoNul;
    forall j | j in s.judgments ensures RecordShown(s.runs, j) {
      assert JudgmentOK(env, s.runs, j);
      PlainRecord(s, j);
    }
  }

  lemma PlainRecord(s: Snapshot, j: Judgment)
    requires PlainIDs(s) && NoNul(j.runID)
    requires forall i, k :: 0 <= i < k < |s.runs| ==> s.runs[i].header.runID != s.runs[k].header.runID
    requires (exists r :: r in s.runs && OfRun(j, r.header)) && CandidateListed(s.runs, Joined(j.runID, j.recordID))
    ensures RecordShown(s.runs, j)
  {
    hide Joined, NoNul;
    var q :| q in s.runs && OfRun(j, q.header);
    var r, c :| r in s.runs && c in r.candidates && Joined(r.header.runID, c.recordID) == Joined(j.runID, j.recordID);
    JoinedParts(r.header.runID, c.recordID, j.runID, j.recordID);
    assert r == q;
  }

  /** Without NULs in those ids the two readings agree, and what validates restores. */
  lemma PlainValidIff(env: Env, s: Snapshot)
    requires PlainIDs(s)
    ensures Valid(env, s) <==> PairsValid(env, s)
    ensures Valid(env, s) ==> ParentsListed(s)
  {
    ValidAgainstPairs(env, s);
    ValidParts(env, s);
    PairParts(env, s);
    hide *;
    if Valid(env, s) {
      PlainParents(env, s);
      PlainRecords(env, s);
    }
    if PairsValid(env, s) {
      PlainKeysApart(env, s);
    }
  }

  // ---------------------------------------------------------- putting a lens

  /** No other stored lens joins to this one's key. */
  ghost predicate KeyFree(t: Tables, l: Lens) {
    forall k :: k in t.lenses && k != (l.scopeID, l.id) ==> Joined(k.0, k.1) != Joined(l.scopeID, l.id)
  }

  lemma WithLensEntities(env: Env, t: Tables, l: Lens)
    requires Keyed(t) && EntitiesValid(env, t) && l.scopeID in t.scopes
    ensures EntitiesValid(env, WithLens(t, l)) <==> LensOK(env, l) && KeyFree(t, l)
  {
    hide ScopeOK, LensOK, ActorOK, Joined, Linked, KeyedCandidates;
    var u, key := WithLens(t, l), (l.scopeID, l.id);
    assert key in u.lenses && u.lenses[key] == l;
    if EntitiesValid(env, u) {
      forall k | k in t.lenses && k != key ensures Joined(k.0, k.1) != Joined(key.0, key.1) {
        assert k in u.lenses;
      }
    }
  }

  lemma WithLensRuns(env: Env, t: Tables, l: Lens)
    requires RunsPlaced(env, t)
    ensures RunsPlaced(env, WithLens(t, l))
  {
    hide HeaderOK, CandidateOK;
    var u := WithLens(t, l);
    forall k | k in u.runs ensures k in u.candidates && RunPlaced(env, u, k) {
      assert RunPlaced(env, t, k);
    }
  }

  lemma WithLensLog(env: Env, t: Tables, l: Lens)
    requires LogPlaced(env, t)
    ensures LogPlaced(env, WithLens(t, l))
  {
    hide JudgmentTextOK, PairsPlaced, OfRun;
    var u := WithLens(t, l);
    forall k | k in u.judgments ensures JudgmentPlaced(u, u.judgments[k]) {
      assert JudgmentPlaced(t, t.judgments[k]);
    }
  }

  /** A lens may be put beside admitted rows exactly when its own fields are in
      order and no other stored lens joins to its key. */
  lemma LensGrantIff(env: Env, t: Tables, l: Lens)
    requires Keyed(t) && Valid(env, Build(t)) && l.scopeID in t.scopes
    ensures Valid(env, Build(WithLens(t, l))) <==> LensOK(env, l) && KeyFree(t, l)
  {
    hide Keyed, Build, Valid, EntitiesValid, RunsPlaced, LogPlaced, LensOK, KeyFree, WithLens;
    ValidIff(env, t);
    WithLensKeyed(t, l);
    ValidIff(env, WithLens(t, l));
    WithLensEntities(env, t, l);
    WithLensRuns(env, t, l);
    WithLensLog(env, t, l);
  }

  /** With NUL-free scope ids every key is free. */
  lemma PlainKeyFree(t: Tables, l: Lens)
    requires NoNul(l.scopeID) && forall k :: k in t.lenses ==> NoNul(k.0)
    ensures KeyFree(t, l)
  {
    hide Joined, NoNul;
    forall k | k in t.lenses && k != (l.scopeID, l.id) ensures Joined(k.0, k.1) != Joined(l.scopeID, l.id) {
      JoinedParts(k.0, k.1, l.scopeID, l.id);
    }
  }

  // ------------------------------------------------------------- three inputs

  lemma Texts()
    ensures Bounded("a", 256) && Bounded("a", 1024) && Bounded("a", TEXT_LIMIT)
    ensures Bounded("a\0b", 256) && Bounded("c", 256) && Bounded("b\0c", 256) && Bounded("c", 1024) &&
            Bounded("b\0c", 1024)
  {
    TightIsBounded("a", 256);
    TightIsBounded("a", 1024);
    TightIsBounded("a", TEXT_LIMIT);
    TightIsBounded("a\0b", 256);
    TightIsBounded("c", 256);
    TightIsBounded("c", 1024);
    TightIsBounded("b\0c", 256);
    TightIsBounded("b\0c", 1024);
  }

  function Plain(id: string): Scope { Scope(id, "a", "a", Active, "a", "a") }
  function PlainLens(scope: string, id: string): Lens { Lens(scope, id, "a", "a", Active, "a", "a") }
  const AGENT: AgentActor := AgentActor("a", "a", Active, "a", "a")

  function PlainRun(id: string, scope: string, lens: string, candidates: seq<Candidate>): Run {
    Run(RunHeader(id, "a", scope, lens, "a", "a", "a", "a"), candidates)
  }

  lemma PlainRows(id: string)
    requires Bounded(id, 256)
    ensures ScopeOK(OPEN, Plain(id)) && ActorOK(OPEN, AGENT)
    ensures forall scope :: LensOK(OPEN, PlainLens(scope, id))
    ensures forall scope, lens, cs :: HeaderOK(OPEN, PlainRun(id, scope, lens, cs).header)
  {
    Texts();
    hide Bounded;
  }

  lemma JoinedAlike()
    ensures Joined("a\0b", "c") == Joined("a", "b\0c")
  {
    assert Joined("a\0b", "c") == ['a', '\0', 'b', '\0', 'c'];
    assert Joined("a", "b\0c") == ['a', '\0', 'b', '\0', 'c'];
  }

  /** Both scopes, the lens c of the first, and no run. */
  function TwoScopes(): Tables {
    EMPTY.(scopes := map["a\0b" := Plain("a\0b"), "a" := Plain("a")],
           lenses := map[("a\0b", "c") := PlainLens("a\0b", "c")])
  }

  lemma TwoScopesKeyed()
    ensures Keyed(TwoScopes())
  {
  }

  lemma TwoScopesEntities()
    ensures EntitiesValid(OPEN, TwoScopes())
  {
    Texts();
    PlainRows("a\0b");
    PlainRows("a");
    PlainRows("c");
    hide ScopeOK, LensOK, ActorOK, Bounded, Joined, Plain, PlainLens;
  }

  lemma TwoScopesValid()
    ensures Keyed(TwoScopes()) && TablesValid(OPEN, TwoScopes())
  {
    TwoScopesKeyed();
    TwoScopesEntities();
    hide Keyed, EntitiesValid, RunPlaced, JudgmentPlaced, JudgmentTextOK;
  }

  /** Two lenses of two scopes, one joined key: the second is asked for in order
      and its own row is in order, and the preflight refuses it. */
  lemma LensRefused(fault: Fault, reply: Reply<Lens>, state: State)
    requires LensPut(OPEN, (TwoScopes(), None), PlainLens("a", "b\0c"), fault, reply, state)
    ensures Admitted(OPEN, TwoScopes()) && LensAsked(OPEN, TwoScopes(), PlainLens("a", "b\0c"))
    ensures reply.Refused? && ("a", "b\0c") !in TwoScopes().lenses
  {
    var t, p := TwoScopes(), PlainLens("a", "b\0c");
    TwoScopesValid();
    ValidIff(OPEN, t);
    Texts();
    assert LensAsked(OPEN, t, p) by { hide Bounded; }
    hide Bounded, Build, Valid, Keyed, TablesValid, LensAsked, LensOK;
    JoinedAlike();
    assert !KeyFree(t, p) by {
      assert ("a\0b", "c") in t.lenses;
    }
    hide TwoScopes;
    LensGrantIff(OPEN, t, UpsertedLens(t, p));
  }

  /** A run under a lens that only its joined key finds. */
  function StrayRun(): Snapshot {
    Snapshot([Plain("a\0b"), Plain("a")], [PlainLens("a\0b", "c")], [AGENT], [PlainRun("a", "a", "b\0c", [])], [])
  }

  /** It validates, and it cannot be inserted: restoring it is refused. */
  lemma StrayRunRefused()
    ensures Valid(OPEN, StrayRun()) && !ParentsListed(StrayRun())
  {
    var s := StrayRun();
    Texts();
    PlainRows("a\0b");
    PlainRows("a");
    PlainRows("c");
    JoinedAlike();
    hide ScopeOK, LensOK, ActorOK, HeaderOK, Bounded, Joined;
    assert s.lenses[0] in s.lenses && s.actors[0] in s.actors && s.scopes[0] in s.scopes;
    assert LensListed(s.lenses, Joined("a", "b\0c"));
    assert s.runs[0] in s.runs;
  }

  /** A judgment on a record that only the joined key of another run's finds. */
  function StrayJudgment(): Snapshot {
    var shown := Candidate("c", 1, Finite(0.0), map[]);
    Snapshot([Plain("a")], [PlainLens("a", "c")], [AGENT],
             [PlainRun("a\0b", "a", "c", [shown]), PlainRun("a", "a", "c", [])],
             [Judgment("a", "a", "a", "a", "c", "a", "b\0c", Agent, Used, "", "", 1, "a")])
  }

  lemma RunUnder(lenses: seq<Lens>, id: string, cs: seq<Candidate>)
    requires lenses == [PlainLens("a", "c")] && Bounded(id, 256) && |cs| <= 100 && CandidatesOK(OPEN, cs)
    ensures RunOK(OPEN, lenses, [AGENT], PlainRun(id, "a", "c", cs))
  {
    PlainRows(id);
    hide HeaderOK, CandidatesOK, Bounded, Joined;
    assert lenses[0] in lenses && [AGENT][0] in [AGENT];
  }

  lemma StrayPlaced(s: Snapshot)
    requires s == StrayJudgment()
    ensures RunsValid(OPEN, s.lenses, s.actors, s.runs) && ParentsListed(s)
  {
    Texts();
    Shown();
    RunUnder(s.lenses, "a\0b", s.runs[0].candidates);
    RunUnder(s.lenses, "a", []);
    hide RunOK, CandidatesOK, Bounded;
    assert s.lenses[0] in s.lenses && s.actors[0] in s.actors;
  }

  lemma Shown()
    ensures CandidatesOK(OPEN, []) && CandidatesOK(OPEN, [Candidate("c", 1, Finite(0.0), map[])])
  {
    Texts();
  }

  lemma StrayJudged(s: Snapshot)
    requires s == StrayJudgment()
    ensures JudgmentsValid(OPEN, s.runs, s.judgments) && !RecordsListed(s)
  {
    Texts();
    JoinedAlike();
    hide Bounded, Joined;
    assert s.runs[0] in s.runs && s.runs[1] in s.runs && s.runs[0].candidates[0] in s.runs[0].candidates;
    assert s.judgments[0] in s.judgments && OfRun(s.judgments[0], s.runs[1].header);
    assert CandidateListed(s.runs, Joined("a", "b\0c"));
  }

  lemma StrayEntities(s: Snapshot)
    requires s == StrayJudgment()
    ensures ScopesValid(OPEN, s.scopes) && LensesValid(OPEN, s.scopes, s.lenses) && ActorsValid(OPEN, s.actors)
  {
    Texts();
    PlainRows("a");
    PlainRows("c");
    hide ScopeOK, LensOK, ActorOK, Bounded, Joined;
    assert s.scopes[0] in s.scopes;
  }

  lemma StrayJudgmentValid()
    ensures Valid(OPEN, StrayJudgment()) && ParentsListed(StrayJudgment()) && !RecordsListed(StrayJudgment())
  {
    hide *;
    StrayEntities(StrayJudgment());
    StrayPlaced(StrayJudgment());
    StrayJudged(StrayJudgment());
    ValidParts(OPEN, StrayJudgment());
  }
}
