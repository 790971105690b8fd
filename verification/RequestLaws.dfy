/** Which requests the store answers: the guards, field by field, in the callers' terms. */
module RequestLaws {
  import opened Text
  import opened ScopedModel
  import opened Preflight
  import opened Feedback
  import opened ScopedStore
  import opened FeedbackHistory
  import opened StoreLaws
  import opened ValidityLaws
  import FeedbackLaws

  // ---------------------------------------------------------- what is asked for

  /** A text a caller may leave out, or has to keep within its bound. */
  predicate MayKeep(env: Env, s: string, maximum: nat) {
    (|Trim(s)| == 0 || |s| <= maximum) && !env.secretLike(s)
  }

  /** A judgment names its run, its record and for or against, under a key or a token,
      but not both. */
  predicate AsksOriginal(env: Env, q: Request) {
    && Kept(env, q.runID, 256) && Kept(env, q.recordID, 1024) && q.reversesID == "" && !env.secretLike("")
    && (q.disposition == Used || q.disposition == Dismissed)
    && ((q.retryToken == "" && Kept(env, q.key, 1024)) || (q.key == "" && 0 < |Trim(q.retryToken)| <= 256))
  }

  /** A reversal names its target and nothing else, under a key of its own. */
  predicate AsksReversal(env: Env, q: Request) {
    && Kept(env, q.reversesID, 256) && Kept(env, q.key, 1024) && !env.secretLike("")
    && q == Request(q.key, "", "", q.scopeID, q.lensID, q.agentID, "", q.actor, OtherDisposition(""), q.reason,
                    q.reversesID)
  }

  /** An owner speaks without an agent, an agent under its own name. */
  predicate Asks(env: Env, q: Request) {
    && Kept(env, q.scopeID, 256) && Kept(env, q.lensID, 256) && MayKeep(env, q.reason, 4096)
    && (if q.actor == Agent then Kept(env, q.agentID, 256) else q.actor == Owner && q.agentID == "")
    && (AsksOriginal(env, q) || AsksReversal(env, q))
  }

  lemma AsksIff(env: Env, q: Request)
    ensures WellFormed(env, q) <==> Asks(env, q)
  {
    SecretsAre(env, q);
    if q.reversesID == "" {
      hide AnySecret, Trim, AsksReversal;
      assert !AsksReversal(env, q) by {
        NoTarget(env, q);
      }
    } else {
      hide AnySecret, Trim, AsksOriginal;
      assert !AsksOriginal(env, q) by {
        SomeTarget(env, q);
      }
    }
  }

  lemma NoTarget(env: Env, q: Request)
    requires q.reversesID == ""
    ensures !AsksReversal(env, q)
  {
    assert Trim("") == "";
  }

  lemma SomeTarget(env: Env, q: Request)
    requires q.reversesID != ""
    ensures !AsksOriginal(env, q)
  {
  }

  lemma SecretsAre(env: Env, q: Request)
    ensures AnySecret(env, [q.key, q.runID, q.scopeID, q.lensID, q.agentID, q.recordID, q.reason, q.reversesID]) <==>
            || env.secretLike(q.key) || env.secretLike(q.runID) || env.secretLike(q.scopeID) || env.secretLike(q.lensID)
            || env.secretLike(q.agentID) || env.secretLike(q.recordID) || env.secretLike(q.reason)
            || env.secretLike(q.reversesID)
  {
    var x := [q.key, q.runID, q.scopeID, q.lensID, q.agentID, q.recordID, q.reason, q.reversesID];
    assert x[0] == q.key && x[1] == q.runID && x[2] == q.scopeID && x[3] == q.lensID && x[4] == q.agentID;
    assert x[5] == q.recordID && x[6] == q.reason && x[7] == q.reversesID;
  }

  // ------------------------------------------------------------ what is answered

  /** A stored judgment that says what this request says. */
  predicate Agrees(j: Judgment, q: Request) {
    && (j.actor, j.scopeID, j.lensID, j.agentID, j.reason, j.reversesID) ==
       (q.actor, q.scopeID, q.lensID, q.agentID, q.reason, q.reversesID)
    && (q.reversesID == "" ==> (j.runID, j.recordID, j.disposition) == (q.runID, q.recordID, q.disposition))
  }

  /** The run showed the record in this scope and lens, to this agent if an agent
      speaks, and all three rows of its context are active. */
  ghost predicate Shown(t: Tables, run: string, record: string, scope: string, lens: string, agent: string,
                        actor: Actor) {
    && run in t.runs && run in t.candidates && record in t.candidates[run]
    && (t.runs[run].scopeID, t.runs[run].lensID) == (scope, lens) && (actor == Agent ==> t.runs[run].agentID == agent)
    && var c := Trims(Context(scope, lens, t.runs[run].agentID));
    && Awake(t, c) && Bounded(c.scopeID, 256) && Bounded(c.lensID, 256) && Bounded(c.agentID, 256)
  }

  /** An original can be stored for what was shown; a reversal for the asker's own
      original, if nobody took it back before, and what it is about is still shown. */
  ghost predicate Storable(t: Tables, q: Request) {
    if q.reversesID == "" then
      && Shown(t, q.runID, q.recordID, q.scopeID, q.lensID, q.agentID, q.actor)
      && (q.actor == Owner || q.actor == Agent) && (q.disposition == Used || q.disposition == Dismissed)
    else
      && q.reversesID in t.judgments
      && var o := t.judgments[q.reversesID];
      && o.reversesID == "" && (o.actor, o.scopeID, o.lensID, o.agentID) == (q.actor, q.scopeID, q.lensID, q.agentID)
      && Shown(t, o.runID, o.recordID, q.scopeID, q.lensID, q.agentID, q.actor)
      && forall k :: k in t.judgments ==> t.judgments[k].reversesID != q.reversesID
  }

  lemma AgreesIff(j: Judgment, q: Request)
    ensures SameRequest(j, q) <==> Agrees(j, q)
  {
  }

  lemma ShownIff(t: Tables, run: string, record: string, scope: string, lens: string, agent: string, actor: Actor)
    ensures RunAdmits(t, run, Context(scope, lens, agent), actor, record) <==>
            Shown(t, run, record, scope, lens, agent, actor)
  {
    if run in t.runs {
      ResolvesIff(t, Trims(Context(scope, lens, t.runs[run].agentID)));
      hide Resolves, Awake, Trim, Bounded;
    }
  }

  lemma StorableIff(h: Hashes, t: Tables, q: Request, now: string)
    requires Unique(t)
    ensures Drafted(h, t, q, now).Some? <==> Storable(t, q)
  {
    if q.reversesID == "" {
      OriginalIff(h, t, q, now);
    } else {
      ReversalIff(h, t, q, now);
    }
    hide *;
  }

  lemma OriginalIff(h: Hashes, t: Tables, q: Request, now: string)
    requires q.reversesID == ""
    ensures Drafted(h, t, q, now).Some? <==> Storable(t, q)
  {
    ShownIff(t, q.runID, q.recordID, q.scopeID, q.lensID, q.agentID, q.actor);
    hide RunAdmits, Shown, KeyOf;
  }

  lemma ReversalIff(h: Hashes, t: Tables, q: Request, now: string)
    requires Unique(t) && q.reversesID != ""
    ensures Drafted(h, t, q, now).Some? <==> Storable(t, q)
  {
    if q.reversesID in t.judgments {
      var o := t.judgments[q.reversesID];
      ShownIff(t, o.runID, o.recordID, o.scopeID, o.lensID, o.agentID, o.actor);
    }
    hide RunAdmits, Shown, KeyOf, EffectOf;
  }

  /** What it says is new, and the snapshot with it is valid and fits. */
  ghost predicate Fitting(env: Env, h: Hashes, t: Tables, q: Request, now: string) {
    && Drafted(h, t, q, now).Some? && Drafted(h, t, q, now).value.judgmentID !in t.judgments
    && Projects(env, Build(t), Build(WithJudgment(t, Drafted(h, t, q, now).value)))
  }

  ghost predicate StoredAs(h: Hashes, t: Tables, q: Request, j: Judgment) {
    j in t.judgments.Values && j.key == KeyOf(h, q)
  }

  /** The token was used for nothing else; and either the key is stored with what this
      request says, or what it says can be stored and leaves an acceptable state. */
  ghost predicate Answerable(env: Env, h: Hashes, t: Tables, q: Request, now: string) {
    && Asks(env, q)
    && (q.retryToken != "" ==>
          forall j :: j in t.judgments.Values && TokenPrefix(h, q.retryToken) <= j.key ==> StoredAs(h, t, q, j))
    && if exists j :: StoredAs(h, t, q, j) then forall j :: StoredAs(h, t, q, j) ==> Agrees(j, q)
       else Storable(t, q) && Fitting(env, h, t, q, now)
  }

  lemma GrantedIff(env: Env, h: Hashes, t: Tables, q: Request, now: string)
    requires Unique(t)
    ensures Granted(env, h, t, q, now) <==> Answerable(env, h, t, q, now)
  {
    hide *;
    AsksIff(env, q);
    StorableIff(h, t, q, now);
    TakenIff(h, t, q);
    AgreeIff(h, t, q);
    UnderIff(h, t, q);
    GrantedParts(env, h, t, q, now);
    AnswerableParts(env, h, t, q, now);
  }

  lemma GrantedParts(env: Env, h: Hashes, t: Tables, q: Request, now: string)
    ensures Granted(env, h, t, q, now) <==>
            && WellFormed(env, q)
            && (q.retryToken != "" ==> forall j :: j in UnderToken(h, t, q.retryToken) ==> j.key == KeyOf(h, q))
            && if KeyTaken(t, KeyOf(h, q)) then
                 forall j :: j in t.judgments.Values && j.key == KeyOf(h, q) ==> SameRequest(j, q)
               else Fitting(env, h, t, q, now)
  {
    hide WellFormed, KeyTaken, SameRequest, UnderToken, KeyOf, Projects, Build, WithJudgment, Drafted;
  }

  lemma AnswerableParts(env: Env, h: Hashes, t: Tables, q: Request, now: string)
    ensures Fitting(env, h, t, q, now) ==> Drafted(h, t, q, now).Some?
    ensures Answerable(env, h, t, q, now) <==>
            && Asks(env, q)
            && (q.retryToken != "" ==>
                  forall j :: j in t.judgments.Values && TokenPrefix(h, q.retryToken) <= j.key ==> StoredAs(h, t, q, j))
            && if exists j :: StoredAs(h, t, q, j) then forall j :: StoredAs(h, t, q, j) ==> Agrees(j, q)
               else Storable(t, q) && Fitting(env, h, t, q, now)
  {
    hide Asks, StoredAs, Agrees, TokenPrefix, KeyOf, Projects, Build, WithJudgment, Drafted, Storable;
  }

  lemma TakenIff(h: Hashes, t: Tables, q: Request)
    ensures KeyTaken(t, KeyOf(h, q)) <==> exists j :: StoredAs(h, t, q, j)
  {
    hide KeyOf;
    if j :| StoredAs(h, t, q, j) {
      assert j in t.judgments.Values;
    }
    if KeyTaken(t, KeyOf(h, q)) {
      var j :| j in t.judgments.Values && j.key == KeyOf(h, q);
      assert StoredAs(h, t, q, j);
    }
  }

  lemma AgreeIff(h: Hashes, t: Tables, q: Request)
    ensures (forall j :: j in t.judgments.Values && j.key == KeyOf(h, q) ==> SameRequest(j, q)) <==>
            (forall j :: StoredAs(h, t, q, j) ==> Agrees(j, q))
  {
    forall j ensures SameRequest(j, q) <==> Agrees(j, q) {
      AgreesIff(j, q);
    }
    hide KeyOf, SameRequest, Agrees;
  }

  lemma UnderIff(h: Hashes, t: Tables, q: Request)
    ensures (forall j :: j in UnderToken(h, t, q.retryToken) ==> j.key == KeyOf(h, q)) <==>
            (forall j :: j in t.judgments.Values && TokenPrefix(h, q.retryToken) <= j.key ==> StoredAs(h, t, q, j))
  {
    hide KeyOf, TokenPrefix;
  }

  /** A call is refused exactly when its request cannot be answered. */
  lemma RefusedIff(env: Env, h: Hashes, t: Tables, q: Request, now: string, reply: Reply<Judgment>, u: Tables)
    requires Admitted(env, t) && FeedbackStep(env, h, t, q, now, reply, u)
    requires q.retryToken != "" ==> TokensOnce(h, t.judgments.Values)
    ensures reply.Refused? <==> !Answerable(env, h, t, q, now)
    ensures reply.Acknowledged? ==> Agrees(reply.value, q) && reply.value.key == KeyOf(h, q)
  {
    hide *;
    Admissible(env, t);
    GrantedIff(env, h, t, q, now);
    if !reply.Refused? {
      StepGranted(env, h, t, q, now, reply, u);
    } else {
      StepRefused(env, h, t, q, now, reply, u);
    }
    if reply.Acknowledged? {
      FeedbackLaws.AnswerStored(env, h, t, q, now, reply, u);
      FeedbackLaws.AnswerSame(env, h, t, q, now, reply, u);
      AgreesIff(reply.value, q);
    }
  }

  lemma Admissible(env: Env, t: Tables)
    requires Admitted(env, t)
    ensures Unique(t)
  {
    hide Acceptable, Unique, Linked;
  }

  lemma StepRefused(env: Env, h: Hashes, t: Tables, q: Request, now: string, reply: Reply<Judgment>, u: Tables)
    requires FeedbackStep(env, h, t, q, now, reply, u) && reply.Refused?
    ensures !Granted(env, h, t, q, now)
  {
    hide Granted;
  }

  lemma StepGranted(env: Env, h: Hashes, t: Tables, q: Request, now: string, reply: Reply<Judgment>, u: Tables)
    requires Admitted(env, t) && FeedbackStep(env, h, t, q, now, reply, u) && !reply.Refused?
    requires q.retryToken != "" ==> TokensOnce(h, t.judgments.Values)
    ensures Granted(env, h, t, q, now)
  {
    FeedbackLaws.KeyNamesRow(env, t);
    hide Admitted, WellFormed, Drafted, SameRequest, KeyOf, TokenPrefix, Projects, Build;
  }

  // ------------------------------------------------- entities, traces, hydration

  predicate Hex(s: string) {
    forall c :: c in s ==> c in "0123456789abcdef"
  }

  /** An agent registers under an identity of its own making, and again only while it
      is active and under the same name. */
  lemma RegistrationIff(env: Env, t: Tables, id: string, name: string)
    ensures RegistrationAsked(env, t, id, name) <==>
            && (exists hex :: |hex| == 32 && Hex(hex) && id == "agent-" + hex) && !env.secretLike(id)
            && Kept(env, name, 1024)
            && (id in t.actors ==> t.actors[id].name == name && t.actors[id].status == Active)
  {
    RegisteredIff(id);
    var x := [id, name];
    assert x[0] == id && x[1] == name;
    hide Trim, RegisteredID, Hex;
  }

  lemma RegisteredIff(id: string)
    ensures RegisteredID(id) <==> exists hex :: |hex| == 32 && Hex(hex) && id == "agent-" + hex
    ensures RegisteredID(id) ==> id != "legacy_agent_actor"
  {
    if RegisteredID(id) {
      var hex := id[6..];
      assert id == "agent-" + hex;
      forall c | c in hex ensures c in "0123456789abcdef" {
        var i :| 0 <= i < |hex| && hex[i] == c;
        assert id[6 + i] == c;
        HexChar(c);
      }
    }
    if hex :| |hex| == 32 && Hex(hex) && id == "agent-" + hex {
      forall i | 6 <= i < 38 ensures '0' <= id[i] <= '9' || 'a' <= id[i] <= 'f' {
        assert id[i] == hex[i - 6];
        HexChar(id[i]);
      }
    }
  }

  lemma HexChar(c: char)
    ensures c in "0123456789abcdef" <==> '0' <= c <= '9' || 'a' <= c <= 'f'
  {
    var s := "0123456789abcdef";
    if '0' <= c <= '9' {
      assert s[c as int - '0' as int] == c;
    } else if 'a' <= c <= 'f' {
      assert s[c as int - 'a' as int + 10] == c;
    }
  }

  lemma DigestIff(s: string)
    ensures HexDigest(s) <==> |s| == 64 && Hex(s)
  {
    forall i | 0 <= i < |s| ensures s[i] in "0123456789abcdef" <==> '0' <= s[i] <= '9' || 'a' <= s[i] <= 'f' {
      HexChar(s[i]);
    }
    if Hex(s) && |s| == 64 {
      forall i | 0 <= i < 64 ensures '0' <= s[i] <= '9' || 'a' <= s[i] <= 'f' {
        assert s[i] in s;
      }
    }
  }

  /** A source is named, of one of two kinds, and known by its content's digest. */
  predicate FineSource(s: Source) {
    && s.schema == "mindline-compact-source-binding/v0.1" && s.kind in {"record_source", "current_resource"}
    && 0 < |Trim(s.id)| <= 1024 && |s.contentHash| == 64 && Hex(s.contentHash)
  }

  lemma TraceIff(env: Env, s: Source, x: Trace)
    ensures SourceOK(s) <==> FineSource(s)
    ensures TraceOK(env, x) <==>
            && Kept(env, x.candidate.recordID, 1024) && 0 < x.candidate.rank
            && FineSource(x.source) && !env.secretLike(x.source.id)
            && forall name :: name in x.candidate.components ==> Kept(env, name, 256)
  {
    DigestIff(s.contentHash);
    DigestIff(x.source.contentHash);
    hide HexDigest, Hex, Trim;
  }

  /** A run that may be saved is in order, new, and in an active context, and shows up
      to a hundred records, each once and under a rank of its own. */
  lemma SavesIff(env: Env, t: Tables, h: RunHeader, xs: seq<Trace>)
    ensures TraceAsked(env, t, h, xs) <==>
            && FineHeader(env, h) && |xs| <= 100 && h.runID !in t.runs
            && Awake(t, Context(h.scopeID, h.lensID, h.agentID))
            && Bounded(h.scopeID, 256) && Bounded(h.lensID, 256) && Bounded(h.agentID, 256)
            && (forall i :: 0 <= i < |xs| ==> TraceOK(env, xs[i]))
            && (forall i, j :: 0 <= i < |xs| && 0 <= j < |xs| ==>
                  (xs[i].candidate.recordID == xs[j].candidate.recordID ==> i == j) &&
                  (xs[i].candidate.rank == xs[j].candidate.rank ==> i == j))
  {
    HeaderIff(env, h);
    ResolvesIff(t, Context(h.scopeID, h.lensID, h.agentID));
    hide HeaderOK, FineHeader, Resolves, Awake, Bounded, TraceOK;
  }

  /** A record is shown again in the very context its run was made in, while that is
      active, and from the source the run bound it to. */
  lemma HydratesIff(t: Tables, run: string, c: Context, record: string)
    ensures Hydrates(t, run, c, record) <==>
            && 0 < |Trim(run)| <= 256 && 0 < |Trim(record)| <= 1024
            && run in t.runs && c == Context(t.runs[run].scopeID, t.runs[run].lensID, t.runs[run].agentID)
            && Awake(t, c) && Bounded(c.scopeID, 256) && Bounded(c.lensID, 256) && Bounded(c.agentID, 256)
            && Bounded(t.runs[run].library, 256) && run in t.candidates && record in t.candidates[run]
            && (run, record) in t.sources && FineSource(t.sources[(run, record)])
  {
    ResolvesIff(t, c);
    if (run, record) in t.sources {
      TraceIff(OPEN, t.sources[(run, record)], Trace(Candidate("", 0, NotFinite, map[]), t.sources[(run, record)]));
    }
    hide Resolves, Awake, FineSource, SourceOK, TraceOK, Trim;
  }
}
