/** What a stored judgment says and what it moves, in the terms of the request. */
module FeedbackLaws {
  import opened Text
  import opened ScopedModel
  import opened Preflight
  import opened Feedback
  import opened ScopedStore
  import opened FeedbackHistory
  import StoreHistory
  import StoreLaws

  // ------------------------------------------------------- what a row says

  /** The row says who asked, where, why and when, under the caller's own key. */
  ghost predicate Carries(d: Judgment, q: Request, now: string) {
    && d.actor == q.actor && d.scopeID == q.scopeID && d.lensID == q.lensID && d.agentID == q.agentID
    && d.reason == q.reason && d.reversesID == q.reversesID && d.createdAt == now
    && (q.retryToken == "" ==> d.key == q.key)
  }

  /** An original is about the record asked for, in its run, and weighs four quarters
      for an owner and one for an agent. */
  ghost predicate IsOriginal(d: Judgment, q: Request) {
    && d.runID == q.runID && d.recordID == q.recordID && d.disposition == q.disposition
    && (q.disposition.Used? || q.disposition.Dismissed?)
    && d.effect == (if q.actor.Owner? then 4 else 1) * (if q.disposition.Used? then 1 else -1)
  }

  /** A reversal is about what its target is about, and takes its effect back. */
  ghost predicate IsReversal(t: Tables, d: Judgment) {
    && d.reversesID in t.judgments
    && var o := t.judgments[d.reversesID];
       && o.reversesID == "" && d.runID == o.runID && d.recordID == o.recordID && d.disposition.Reversed?
       && d.effect == -o.effect && d.actor == o.actor && d.scopeID == o.scopeID && d.lensID == o.lensID
       && d.agentID == o.agentID && forall k :: k in t.judgments ==> t.judgments[k].reversesID != o.judgmentID
  }

  /** Whatever a call adds is one row that says what was asked. */
  lemma AddedCarries(env: Env, h: Hashes, t: Tables, q: Request, now: string, reply: Reply<Judgment>, u: Tables)
    returns (d: Judgment)
    requires FeedbackStep(env, h, t, q, now, reply, u) && u != t
    ensures d.judgmentID !in t.judgments && u == t.(judgments := t.judgments[d.judgmentID := d])
    ensures Carries(d, q, now) && if q.reversesID == "" then IsOriginal(d, q) else IsReversal(t, d)
    ensures Drafted(h, t, q, now) == Some(d)
  {
    hide *;
    d := StepAdds(env, h, t, q, now, reply, u);
    Asked(env, h, t, q, now, reply, u);
    DraftCarries(h, t, q, now);
    if q.reversesID == "" {
      DraftOriginal(h, t, q, now);
    } else {
      DraftReversal(h, t, q, now);
    }
    OneRow(t, d);
  }

  lemma OneRow(t: Tables, d: Judgment)
    ensures WithJudgment(t, d) == t.(judgments := t.judgments[d.judgmentID := d])
  {
  }

  lemma DraftCarries(h: Hashes, t: Tables, q: Request, now: string)
    requires Drafted(h, t, q, now).Some?
    ensures Carries(Drafted(h, t, q, now).value, q, now)
  {
    hide Reversible, RunAdmits, RetryKey, EffectOf;
  }

  lemma DraftOriginal(h: Hashes, t: Tables, q: Request, now: string)
    requires Drafted(h, t, q, now).Some? && q.reversesID == "" && (q.actor.Owner? || q.actor.Agent?)
    ensures IsOriginal(Drafted(h, t, q, now).value, q)
  {
    hide RunAdmits, KeyOf, Reversible;
  }

  lemma DraftReversal(h: Hashes, t: Tables, q: Request, now: string)
    requires Drafted(h, t, q, now).Some? && q.reversesID != ""
    ensures IsReversal(t, Drafted(h, t, q, now).value)
  {
    hide RunAdmits, KeyOf, EffectOf;
  }

  lemma Asked(env: Env, h: Hashes, t: Tables, q: Request, now: string, reply: Reply<Judgment>, u: Tables)
    requires FeedbackStep(env, h, t, q, now, reply, u) && u != t
    ensures q.actor.Owner? || q.actor.Agent?
  {
    hide Bounded, AnySecret, OptionalBounded, Drafted, UnderToken, KeyTaken, KeyOf, Granted, Projects;
  }

  // ------------------------------------------------------------- identical repeats

  /** Keys are unique in acceptable tables. */
  lemma KeyNamesRow(env: Env, t: Tables)
    requires Admitted(env, t)
    ensures forall a, b :: a in t.judgments.Values && b in t.judgments.Values && a.key == b.key ==> a == b
  {
    BuildRows(t);
    KeysOnce(env, Build(t).runs, Build(t).judgments);
    hide Build, Valid, Keyed, Fits;
    forall a, b | a in t.judgments.Values && b in t.judgments.Values && a.key == b.key ensures a == b {
      assert a in Build(t).judgments && b in Build(t).judgments;
    }
  }

  lemma KeysOnce(env: Env, runs: seq<Run>, js: seq<Judgment>)
    requires JudgmentsValid(env, runs, js)
    ensures forall a, b :: a in js && b in js && a.key == b.key ==> a == b
  {
    hide JudgmentOK, ReversalsValid;
  }

  /** Whoever is answered with a judgment is answered with it again: in the state a
      call was acknowledged in, the same call meets what a replay needs. */
  lemma AcknowledgedReplays(env: Env, h: Hashes, t: Tables, q: Request, now: string, reply: Reply<Judgment>, u: Tables)
    requires Admitted(env, t) && Admitted(env, u)
    requires FeedbackStep(env, h, t, q, now, reply, u) && reply.Acknowledged?
    requires q.retryToken != "" ==> TokensOnce(h, t.judgments.Values)
    ensures Replayable(env, h, u, q, reply.value)
  {
    hide *;
    KeyNamesRow(env, u);
    AnswerStored(env, h, t, q, now, reply, u);
    AnswerSame(env, h, t, q, now, reply, u);
    if q.retryToken != "" {
      AnswerUnderToken(env, h, t, q, now, reply, u);
    }
    ReplayableNow(env, h, u, q, reply.value);
  }

  lemma ReplayableNow(env: Env, h: Hashes, u: Tables, q: Request, stored: Judgment)
    requires Admitted(env, u) && WellFormed(env, q) && SameRequest(stored, q)
    requires stored in u.judgments.Values && stored.key == KeyOf(h, q)
    requires forall a, b :: a in u.judgments.Values && b in u.judgments.Values && a.key == b.key ==> a == b
    requires q.retryToken != "" ==> forall j :: j in UnderToken(h, u, q.retryToken) ==> j == stored
    ensures Replayable(env, h, u, q, stored)
  {
    hide Acceptable, Keyed, Build, WellFormed, SameRequest, KeyOf, UnderToken;
  }

  lemma AnswerStored(env: Env, h: Hashes, t: Tables, q: Request, now: string, reply: Reply<Judgment>, u: Tables)
    requires FeedbackStep(env, h, t, q, now, reply, u) && reply.Acknowledged?
    ensures reply.value in u.judgments.Values && reply.value.key == KeyOf(h, q) && WellFormed(env, q)
  {
    hide WellFormed, Granted, KeyOf, Projects, RunAdmits, Reversible, EffectOf;
    if u != t {
      assert u.judgments[reply.value.judgmentID] == reply.value;
    }
  }

  lemma AnswerSame(env: Env, h: Hashes, t: Tables, q: Request, now: string, reply: Reply<Judgment>, u: Tables)
    requires FeedbackStep(env, h, t, q, now, reply, u) && reply.Acknowledged?
    ensures SameRequest(reply.value, q)
  {
    if KeyTaken(t, KeyOf(h, q)) {
      hide WellFormed, Granted, KeyOf, Projects, Drafted, KeyTaken, UnderToken, SameRequest;
    } else {
      hide WellFormed, Granted, KeyOf, Projects, Drafted, KeyTaken, UnderToken, SameRequest;
      Asked(env, h, t, q, now, reply, u);
      DraftSame(h, t, q, now);
    }
  }

  lemma DraftSame(h: Hashes, t: Tables, q: Request, now: string)
    requires Drafted(h, t, q, now).Some? && (q.actor.Owner? || q.actor.Agent?)
    ensures SameRequest(Drafted(h, t, q, now).value, q)
  {
    DraftCarries(h, t, q, now);
    if q.reversesID == "" {
      DraftOriginal(h, t, q, now);
    }
    hide Drafted;
  }

  lemma AnswerUnderToken(env: Env, h: Hashes, t: Tables, q: Request, now: string, reply: Reply<Judgment>, u: Tables)
    requires FeedbackStep(env, h, t, q, now, reply, u) && reply.Acknowledged? && q.retryToken != ""
    requires TokensOnce(h, t.judgments.Values)
    ensures forall j :: j in UnderToken(h, u, q.retryToken) ==> j == reply.value
  {
    KeyUnderToken(h, q);
    AnswerStored(env, h, t, q, now, reply, u);
    if u == t {
      hide TokenPrefix, FeedbackStep, KeyOf, WellFormed;
    } else {
      var d := StepAdds(env, h, t, q, now, reply, u);
      hide FeedbackStep, Drafted, KeyOf, WellFormed;
      OnlyAdded(h, t, d, q.retryToken);
    }
  }

  lemma OnlyAdded(h: Hashes, t: Tables, d: Judgment, token: string)
    requires UnderToken(h, t, token) == {} && d.judgmentID !in t.judgments
    ensures forall j :: j in UnderToken(h, WithJudgment(t, d), token) ==> j == d
  {
    hide TokenPrefix;
    AddedRow(t.judgments, d);
    assert UnderToken(h, WithJudgment(t, d), token) <= UnderToken(h, t, token) + {d};
  }

  lemma KeyUnderToken(h: Hashes, q: Request)
    requires q.retryToken != ""
    ensures TokenPrefix(h, q.retryToken) <= KeyOf(h, q)
  {
  }

  /** Asked twice, the store answers twice with the same judgment and stores it once. */
  method AskTwice(store: Store, q: Request, now: string, later: string, fault: Fault)
    returns (first: Reply<Judgment>, second: Reply<Judgment>, ghost between: Tables)
    requires Admitted(store.env, store.tables)
    requires Trim(q.retryToken) != "" ==> TokensOnce(store.hashes, store.tables.judgments.Values)
    modifies store
    ensures first.Acknowledged? ==> second == first && store.tables == between
  {
    AdmittedKeyed(store.env, store.tables);
    ghost var t := store.tables;
    hide *;
    first := store.ApplyJudgment(q, now, fault);
    between := store.tables;
    Stepped(store.env, store.hashes, (t, old(store.sidecar)), Normalized(q), now, first, store.State());
    if first.Acknowledged? {
      NormalToken(q);
      AcknowledgedReplays(store.env, store.hashes, t, Normalized(q), now, first, between);
    }
    second := store.ApplyJudgment(q, later, Clean);
  }

  lemma NormalToken(q: Request)
    ensures Normalized(q).retryToken == Trim(q.retryToken)
  {
  }

  lemma Stepped(env: Env, h: Hashes, before: State, q: Request, now: string, reply: Reply<Judgment>, after: State)
    requires Judged(env, h, before, q, now, reply, after) && Admitted(env, before.0)
    ensures FeedbackStep(env, h, before.0, q, now, reply, after.0) && Admitted(env, after.0)
  {
    hide FeedbackStep, Admitted, Settled;
    StoreHistory.FeedbackAdmitted(env, h, before.0, q, now, reply, after.0);
  }

  // ------------------------------------------------------------- what it moves

  /** What one judgment is worth to a context asking about a record. */
  ghost function Worth(d: Judgment, c: Context, record: string): int {
    if d.scopeID == c.scopeID && d.lensID == c.lensID && d.recordID == record &&
       ((d.actor.Owner? && d.agentID == "") || (d.actor.Agent? && d.agentID == c.agentID))
    then d.effect else 0
  }

  /** Feedback that is added moves each sum by what it is worth there: a used record
      goes up, by four quarters for an owner and one for an agent, a dismissed one
      down, for that record, scope and lens; an agent's for that agent only. */
  lemma FeedbackMoves(env: Env, h: Hashes, t: Tables, q: Request, now: string, reply: Reply<Judgment>, u: Tables,
                      c: Context, record: string)
    returns (d: Judgment)
    requires Keyed(t) && FeedbackStep(env, h, t, q, now, reply, u) && u != t
    ensures Carries(d, q, now) && if q.reversesID == "" then IsOriginal(d, q) else IsReversal(t, d)
    ensures Total(Counted(u.judgments.Values, c, record)) ==
            Total(Counted(t.judgments.Values, c, record)) + Worth(d, c, record)
  {
    d := AddedCarries(env, h, t, q, now, reply, u);
    StepMovesTotals(env, h, t, q, now, reply, u, c, record);
    hide FeedbackStep, Drafted, Total, Counted, Carries, IsOriginal, IsReversal, Keyed;
  }

  /** What one call adds, in the terms of the call's own arguments: texts are trimmed. */
  method ApplyStores(store: Store, q: Request, now: string, fault: Fault)
    returns (reply: Reply<Judgment>, ghost added: Option<Judgment>)
    requires Admitted(store.env, store.tables)
    modifies store
    ensures added.None? ==> store.tables == old(store.tables)
    ensures added.Some? ==>
              var d := added.value;
              && d.judgmentID !in old(store.tables).judgments
              && store.tables == old(store.tables).(judgments := old(store.tables).judgments[d.judgmentID := d])
              && d.actor == q.actor && d.scopeID == Trim(q.scopeID) && d.lensID == Trim(q.lensID)
              && d.agentID == Trim(q.agentID) && d.reason == Trim(q.reason) && d.reversesID == Trim(q.reversesID)
              && d.createdAt == now && (Trim(q.retryToken) == "" ==> d.key == Trim(q.key))
              && (Trim(q.reversesID) == "" ==>
                    d.runID == Trim(q.runID) && d.recordID == Trim(q.recordID) && d.disposition == q.disposition)
  {
    AdmittedKeyed(store.env, store.tables);
    ghost var t := store.tables;
    NormalizedIs(q);
    hide *;
    reply := store.ApplyJudgment(q, now, fault);
    added := None;
    Stepped(store.env, store.hashes, (t, old(store.sidecar)), Normalized(q), now, reply, store.State());
    StoreLaws.StoreIs(store);
    if store.tables != t {
      ghost var d := AddedCarries(store.env, store.hashes, t, Normalized(q), now, reply, store.tables);
      CarriesIs(d, Normalized(q), now);
      added := Some(d);
    }
  }

  lemma NormalizedIs(q: Request)
    ensures Normalized(q) == Request(Trim(q.key), Trim(q.retryToken), Trim(q.runID), Trim(q.scopeID), Trim(q.lensID),
                                     Trim(q.agentID), Trim(q.recordID), q.actor, q.disposition, Trim(q.reason),
                                     Trim(q.reversesID))
  {
  }

  lemma CarriesIs(d: Judgment, q: Request, now: string)
    requires Carries(d, q, now) && if q.reversesID == "" then IsOriginal(d, q) else true
    ensures && d.actor == q.actor && d.scopeID == q.scopeID && d.lensID == q.lensID && d.agentID == q.agentID
            && d.reason == q.reason && d.reversesID == q.reversesID && d.createdAt == now
            && (q.retryToken == "" ==> d.key == q.key)
            && (q.reversesID == "" ==> d.runID == q.runID && d.recordID == q.recordID && d.disposition == q.disposition)
  {
  }
}
