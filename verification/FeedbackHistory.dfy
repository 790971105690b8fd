/** Feedback over whole histories: any number of calls, by anyone, in any order. */
module FeedbackHistory {
  import opened Text
  import opened ScopedModel
  import opened ScopedStore
  import opened Ledger
  import opened Feedback
  import opened Preflight
  import opened Histories

  /** A judgment stored under the key of an intent says what that intent says. */
  ghost predicate Faithful(h: Hashes, asked: iset<Intent>, j: Judgment) {
    forall i: Intent :: i in asked && j.key == RetryKey(h, i) ==> Says(j, i)
  }

  ghost predicate Says(j: Judgment, i: Intent) {
    && j.runID == i.runID && j.scopeID == i.scopeID && j.lensID == i.lensID && j.agentID == i.agentID
    && j.recordID == i.recordID && j.actor == i.actor && j.disposition == i.disposition
    && j.reason == i.reason && j.reversesID == ""
  }

  /** Every token has stored at most one judgment, and it says what was asked. */
  ghost predicate ExactlyOnce(h: Hashes, asked: iset<Intent>, js: set<Judgment>) {
    TokensOnce(h, js) && forall j :: j in js ==> Faithful(h, asked, j)
  }

  /** What a request with a token asks for is among the intents asked for. */
  ghost predicate Asks(asked: iset<Intent>, q: Request) {
    q.retryToken != "" ==> IntentOf(q) in asked
  }

  /** The keys callers choose never start with the retry prefix. */
  predicate KeysApart(q: Request) {
    !(RETRY_PREFIX <= q.key)
  }

  lemma CallerKeyIsApart(h: Hashes, key: string)
    requires !(RETRY_PREFIX <= key)
    ensures forall token :: !(TokenPrefix(h, token) <= key)
    ensures forall i: Intent :: key != RetryKey(h, i)
  {
    forall token ensures !(TokenPrefix(h, token) <= key) {
      assert TokenPrefix(h, token)[..|RETRY_PREFIX|] == RETRY_PREFIX;
    }
    forall i: Intent ensures RETRY_PREFIX <= RetryKey(h, i) {
      assert RetryKey(h, i) == TokenPrefix(h, i.token) + h.event(i);
    }
  }

  lemma DraftSays(h: Hashes, asked: iset<Intent>, t: Tables, q: Request, now: string)
    requires NoCollisions(h, asked) && Asks(asked, q) && KeysApart(q) && Drafted(h, t, q, now).Some?
    requires q.retryToken != "" ==> q.reversesID == ""
    ensures Faithful(h, asked, Drafted(h, t, q, now).value)
  {
    var d := Drafted(h, t, q, now).value;
    if q.retryToken == "" {
      CallerKeyIsApart(h, d.key);
    } else {
      forall i: Intent | i in asked && d.key == RetryKey(h, i) ensures Says(d, i) {
        RetryKeyNamesIntent(h, asked, i, IntentOf(q));
      }
    }
  }

  lemma DraftIsFirstUnderItsToken(h: Hashes, t: Tables, q: Request, now: string, token: string)
    requires ColonFree(h) && KeysApart(q) && Drafted(h, t, q, now).Some?
    requires q.retryToken != "" ==> UnderToken(h, t, q.retryToken) == {}
    requires TokenPrefix(h, token) <= Drafted(h, t, q, now).value.key
    ensures UnderToken(h, t, token) == {}
  {
    var d := Drafted(h, t, q, now).value;
    if q.retryToken == "" {
      CallerKeyIsApart(h, d.key);
    } else {
      PrefixOfKey(h, token, IntentOf(q));
      assert UnderToken(h, t, token) == UnderToken(h, t, q.retryToken);
    }
  }

  /** A step that changes the log adds one judgment: faithful to its intent, and
      the first one under whatever token its key belongs to. */
  lemma StepAdds(env: Env, h: Hashes, t: Tables, q: Request, now: string, reply: Reply<Judgment>, u: Tables)
    returns (d: Judgment)
    requires FeedbackStep(env, h, t, q, now, reply, u) && u != t
    ensures Drafted(h, t, q, now) == Some(d) && d.judgmentID !in t.judgments && u == WithJudgment(t, d)
    ensures q.retryToken != "" ==> q.reversesID == "" && UnderToken(h, t, q.retryToken) == {}
  {
    d := Drafted(h, t, q, now).value;
    if j :| j in UnderToken(h, t, q.retryToken) && j.key == KeyOf(h, q) {
      assert KeyTaken(t, KeyOf(h, q));
    }
  }

  lemma GrownExactlyOnce(h: Hashes, asked: iset<Intent>, js: set<Judgment>, d: Judgment)
    requires ExactlyOnce(h, asked, js) && Faithful(h, asked, d)
    requires forall token, a :: a in js && TokenPrefix(h, token) <= d.key ==> !(TokenPrefix(h, token) <= a.key)
    ensures ExactlyOnce(h, asked, js + {d})
  {
  }

  lemma DraftKeepsExactlyOnce(h: Hashes, asked: iset<Intent>, t: Tables, q: Request, now: string, d: Judgment)
    requires NoCollisions(h, asked) && Asks(asked, q) && KeysApart(q) && Drafted(h, t, q, now) == Some(d)
    requires q.retryToken != "" ==> q.reversesID == "" && UnderToken(h, t, q.retryToken) == {}
    requires ExactlyOnce(h, asked, t.judgments.Values)
    ensures ExactlyOnce(h, asked, t.judgments.Values + {d})
  {
    DraftSays(h, asked, t, q, now);
    forall token, a | a in t.judgments.Values && TokenPrefix(h, token) <= d.key
      ensures !(TokenPrefix(h, token) <= a.key)
    {
      DraftIsFirstUnderItsToken(h, t, q, now, token);
      assert a !in UnderToken(h, t, token);
    }
    GrownExactlyOnce(h, asked, t.judgments.Values, d);
  }

  lemma StepKeepsExactlyOnce(env: Env, h: Hashes, asked: iset<Intent>, t: Tables, q: Request, now: string,
                             reply: Reply<Judgment>, u: Tables)
    requires NoCollisions(h, asked) && Asks(asked, q) && KeysApart(q)
    requires FeedbackStep(env, h, t, q, now, reply, u) && ExactlyOnce(h, asked, t.judgments.Values)
    ensures ExactlyOnce(h, asked, u.judgments.Values)
  {
    if u != t {
      var d := StepAdds(env, h, t, q, now, reply, u);
      DraftKeepsExactlyOnce(h, asked, t, q, now, d);
      AddedRow(t.judgments, d);
    }
  }

  lemma AddedRow(js: map<string, Judgment>, d: Judgment)
    requires d.judgmentID !in js
    ensures js[d.judgmentID := d].Values == js.Values + {d}
  {
    var after := js[d.judgmentID := d];
    assert after[d.judgmentID] == d;
    forall j | j in js.Values ensures j in after.Values {
      var k :| k in js && js[k] == j;
      assert after[k] == j;
    }
  }

  /** The key lies under a token that a stored judgment lies under too. */
  ghost predicate UnderUsedToken(h: Hashes, t: Tables, key: string) {
    exists token :: TokenPrefix(h, token) <= key && UnderToken(h, t, token) != {}
  }

  /** A call that adds a judgment leaves every token with at most one exactly when it
      carries a token, or its own key lies under no token already used. */
  lemma StepKeepsTokensIff(env: Env, h: Hashes, t: Tables, q: Request, now: string, reply: Reply<Judgment>, u: Tables)
    requires ColonFree(h) && TokensOnce(h, t.judgments.Values) && FeedbackStep(env, h, t, q, now, reply, u) && u != t
    ensures TokensOnce(h, u.judgments.Values) <==> q.retryToken != "" || !UnderUsedToken(h, t, q.key)
  {
    var d := StepAdds(env, h, t, q, now, reply, u);
    AddedRow(t.judgments, d);
    assert forall j :: j in t.judgments.Values ==> j.key != d.key;
    hide FeedbackStep, Drafted;
    if q.retryToken != "" {
      forall token | TokenPrefix(h, token) <= d.key ensures UnderToken(h, t, token) == {} {
        PrefixOfKey(h, token, IntentOf(q));
        assert UnderToken(h, t, token) == UnderToken(h, t, q.retryToken);
      }
    }
    GrownTokens(h, t, d);
  }

  lemma GrownTokens(h: Hashes, t: Tables, d: Judgment)
    requires TokensOnce(h, t.judgments.Values) && forall j :: j in t.judgments.Values ==> j.key != d.key
    ensures TokensOnce(h, t.judgments.Values + {d}) <==> !UnderUsedToken(h, t, d.key)
  {
    hide TokenPrefix;
    if UnderUsedToken(h, t, d.key) {
      var token :| TokenPrefix(h, token) <= d.key && UnderToken(h, t, token) != {};
      var j :| j in UnderToken(h, t, token);
      assert j in t.judgments.Values + {d} && d in t.judgments.Values + {d} && j != d;
    } else {
      forall token, j | j in t.judgments.Values && TokenPrefix(h, token) <= d.key
        ensures !(TokenPrefix(h, token) <= j.key)
      {
        assert j !in UnderToken(h, t, token);
      }
    }
  }

  /** A used token with any other intent is rejected, and nothing changes. */
  lemma OtherIntentRejected(env: Env, h: Hashes, t: Tables, q: Request, now: string, reply: Reply<Judgment>, u: Tables,
                            stored: Judgment, i: Intent)
    requires NoCollisions(h, iset{i, IntentOf(q)}) && TokensOnce(h, t.judgments.Values)
    requires stored in t.judgments.Values && stored.key == RetryKey(h, i)
    requires q.retryToken == i.token && i.token != "" && IntentOf(q) != i
    requires FeedbackStep(env, h, t, q, now, reply, u)
    ensures reply.Refused? && u == t
  {
    RetryKeyNamesIntent(h, iset{i, IntentOf(q)}, i, IntentOf(q));
    assert stored in UnderToken(h, t, q.retryToken);
  }

  /** An identical retry finds its judgment: the store's contract then returns
      it and leaves the log as it was. */
  lemma IdenticalRetryReplays(env: Env, h: Hashes, asked: iset<Intent>, t: Tables, q: Request, stored: Judgment)
    requires ColonFree(h) && IntentOf(q) in asked && ExactlyOnce(h, asked, t.judgments.Values)
    requires WellFormed(env, q) && q.retryToken != "" && Acceptable(env, Build(t))
    requires stored in t.judgments.Values && stored.key == KeyOf(h, q)
    ensures Replayable(env, h, t, q, stored)
  {
    PrefixOfKey(h, q.retryToken, IntentOf(q));
    OneUnderToken(h, t, q, stored);
    SaysSame(h, asked, t, q, stored);
    TokenReverses(env, q);
    hide ExactlyOnce, WellFormed, Build, Acceptable, TokenPrefix, RetryKey, Says, UnderToken;
  }

  lemma OneUnderToken(h: Hashes, t: Tables, q: Request, stored: Judgment)
    requires TokensOnce(h, t.judgments.Values) && stored in t.judgments.Values &&
             TokenPrefix(h, q.retryToken) <= stored.key
    ensures forall j :: j in UnderToken(h, t, q.retryToken) ==> j == stored
    ensures forall j :: j in t.judgments.Values && j.key == stored.key ==> j == stored
  {
    hide TokenPrefix;
  }

  lemma SaysSame(h: Hashes, asked: iset<Intent>, t: Tables, q: Request, stored: Judgment)
    requires ExactlyOnce(h, asked, t.judgments.Values) && stored in t.judgments.Values && stored.key == KeyOf(h, q)
    requires q.retryToken != "" && IntentOf(q) in asked
    ensures Says(stored, IntentOf(q))
    ensures q.reversesID == "" ==> SameRequest(stored, q)
  {
    hide TokensOnce, RetryKey;
    assert Faithful(h, asked, stored);
  }

  lemma TokenReverses(env: Env, q: Request)
    requires WellFormed(env, q) && q.retryToken != ""
    ensures q.reversesID == ""
  {
    hide Bounded, OptionalBounded, AnySecret;
  }

  // --------------------------------------------------------------- histories

  datatype Call = Call(request: Request, now: string, reply: Reply<Judgment>)

  ghost function Steps(env: Env, h: Hashes): (Tables, Call, Tables) -> bool {
    (t: Tables, c: Call, u: Tables) => FeedbackStep(env, h, t, c.request, c.now, c.reply, u)
  }

  /** Over any run, however it starts, replies and fails, every token keeps at most
      one judgment and every judgment says what was asked under its key. */
  lemma ExactlyOnceForever(env: Env, h: Hashes, asked: iset<Intent>, states: seq<Tables>, calls: seq<Call>, n: nat)
    requires NoCollisions(h, asked) && IsRun(Steps(env, h), states, calls) && n < |states|
    requires ExactlyOnce(h, asked, states[0].judgments.Values)
    requires forall c :: c in calls ==> Asks(asked, c.request) && KeysApart(c.request)
    ensures ExactlyOnce(h, asked, states[n].judgments.Values)
  {
    var inv := (t: Tables) => ExactlyOnce(h, asked, t.judgments.Values);
    forall i | 0 <= i < |calls| && inv(states[i]) && Steps(env, h)(states[i], calls[i], states[i + 1])
      ensures inv(states[i + 1])
    {
      var c := calls[i];
      StepKeepsExactlyOnce(env, h, asked, states[i], c.request, c.now, c.reply, states[i + 1]);
    }
    Always(Steps(env, h), inv, states, calls, n);
  }

  ghost predicate Extends(t: Tables, u: Tables) {
    forall k :: k in t.judgments ==> k in u.judgments && u.judgments[k] == t.judgments[k]
  }

  /** The log is append-only: no call changes or removes a stored judgment. */
  lemma LogOnlyGrows(env: Env, h: Hashes, states: seq<Tables>, calls: seq<Call>, m: nat, n: nat)
    requires IsRun(Steps(env, h), states, calls) && m <= n < |states|
    ensures Extends(states[m], states[n])
  {
    var rel := (t: Tables, u: Tables) => Extends(t, u);
    forall i | 0 <= i < |calls| && Steps(env, h)(states[i], calls[i], states[i + 1])
      ensures Extends(states[i], states[i + 1])
    {
      var c := calls[i];
      if states[i] != states[i + 1] {
        var _ := StepAdds(env, h, states[i], c.request, c.now, c.reply, states[i + 1]);
      }
    }
    AlwaysSince(Steps(env, h), rel, states, calls, m, n);
  }

  lemma AddedMovesTotals(js: set<Judgment>, d: Judgment, c: Context, record: string)
    requires d !in js
    ensures Total(Counted(js + {d}, c, record)) ==
            Total(Counted(js, c, record)) + if Counts(d, c) && d.recordID == record then d.effect else 0
  {
    var before, after := Counted(js, c, record), Counted(js + {d}, c, record);
    if Counts(d, c) && d.recordID == record {
      assert after == before + {d};
      SumWithout(after, EffectIn, d);
      assert after - {d} == before;
    } else {
      assert after == before;
    }
  }

  /** A step moves exactly the sums that count its judgment, by its effect, and no other. */
  lemma StepMovesTotals(env: Env, h: Hashes, t: Tables, q: Request, now: string, reply: Reply<Judgment>, u: Tables,
                        c: Context, record: string)
    requires Keyed(t) && FeedbackStep(env, h, t, q, now, reply, u) && u != t
    ensures exists d :: Drafted(h, t, q, now) == Some(d) &&
              Total(Counted(u.judgments.Values, c, record)) ==
              Total(Counted(t.judgments.Values, c, record)) +
              if Counts(d, c) && d.recordID == record then d.effect else 0
  {
    var d := StepAdds(env, h, t, q, now, reply, u);
    AddedRow(t.judgments, d);
    AddedMovesTotals(t.judgments.Values, d, c, record);
  }
}
