/** What a stored unscoped judgment says, in the terms of the claim. */
module LegacyLaws {
  import opened Text
  import opened ScopedModel
  import opened ScopedStore
  import opened LegacyModel
  import opened LegacyProjection
  import opened LegacyFeedback
  import opened ValidityLaws
  import Ledger

  /** The row says who spoke, why and when, under the caller's own key. */
  ghost predicate Carries(v: Verdict, q: Claim, now: string) {
    && v.voice == q.voice && v.reason == q.reason && v.reversesID == q.reversesID && v.createdAt == now
    && (q.retryToken == "" ==> v.key == q.key)
  }

  /** An original is about the record asked for, and weighs four quarters for a user
      and one for a helper. */
  ghost predicate IsOriginal(l: LegacyTables, v: Verdict, q: Claim) {
    && v.runID == q.runID && v.lensID == q.lensID && v.recordID == q.recordID && v.disposition == q.disposition
    && (q.voice.User? || q.voice.Helper?) && (q.disposition.Used? || q.disposition.Dismissed?)
    && v.effect == (if q.voice.User? then 4 else 1) * (if q.disposition.Used? then 1 else -1)
    && q.runID in l.runs && l.runs[q.runID].lensID == q.lensID
    && q.runID in l.candidates && q.recordID in l.candidates[q.runID]
  }

  /** A reversal is about what its target is about, and takes its effect back. */
  ghost predicate IsReversal(l: LegacyTables, v: Verdict) {
    && v.reversesID in l.verdicts
    && var o := l.verdicts[v.reversesID];
       && o.reversesID == "" && v.runID == o.runID && v.lensID == o.lensID && v.recordID == o.recordID
       && v.disposition.Reversed? && v.effect == -o.effect
       && forall k :: k in l.verdicts ==> l.verdicts[k].reversesID != v.reversesID
  }

  lemma InsertedSays(h: Digests, l: LegacyTables, q: Claim, now: string)
    requires Inserted(h, l, q, now).Some?
    ensures var v := Inserted(h, l, q, now).value;
            Carries(v, q, now) && if q.reversesID == "" then IsOriginal(l, v, q) else IsReversal(l, v)
  {
    hide MeantKey;
  }

  /** Whatever a call adds is one row that says what was claimed. */
  lemma AddedSays(env: Env, h: Digests, l: LegacyTables, q: Claim, now: string, reply: Reply<Verdict>, m: LegacyTables)
    returns (v: Verdict)
    requires VerdictStep(env, h, l, q, now, reply, m) && m != l
    ensures v.judgmentID !in l.verdicts && m == l.(verdicts := l.verdicts[v.judgmentID := v])
    ensures Carries(v, q, now) && if q.reversesID == "" then IsOriginal(l, v, q) else IsReversal(l, v)
  {
    v := StepInserts(env, h, l, q, now, reply, m);
    InsertedSays(h, l, q, now);
    hide VerdictStep, Inserted, Carries, IsOriginal, IsReversal;
  }

  // ------------------------------------------------------------ identical repeats

  lemma KeyNamesVerdict(env: Env, id: string -> string, l: LegacyTables)
    requires LegacyValid(env, id, l)
    ensures forall a, b :: a in l.verdicts.Values && b in l.verdicts.Values && a.key == b.key ==> a == b
  {
    hide TargetsApart, LegacyKeyed, LegacyLensOK, VerdictFine;
  }

  lemma AnswerStored(env: Env, h: Digests, l: LegacyTables, q: Claim, now: string, reply: Reply<Verdict>,
                     m: LegacyTables)
    requires VerdictStep(env, h, l, q, now, reply, m) && reply.Acknowledged?
    ensures ClaimFormed(env, h, q) && reply.value in m.verdicts.Values && reply.value.key == ClaimKey(h, q)
    ensures SameClaim(reply.value, q)
  {
    if !KeyStored(l, ClaimKey(h, q)) {
      InsertedSays(h, l, q, now);
      hide ClaimFormed, ClaimKey, Inserted, KeyStored, StoredUnder;
      assert m.verdicts[reply.value.judgmentID] == reply.value;
    } else {
      hide ClaimFormed, ClaimKey, Inserted, KeyStored, StoredUnder, SameClaim;
    }
  }

  lemma AnswerUnderToken(env: Env, h: Digests, l: LegacyTables, q: Claim, now: string, reply: Reply<Verdict>,
                         m: LegacyTables)
    requires VerdictStep(env, h, l, q, now, reply, m) && reply.Acknowledged? && q.retryToken != ""
    requires SharedNever(h, l.verdicts.Values)
    ensures forall v :: v in StoredUnder(h, m, q.retryToken) ==> v == reply.value
  {
    AnswerStored(env, h, l, q, now, reply, m);
    assert Prefix(h, q.retryToken) <= ClaimKey(h, q);
    if m == l {
      hide Prefix, VerdictStep, ClaimKey, ClaimFormed, SameClaim;
    } else {
      var v := StepInserts(env, h, l, q, now, reply, m);
      hide VerdictStep, Inserted, ClaimKey, ClaimFormed, SameClaim;
      OnlyAdded(h, l, v, q.retryToken);
    }
  }

  lemma OnlyAdded(h: Digests, l: LegacyTables, v: Verdict, token: string)
    requires StoredUnder(h, l, token) == {} && v.judgmentID !in l.verdicts
    ensures forall w :: w in StoredUnder(h, WithVerdict(l, v), token) ==> w == v
  {
    hide Prefix;
    AddedVerdict(l.verdicts, v);
    assert StoredUnder(h, WithVerdict(l, v), token) <= StoredUnder(h, l, token) + {v};
  }

  /** Whoever is answered with a judgment is answered with it again. */
  lemma AcknowledgedRepeats(env: Env, h: Digests, l: LegacyTables, q: Claim, now: string, reply: Reply<Verdict>,
                            m: LegacyTables)
    requires VerdictStep(env, h, l, q, now, reply, m) && reply.Acknowledged? && LegacyValid(env, h.stableID, m)
    requires q.retryToken != "" ==> SharedNever(h, l.verdicts.Values)
    ensures Repeats(env, h, m, q, reply.value)
  {
    hide *;
    KeyNamesVerdict(env, h.stableID, m);
    AnswerStored(env, h, l, q, now, reply, m);
    if q.retryToken != "" {
      AnswerUnderToken(env, h, l, q, now, reply, m);
    }
    RepeatsNow(env, h, m, q, reply.value);
  }

  lemma RepeatsNow(env: Env, h: Digests, m: LegacyTables, q: Claim, stored: Verdict)
    requires ClaimFormed(env, h, q) && SameClaim(stored, q)
    requires stored in m.verdicts.Values && stored.key == ClaimKey(h, q)
    requires forall a, b :: a in m.verdicts.Values && b in m.verdicts.Values && a.key == b.key ==> a == b
    requires q.retryToken != "" ==> forall v :: v in StoredUnder(h, m, q.retryToken) ==> v == stored
    ensures Repeats(env, h, m, q, stored)
  {
    hide ClaimFormed, SameClaim, ClaimKey, StoredUnder;
  }

  /** Asked twice, the store answers twice with the same judgment and stores it once. */
  method ClaimTwice(store: LegacyStore, q: Claim, now: string, later: string, fault: Fault)
    returns (first: Reply<Verdict>, second: Reply<Verdict>, ghost between: LegacyTables)
    requires LegacyValid(store.env, store.hashes.stableID, store.tables)
    requires Plain(store.env, store.hashes, ClaimKey(store.hashes, TrimmedClaim(q)), now)
    requires Plain(store.env, store.hashes, ClaimKey(store.hashes, TrimmedClaim(q)), later)
    requires TrimmedClaim(q).retryToken != "" ==> SharedNever(store.hashes, store.tables.verdicts.Values)
    modifies store
    ensures first.Acknowledged? ==> second == first && store.tables == between
  {
    ghost var l := store.tables;
    hide *;
    first := store.ApplyVerdict(q, now, fault);
    between := store.tables;
    if first.Acknowledged? {
      AcknowledgedRepeats(store.env, store.hashes, l, TrimmedClaim(q), now, first, between);
    }
    second := store.ApplyVerdict(q, later, Clean);
  }

  // ------------------------------------------------------------- what it moves

  /** A judgment that is added moves the sum of its lens and record by its effect, and
      no other. */
  lemma VerdictMoves(env: Env, h: Digests, l: LegacyTables, q: Claim, now: string, reply: Reply<Verdict>,
                     m: LegacyTables, lens: string, record: string)
    returns (v: Verdict)
    requires LegacyKeyed(l) && VerdictStep(env, h, l, q, now, reply, m) && m != l
    ensures Carries(v, q, now) && if q.reversesID == "" then IsOriginal(l, v, q) else IsReversal(l, v)
    ensures LegacyTotal(LegacyCounted(m, lens, record)) ==
            LegacyTotal(LegacyCounted(l, lens, record)) +
            if v.lensID == lens && v.recordID == record then v.effect else 0
  {
    v := AddedSays(env, h, l, q, now, reply, m);
    hide VerdictStep, Carries, IsOriginal, IsReversal;
    AddedVerdict(l.verdicts, v);
    var before, after := LegacyCounted(l, lens, record), LegacyCounted(m, lens, record);
    if v.lensID == lens && v.recordID == record {
      assert after == before + {v} && v !in before;
      Ledger.SumWithout(after, VerdictEffect, v);
      assert after - {v} == before;
    } else {
      assert after == before;
    }
  }

  // ------------------------------------------------------------ what is answered

  /** A judgment names its run, lens and record; with a token it has no key of its own
      and is for or against. */
  predicate ClaimsOriginal(env: Env, q: Claim) {
    && Kept(env, q.runID, 256) && Kept(env, q.lensID, 256) && Kept(env, q.recordID, 1024) && q.reversesID == ""
    && !env.secretLike("")
    && (q.retryToken != "" ==>
          q.key == "" && 0 < |Trim(q.retryToken)| <= 256 && (q.disposition == Used || q.disposition == Dismissed))
  }

  /** A reversal names its target and nothing else. */
  predicate ClaimsReversal(env: Env, q: Claim) {
    && Kept(env, q.reversesID, 256) && !env.secretLike("")
    && q == Claim(q.key, "", "", "", "", q.voice, OtherDisposition(""), q.reason, q.reversesID)
  }

  predicate Claims(env: Env, h: Digests, q: Claim) {
    && (q.voice == User || q.voice == Helper) && Kept(env, ClaimKey(h, q), 1024)
    && (|Trim(q.reason)| == 0 || |q.reason| <= 4096) && !env.secretLike(q.reason)
    && (ClaimsOriginal(env, q) || ClaimsReversal(env, q))
  }

  lemma ClaimsIff(env: Env, h: Digests, q: Claim)
    ensures ClaimFormed(env, h, q) <==> Claims(env, h, q)
  {
    var x := [ClaimKey(h, q), q.runID, q.lensID, q.recordID, q.reason, q.reversesID];
    assert x[0] == ClaimKey(h, q) && x[1] == q.runID && x[2] == q.lensID && x[3] == q.recordID && x[4] == q.reason;
    assert x[5] == q.reversesID && Trim("") == "";
    hide Trim, ClaimKey;
  }

  predicate Agrees(v: Verdict, q: Claim) {
    && (v.voice, v.reason, v.reversesID) == (q.voice, q.reason, q.reversesID)
    && (q.reversesID == "" ==>
          (v.runID, v.lensID, v.recordID, v.disposition) == (q.runID, q.lensID, q.recordID, q.disposition))
  }

  /** The run showed the record in this lens; a target is an original nobody took back. */
  ghost predicate Insertable(l: LegacyTables, q: Claim) {
    if q.reversesID == "" then
      && q.runID in l.runs && l.runs[q.runID].lensID == q.lensID
      && q.runID in l.candidates && q.recordID in l.candidates[q.runID]
      && (q.voice == User || q.voice == Helper) && (q.disposition == Used || q.disposition == Dismissed)
    else
      && q.reversesID in l.verdicts && l.verdicts[q.reversesID].reversesID == ""
      && forall k :: k in l.verdicts ==> l.verdicts[k].reversesID != q.reversesID
  }

  ghost predicate StoredAs(h: Digests, l: LegacyTables, q: Claim, v: Verdict) {
    v in l.verdicts.Values && v.key == ClaimKey(h, q)
  }

  /** The token was used for nothing else; and the key is stored with what this claim
      says, or what it says can be inserted. */
  ghost predicate Answerable(env: Env, h: Digests, l: LegacyTables, q: Claim) {
    && Claims(env, h, q)
    && (q.retryToken != "" ==>
          forall v :: v in l.verdicts.Values && Prefix(h, q.retryToken) <= v.key ==> StoredAs(h, l, q, v))
    && if exists v :: StoredAs(h, l, q, v) then forall v :: StoredAs(h, l, q, v) ==> Agrees(v, q)
       else Insertable(l, q) && h.stableID(ClaimKey(h, q)) !in l.verdicts
  }

  lemma InsertableIff(h: Digests, l: LegacyTables, q: Claim, now: string)
    ensures Inserted(h, l, q, now).Some? <==> Insertable(l, q) && h.stableID(ClaimKey(h, q)) !in l.verdicts
  {
    hide ClaimKey;
  }

  lemma GrantedIff(env: Env, h: Digests, l: LegacyTables, q: Claim, now: string)
    ensures ClaimGranted(env, h, l, q, now) <==> Answerable(env, h, l, q)
  {
    ClaimsIff(env, h, q);
    InsertableIff(h, l, q, now);
    StoredIff(h, l, q);
    hide ClaimFormed, Claims, Inserted, Insertable, ClaimKey, StoredAs, KeyStored, StoredUnder, SameClaim, Agrees,
         Prefix;
  }

  lemma StoredIff(h: Digests, l: LegacyTables, q: Claim)
    ensures KeyStored(l, ClaimKey(h, q)) <==> exists v :: StoredAs(h, l, q, v)
    ensures (forall v :: v in l.verdicts.Values && v.key == ClaimKey(h, q) ==> SameClaim(v, q)) <==>
            (forall v :: StoredAs(h, l, q, v) ==> Agrees(v, q))
    ensures (forall v :: v in StoredUnder(h, l, q.retryToken) ==> v.key == ClaimKey(h, q)) <==>
            (forall v :: v in l.verdicts.Values && Prefix(h, q.retryToken) <= v.key ==> StoredAs(h, l, q, v))
  {
    forall v: Verdict ensures SameClaim(v, q) <==> Agrees(v, q) {
    }
    hide ClaimKey, SameClaim, Agrees, Prefix;
    if KeyStored(l, ClaimKey(h, q)) {
      var k :| k in l.verdicts && l.verdicts[k].key == ClaimKey(h, q);
      assert StoredAs(h, l, q, l.verdicts[k]);
    }
    if v :| StoredAs(h, l, q, v) {
      var k :| k in l.verdicts && l.verdicts[k] == v;
    }
  }

  /** A call is refused exactly when its claim cannot be answered. */
  lemma RefusedIff(env: Env, h: Digests, l: LegacyTables, q: Claim, now: string, reply: Reply<Verdict>, m: LegacyTables)
    requires LegacyValid(env, h.stableID, l) && VerdictStep(env, h, l, q, now, reply, m)
    requires q.retryToken != "" ==> SharedNever(h, l.verdicts.Values)
    ensures reply.Refused? <==> !Answerable(env, h, l, q)
    ensures reply.Acknowledged? ==> Agrees(reply.value, q) && reply.value.key == ClaimKey(h, q)
  {
    hide *;
    GrantedIff(env, h, l, q, now);
    if reply.Refused? {
      StepRefused(env, h, l, q, now, reply, m);
    } else {
      StepGranted(env, h, l, q, now, reply, m);
    }
    if reply.Acknowledged? {
      AnswerStored(env, h, l, q, now, reply, m);
      AgreesNow(reply.value, q);
    }
  }

  lemma AgreesNow(v: Verdict, q: Claim)
    requires SameClaim(v, q)
    ensures Agrees(v, q)
  {
  }

  lemma StepRefused(env: Env, h: Digests, l: LegacyTables, q: Claim, now: string, reply: Reply<Verdict>,
                    m: LegacyTables)
    requires VerdictStep(env, h, l, q, now, reply, m) && reply.Refused?
    ensures !ClaimGranted(env, h, l, q, now)
  {
    hide ClaimGranted;
  }

  lemma StepGranted(env: Env, h: Digests, l: LegacyTables, q: Claim, now: string, reply: Reply<Verdict>,
                    m: LegacyTables)
    requires LegacyValid(env, h.stableID, l) && VerdictStep(env, h, l, q, now, reply, m) && !reply.Refused?
    requires q.retryToken != "" ==> SharedNever(h, l.verdicts.Values)
    ensures ClaimGranted(env, h, l, q, now)
  {
    KeyNamesVerdict(env, h.stableID, l);
    hide LegacyValid, ClaimFormed, Inserted, SameClaim, ClaimKey, Prefix;
  }
}
