/** Feedback as the unscoped tables take it: no preflight protects the recovery
    copy here, so what a call inserts must itself keep that copy valid. */
module LegacyFeedback {
  import opened Text
  import opened ScopedModel
  import opened Ledger
  import opened Feedback
  import opened ScopedStore
  import opened LegacyModel
  import opened LegacyProjection
  import opened Histories

  datatype Claim = Claim(key: string, retryToken: string, runID: string, lensID: string, recordID: string,
                         voice: Voice, disposition: Disposition, reason: string, reversesID: string)

  /** Everything a retried judgment must repeat to be the same intent. */
  datatype Meant = Meant(runID: string, lensID: string, recordID: string, voice: Voice, disposition: Disposition,
                         reason: string, token: string)

  datatype Digests = Digests(stableID: string -> string, token: string -> string, event: Meant -> string)

  /** Among the meanings asked for, no two tokens and no two meanings share a hash;
      a token's hash is hexadecimal, so it holds no colon. */
  ghost predicate Unmixed(h: Digests, asked: iset<Meant>) {
    && (forall a, b :: a in asked && b in asked && h.token(a.token) == h.token(b.token) ==> a.token == b.token)
    && (forall a, b :: a in asked && b in asked && h.event(a) == h.event(b) ==> a == b)
    && NoColon(h)
  }

  ghost predicate NoColon(h: Digests) {
    forall token :: ':' !in h.token(token)
  }

  /** The identity of a key and the time are plain texts within the bounds. */
  predicate Plain(env: Env, h: Digests, key: string, now: string) {
    && Bounded(h.stableID(key), 256) && !env.secretLike(h.stableID(key))
    && Bounded(now, 256) && !env.secretLike(now) && !env.secretLike("")
  }

  const LEGACY_PREFIX := "feedback-v1:"

  function Prefix(h: Digests, token: string): string {
    LEGACY_PREFIX + h.token(token) + ":"
  }

  function MeantKey(h: Digests, m: Meant): string {
    Prefix(h, m.token) + h.event(m)
  }

  function MeaningOf(q: Claim): Meant {
    Meant(q.runID, q.lensID, q.recordID, q.voice, q.disposition, q.reason, q.retryToken)
  }

  function ClaimKey(h: Digests, q: Claim): string {
    if q.retryToken != "" then MeantKey(h, MeaningOf(q)) else q.key
  }

  function TrimmedClaim(q: Claim): Claim {
    q.(key := Trim(q.key), retryToken := Trim(q.retryToken), runID := Trim(q.runID), lensID := Trim(q.lensID),
       recordID := Trim(q.recordID), reason := Trim(q.reason), reversesID := Trim(q.reversesID))
  }

  /** The checks before any row is read, feedbackRetryIdentity among them. */
  predicate ClaimFormed(env: Env, h: Digests, q: Claim) {
    && (q.voice.User? || q.voice.Helper?) && OptionalBounded(q.reason, 4096) && Bounded(ClaimKey(h, q), 1024)
    && !AnySecret(env, [ClaimKey(h, q), q.runID, q.lensID, q.recordID, q.reason, q.reversesID])
    && (q.retryToken != "" ==>
          q.key == "" && q.reversesID == "" && Bounded(q.retryToken, 256) &&
            (q.disposition.Used? || q.disposition.Dismissed?))
    && if q.reversesID == "" then
         Bounded(q.runID, 256) && Bounded(q.lensID, 256) && Bounded(q.recordID, 1024)
       else
         && Bounded(q.reversesID, 256) && q.runID == "" && q.lensID == "" && q.recordID == ""
         && q.disposition == NO_DISPOSITION
  }

  /** sameJudgmentRequest, for a judgment found under the request's own key. */
  predicate SameClaim(v: Verdict, q: Claim) {
    && v.voice == q.voice && v.reason == q.reason
    && if q.reversesID != "" then v.reversesID == q.reversesID
       else v.reversesID == "" && v.runID == q.runID && v.lensID == q.lensID && v.recordID == q.recordID &&
            v.disposition == q.disposition
  }

  /** The row a new claim inserts, if the tables and their unique keys allow it. */
  function Inserted(h: Digests, l: LegacyTables, q: Claim, now: string): (v: Option<Verdict>)
    ensures v.Some? ==> v.value.key == ClaimKey(h, q) && v.value.judgmentID == h.stableID(v.value.key) &&
                        v.value.judgmentID !in l.verdicts
  {
    var key := ClaimKey(h, q);
    var id := h.stableID(key);
    if id in l.verdicts then None
    else if q.reversesID != "" then
      if q.reversesID in l.verdicts && l.verdicts[q.reversesID].reversesID == "" &&
         forall k :: k in l.verdicts ==> l.verdicts[k].reversesID != q.reversesID
      then
        var o := l.verdicts[q.reversesID];
        Some(Verdict(id, key, o.runID, o.lensID, o.recordID, q.voice, Reversed, q.reason, q.reversesID, -o.effect, now))
      else None
    else if q.runID in l.runs && q.runID in l.candidates && q.recordID in l.candidates[q.runID] &&
            l.runs[q.runID].lensID == q.lensID && LegacyEffect(q.voice, q.disposition).Some?
    then
      Some(Verdict(id, key, q.runID, q.lensID, q.recordID, q.voice, q.disposition, q.reason, "",
                   LegacyEffect(q.voice, q.disposition).value, now))
    else None
  }

  function WithVerdict(l: LegacyTables, v: Verdict): LegacyTables {
    l.(verdicts := l.verdicts[v.judgmentID := v])
  }

  ghost predicate KeyStored(l: LegacyTables, key: string) {
    exists k :: k in l.verdicts && l.verdicts[k].key == key
  }

  ghost function StoredUnder(h: Digests, l: LegacyTables, token: string): set<Verdict> {
    set v | v in l.verdicts.Values && Prefix(h, token) <= v.key
  }

  /** A call that must not be refused: its token was used for nothing else, and
      its key is stored with the same meaning or its row can be inserted. */
  ghost predicate ClaimGranted(env: Env, h: Digests, l: LegacyTables, q: Claim, now: string) {
    var key := ClaimKey(h, q);
    && ClaimFormed(env, h, q)
    && (q.retryToken != "" ==> forall v :: v in StoredUnder(h, l, q.retryToken) ==> v.key == key)
    && if KeyStored(l, key) then forall v :: v in l.verdicts.Values && v.key == key ==> SameClaim(v, q)
       else Inserted(h, l, q, now).Some?
  }

  /** What one call may do to the log, seen from the outside. */
  ghost predicate VerdictStep(env: Env, h: Digests, l: LegacyTables, q: Claim, now: string, reply: Reply<Verdict>,
                              m: LegacyTables) {
    var key := ClaimKey(h, q);
    if reply.Refused? then m == l && !ClaimGranted(env, h, l, q, now)
    else
      && ClaimFormed(env, h, q)
      && (q.retryToken != "" ==>
            StoredUnder(h, l, q.retryToken) == {} || exists v :: v in StoredUnder(h, l, q.retryToken) && v.key == key)
      && if KeyStored(l, key) then
           && m == l && (exists v :: v in l.verdicts.Values && v.key == key && SameClaim(v, q))
           && (reply.Acknowledged? ==>
                 reply.value in l.verdicts.Values && reply.value.key == key && SameClaim(reply.value, q))
         else
           && Inserted(h, l, q, now).Some? && m == WithVerdict(l, Inserted(h, l, q, now).value)
           && (reply.Acknowledged? ==> reply.value == Inserted(h, l, q, now).value)
  }

  /** An inserted row keeps the log acceptable to the recovery validator. */
  lemma InsertKeepsValid(env: Env, h: Digests, l: LegacyTables, q: Claim, now: string)
    requires LegacyValid(env, h.stableID, l) && Plain(env, h, ClaimKey(h, q), now) && ClaimFormed(env, h, q)
    requires !KeyStored(l, ClaimKey(h, q)) && Inserted(h, l, q, now).Some?
    ensures LegacyValid(env, h.stableID, WithVerdict(l, Inserted(h, l, q, now).value))
  {
    hide *;
    var v := Inserted(h, l, q, now).value;
    InsertedText(env, h, l, q, now);
    InsertedFine(env, h, l, q, now);
    InsertedPairs(env, h, l, q, now);
    ValidIsPaired(env, h.stableID, l);
    PairsGrow(env, l.verdicts, v);
    ValidGrows(env, h.stableID, l, v);
  }

  lemma ValidIsPaired(env: Env, id: string -> string, l: LegacyTables)
    requires LegacyValid(env, id, l)
    ensures VerdictsPaired(env, l.verdicts)
  {
    hide VerdictsPaired, LegacyKeyed, LegacyLensOK, VerdictFine;
  }

  lemma ValidGrows(env: Env, id: string -> string, l: LegacyTables, v: Verdict)
    requires LegacyValid(env, id, l) && VerdictFine(env, id, v) && VerdictsPaired(env, l.verdicts[v.judgmentID := v])
    ensures LegacyValid(env, id, WithVerdict(l, v))
  {
    hide VerdictsPaired, LegacyLensOK, VerdictFine;
  }

  lemma InsertedFine(env: Env, h: Digests, l: LegacyTables, q: Claim, now: string)
    requires Inserted(h, l, q, now).Some? && VerdictTextOK(env, Inserted(h, l, q, now).value)
    ensures VerdictFine(env, h.stableID, Inserted(h, l, q, now).value)
  {
    hide VerdictTextOK, ClaimKey;
  }

  /** A new reversal undoes a stored original nobody reversed, and its key is new. */
  lemma InsertedPairs(env: Env, h: Digests, l: LegacyTables, q: Claim, now: string)
    requires ClaimFormed(env, h, q) && !KeyStored(l, ClaimKey(h, q)) && Inserted(h, l, q, now).Some?
    requires VerdictTextOK(env, Inserted(h, l, q, now).value)
    ensures var v := Inserted(h, l, q, now).value;
            && (forall k :: k in l.verdicts ==> l.verdicts[k].key != v.key)
            && (v.reversesID != "" ==>
                  && v.reversesID in l.verdicts && l.verdicts[v.reversesID].reversesID == ""
                  && ReversalOK(env, v, l.verdicts[v.reversesID])
                  && forall k :: k in l.verdicts ==> l.verdicts[k].reversesID != v.reversesID)
  {
    hide VerdictTextOK, ClaimKey, Bounded, OptionalBounded, AnySecret;
  }

  lemma PairsGrow(env: Env, js: map<string, Verdict>, v: Verdict)
    requires VerdictsPaired(env, js) && v.judgmentID !in js && forall k :: k in js ==> js[k].key != v.key
    requires v.reversesID != "" ==>
               && v.reversesID in js && js[v.reversesID].reversesID == "" && ReversalOK(env, v, js[v.reversesID])
               && forall k :: k in js ==> js[k].reversesID != v.reversesID
    ensures VerdictsPaired(env, js[v.judgmentID := v])
  {
    hide ReversalOK;
  }

  lemma InsertedText(env: Env, h: Digests, l: LegacyTables, q: Claim, now: string)
    requires LegacyValid(env, h.stableID, l) && Plain(env, h, ClaimKey(h, q), now) && ClaimFormed(env, h, q) &&
             Inserted(h, l, q, now).Some?
    ensures VerdictTextOK(env, Inserted(h, l, q, now).value)
  {
    if q.reversesID == "" {
      OriginalText(env, h, l, q, now);
    } else {
      assert VerdictFine(env, h.stableID, l.verdicts[q.reversesID]);
      ReversalText(env, h, l, q, now);
    }
  }

  lemma OriginalText(env: Env, h: Digests, l: LegacyTables, q: Claim, now: string)
    requires Plain(env, h, ClaimKey(h, q), now) && ClaimFormed(env, h, q) && Inserted(h, l, q, now).Some? &&
             q.reversesID == ""
    ensures VerdictTextOK(env, Inserted(h, l, q, now).value)
  {
    var v := Inserted(h, l, q, now).value;
    hide Bounded, OptionalBounded, ClaimKey, AnySecret, LegacyEffect, VerdictTextOK;
    ClaimSecrets(env, h, q);
    TextFine(env, v);
  }

  lemma ReversalText(env: Env, h: Digests, l: LegacyTables, q: Claim, now: string)
    requires Plain(env, h, ClaimKey(h, q), now) && ClaimFormed(env, h, q) && Inserted(h, l, q, now).Some? &&
             q.reversesID != ""
    requires q.reversesID in l.verdicts && VerdictTextOK(env, l.verdicts[q.reversesID])
    ensures VerdictTextOK(env, Inserted(h, l, q, now).value)
  {
    var v := Inserted(h, l, q, now).value;
    hide Bounded, OptionalBounded, ClaimKey, AnySecret, LegacyEffect;
    ClaimSecrets(env, h, q);
    VerdictSecrets(env, l.verdicts[q.reversesID]);
    hide ClaimFormed;
    TextFine(env, v);
  }

  lemma TextFine(env: Env, v: Verdict)
    requires Bounded(v.judgmentID, 256) && Bounded(v.key, 1024) && Bounded(v.runID, 256) && Bounded(v.lensID, 256)
    requires Bounded(v.recordID, 1024) && Bounded(v.createdAt, 256) && OptionalBounded(v.reason, 4096)
    requires !env.secretLike(v.judgmentID) && !env.secretLike(v.key) && !env.secretLike(v.runID)
    requires !env.secretLike(v.lensID) && !env.secretLike(v.recordID) && !env.secretLike(v.reason)
    requires !env.secretLike(v.reversesID) && !env.secretLike(v.createdAt)
    ensures VerdictTextOK(env, v)
  {
    hide Bounded, OptionalBounded;
    NoneSecret(env, [v.judgmentID, v.key, v.runID, v.lensID, v.recordID, v.reason, v.reversesID, v.createdAt]);
  }

  lemma ClaimSecrets(env: Env, h: Digests, q: Claim)
    requires ClaimFormed(env, h, q)
    ensures !env.secretLike(ClaimKey(h, q)) && !env.secretLike(q.runID) && !env.secretLike(q.lensID)
    ensures !env.secretLike(q.recordID) && !env.secretLike(q.reason) && !env.secretLike(q.reversesID)
  {
    hide Bounded, OptionalBounded, ClaimKey;
    var texts := [ClaimKey(h, q), q.runID, q.lensID, q.recordID, q.reason, q.reversesID];
    assert !env.secretLike(texts[0]) && !env.secretLike(texts[1]) && !env.secretLike(texts[2]);
    assert !env.secretLike(texts[3]) && !env.secretLike(texts[4]) && !env.secretLike(texts[5]);
  }

  lemma VerdictSecrets(env: Env, v: Verdict)
    requires VerdictTextOK(env, v)
    ensures !env.secretLike(v.runID) && !env.secretLike(v.lensID) && !env.secretLike(v.recordID)
  {
    hide Bounded, OptionalBounded;
    var texts := [v.judgmentID, v.key, v.runID, v.lensID, v.recordID, v.reason, v.reversesID, v.createdAt];
    assert !env.secretLike(texts[2]) && !env.secretLike(texts[3]) && !env.secretLike(texts[4]);
  }

  class LegacyStore {
    const env: Env
    const hashes: Digests
    var tables: LegacyTables
    var sidecar: Option<LegacySnapshot>

    constructor (env: Env, hashes: Digests, tables: LegacyTables, sidecar: Option<LegacySnapshot>)
      ensures this.env == env && this.hashes == hashes && this.tables == tables && this.sidecar == sidecar
    {
      this.env, this.hashes, this.tables, this.sidecar := env, hashes, tables, sidecar;
    }

    /** writeRecoverySnapshot; a valid log is read back as a valid snapshot. */
    method WriteSidecar(fault: Fault) returns (ok: bool)
      requires LegacyValid(env, hashes.stableID, tables)
      modifies this`sidecar
      ensures ok <==> fault.Clean?
      ensures sidecar == if fault.FailedBefore? then old(sidecar) else Some(BuildLegacy(tables))
    {
      assert LegacyKeyed(tables);
      hide *;
      var built := BuildLegacySnapshot(env, hashes.stableID, tables);
      if fault.FailedBefore? {
        return false;
      }
      sidecar := built;
      ok := fault.Clean?;
    }

    /** ApplyJudgment: one step of the log, which stays acceptable to recovery; an
        acknowledged judgment is in the sidecar. */
    method ApplyVerdict(q0: Claim, now: string, fault: Fault) returns (reply: Reply<Verdict>)
      requires LegacyValid(env, hashes.stableID, tables)
      requires Plain(env, hashes, ClaimKey(hashes, TrimmedClaim(q0)), now)
      modifies this
      ensures LegacyValid(env, hashes.stableID, tables)
      ensures VerdictStep(env, hashes, old(tables), TrimmedClaim(q0), now, reply, tables)
      ensures reply.Refused? ==> sidecar == old(sidecar)
      ensures reply.Acknowledged? ==> sidecar == Some(BuildLegacy(tables))
      ensures forall stored ::
                Repeats(env, hashes, old(tables), TrimmedClaim(q0), stored) && fault.Clean? ==>
                  reply == Acknowledged(stored) && tables == old(tables)
    {
      hide LegacyValid, Plain, Inserted, WithVerdict;
      var q := TrimmedClaim(q0);
      hide TrimmedClaim;
      var key := ClaimKey(hashes, q);
      if !ClaimFormed(env, hashes, q) {
        return Refused;
      }
      hide ClaimFormed, ClaimKey;
      if q.retryToken != "" {
        var matching := set v | v in tables.verdicts.Values && Prefix(hashes, q.retryToken) <= v.key;
        assert matching == StoredUnder(hashes, tables, q.retryToken);
        if first :| first in matching {
          if first.key != key {
            return Refused;
          }
        }
      }
      if k :| k in tables.verdicts && tables.verdicts[k].key == key {
        reply := ReplayVerdict(tables.verdicts[k], q, fault);
      } else {
        reply := InsertVerdict(q, now, fault);
      }
    }

    /** A stored key: its judgment comes back, or the claim conflicts. */
    method ReplayVerdict(stored: Verdict, q: Claim, fault: Fault) returns (reply: Reply<Verdict>)
      requires LegacyValid(env, hashes.stableID, tables)
      modifies this`sidecar
      ensures reply.Refused? <==> !SameClaim(stored, q)
      ensures reply.Refused? ==> sidecar == old(sidecar)
      ensures reply.Acknowledged? ==> reply.value == stored && sidecar == Some(BuildLegacy(tables))
      ensures fault.Clean? ==> !reply.Unwritten?
    {
      hide *;
      if !SameClaim(stored, q) {
        return Refused;
      }
      var ok := WriteSidecar(fault);
      reply := if ok then Acknowledged(stored) else Unwritten;
    }

    /** A new key: its row is inserted and the recovery copy rewritten. */
    method InsertVerdict(q: Claim, now: string, fault: Fault) returns (reply: Reply<Verdict>)
      requires LegacyValid(env, hashes.stableID, tables) && Plain(env, hashes, ClaimKey(hashes, q), now)
      requires ClaimFormed(env, hashes, q) && !KeyStored(tables, ClaimKey(hashes, q))
      modifies this
      ensures LegacyValid(env, hashes.stableID, tables)
      ensures reply.Refused? <==> Inserted(hashes, old(tables), q, now).None?
      ensures reply.Refused? ==> tables == old(tables) && sidecar == old(sidecar)
      ensures !reply.Refused? ==> tables == WithVerdict(old(tables), Inserted(hashes, old(tables), q, now).value)
      ensures reply.Acknowledged? ==>
                reply.value == Inserted(hashes, old(tables), q, now).value && sidecar == Some(BuildLegacy(tables))
      ensures fault.Clean? ==> !reply.Unwritten?
    {
      hide *;
      var inserted := Inserted(hashes, tables, q, now);
      if inserted.None? {
        return Refused;
      }
      InsertKeepsValid(env, hashes, tables, q, now);
      tables := WithVerdict(tables, inserted.value);
      var ok := WriteSidecar(fault);
      reply := if ok then Acknowledged(inserted.value) else Unwritten;
    }
  }

  /** An identical repeat of a claim that is already stored. */
  ghost predicate Repeats(env: Env, h: Digests, l: LegacyTables, q: Claim, stored: Verdict) {
    && ClaimFormed(env, h, q)
    && (forall v :: v in l.verdicts.Values && v.key == ClaimKey(h, q) <==> v == stored)
    && (q.retryToken != "" ==> forall v :: v in StoredUnder(h, l, q.retryToken) ==> v == stored)
    && SameClaim(stored, q)
  }

  // ------------------------------------------------------------- exactly once

  /** A token's prefix matches a derived key exactly when it is that key's prefix. */
  lemma PrefixOfMeant(h: Digests, token: string, m: Meant)
    requires NoColon(h)
    ensures Prefix(h, token) <= MeantKey(h, m) <==> h.token(token) == h.token(m.token)
  {
    PrefixBeforeMark(':', LEGACY_PREFIX, h.token(token), h.token(m.token), h.event(m));
  }

  /** Among the meanings asked for, a token's prefix matches exactly that token's
      keys, and a derived key names the whole meaning. */
  lemma MeantKeyNames(h: Digests, asked: iset<Meant>, a: Meant, b: Meant)
    requires Unmixed(h, asked) && a in asked && b in asked
    ensures Prefix(h, b.token) <= MeantKey(h, a) <==> a.token == b.token
    ensures MeantKey(h, a) == MeantKey(h, b) <==> a == b
  {
    PrefixOfMeant(h, b.token, a);
    if MeantKey(h, a) == MeantKey(h, b) {
      PrefixOfMeant(h, b.token, b);
      var n := |Prefix(h, b.token)|;
      assert MeantKey(h, a)[n..] == h.event(a) && MeantKey(h, b)[n..] == h.event(b);
    }
  }

  function VoiceText(v: Voice): string {
    match v
    case User => "user"
    case Helper => "helper"
    case OtherVoice(text) => "other" + text
  }

  function MeantFields(m: Meant): (fields: seq<string>)
    ensures |fields| == 7
  {
    [m.runID, m.lensID, m.recordID, VoiceText(m.voice), DispositionText(m.disposition), m.reason, m.token]
  }

  function MeantText(m: Meant): string {
    Line(MeantFields(m))
  }

  lemma MeantFieldsApart(a: Meant, b: Meant)
    requires MeantFields(a) == MeantFields(b)
    ensures a == b
  {
    var x, y := MeantFields(a), MeantFields(b);
    assert x[0] == y[0] && x[1] == y[1] && x[2] == y[2] && x[3] == y[3] && x[4] == y[4] && x[5] == y[5] && x[6] == y[6];
    TextsApart(Owner, Owner, a.disposition, b.disposition);
    if a.voice.OtherVoice? || b.voice.OtherVoice? {
      assert x[3][0] == 'o' && x[3][5..] == y[3][5..];
    }
    hide DispositionText;
  }

  lemma TextNamesMeant(a: Meant, b: Meant)
    requires MeantText(a) == MeantText(b)
    ensures a == b
  {
    hide Line, MeantFields;
    LineApart(MeantFields(a), MeantFields(b));
    MeantFieldsApart(a, b);
  }

  /** There are hashes that mix nothing up, whatever is asked for, and give any claim
      a plain identity. */
  lemma UnmixedDigests(asked: iset<Meant>, key: string)
    ensures var h := Digests(text => "judgment", Escaped, MeantText);
            Unmixed(h, asked) && Plain(OPEN, h, key, "2026")
  {
    hide Escaped, MeantText;
    forall a, b | a in asked && b in asked && Escaped(a.token) == Escaped(b.token) ensures a.token == b.token {
      EscapedApart(a.token, b.token);
    }
    forall a, b | a in asked && b in asked && MeantText(a) == MeantText(b) ensures a == b {
      TextNamesMeant(a, b);
    }
    TightIsBounded("judgment", 256);
    TightIsBounded("2026", 256);
  }

  ghost predicate Means(v: Verdict, m: Meant) {
    && v.runID == m.runID && v.lensID == m.lensID && v.recordID == m.recordID && v.voice == m.voice
    && v.disposition == m.disposition && v.reason == m.reason && v.reversesID == ""
  }

  ghost predicate Truthful(h: Digests, asked: iset<Meant>, v: Verdict) {
    forall m: Meant :: m in asked && v.key == MeantKey(h, m) ==> Means(v, m)
  }

  ghost predicate SharedNever(h: Digests, vs: set<Verdict>) {
    forall token, a, b :: a in vs && b in vs && Prefix(h, token) <= a.key && Prefix(h, token) <= b.key ==> a == b
  }

  /** Each token has stored at most one judgment, and it says what was meant. */
  ghost predicate OncePerToken(h: Digests, asked: iset<Meant>, vs: set<Verdict>) {
    SharedNever(h, vs) && forall v :: v in vs ==> Truthful(h, asked, v)
  }

  /** What a claim with a token means is among the meanings asked for. */
  ghost predicate Asked(asked: iset<Meant>, q: Claim) {
    q.retryToken != "" ==> MeaningOf(q) in asked
  }

  /** Keys callers choose never start with the retry prefix. */
  predicate ChosenApart(q: Claim) {
    !(LEGACY_PREFIX <= q.key)
  }

  lemma ChosenKeyIsApart(h: Digests, key: string)
    requires !(LEGACY_PREFIX <= key)
    ensures forall token :: !(Prefix(h, token) <= key)
    ensures forall m: Meant :: key != MeantKey(h, m)
  {
    forall token ensures !(Prefix(h, token) <= key) {
      assert Prefix(h, token)[..|LEGACY_PREFIX|] == LEGACY_PREFIX;
    }
    forall m: Meant ensures LEGACY_PREFIX <= MeantKey(h, m) {
      assert MeantKey(h, m) == Prefix(h, m.token) + h.event(m);
    }
  }

  lemma InsertedTruthful(h: Digests, asked: iset<Meant>, l: LegacyTables, q: Claim, now: string)
    requires Unmixed(h, asked) && Asked(asked, q) && ChosenApart(q)
    requires Inserted(h, l, q, now).Some? && (q.retryToken != "" ==> q.reversesID == "")
    ensures Truthful(h, asked, Inserted(h, l, q, now).value)
  {
    var v := Inserted(h, l, q, now).value;
    if q.retryToken == "" {
      ChosenKeyIsApart(h, v.key);
    } else {
      forall m: Meant | m in asked && v.key == MeantKey(h, m) ensures Means(v, m) {
        MeantKeyNames(h, asked, m, MeaningOf(q));
      }
    }
  }

  /** A step that changes the log inserts one judgment, the first under its token. */
  lemma StepInserts(env: Env, h: Digests, l: LegacyTables, q: Claim, now: string, reply: Reply<Verdict>,
                    m: LegacyTables)
    returns (v: Verdict)
    requires VerdictStep(env, h, l, q, now, reply, m) && m != l
    ensures Inserted(h, l, q, now) == Some(v) && v.judgmentID !in l.verdicts && m == WithVerdict(l, v)
    ensures q.retryToken != "" ==> q.reversesID == "" && StoredUnder(h, l, q.retryToken) == {}
  {
    v := Inserted(h, l, q, now).value;
    forall w | w in StoredUnder(h, l, q.retryToken) ensures w.key != ClaimKey(h, q) {
    }
  }

  lemma FirstUnderToken(h: Digests, l: LegacyTables, q: Claim, now: string, token: string)
    requires NoColon(h) && ChosenApart(q) && Inserted(h, l, q, now).Some?
    requires q.retryToken != "" ==> StoredUnder(h, l, q.retryToken) == {}
    requires Prefix(h, token) <= Inserted(h, l, q, now).value.key
    ensures StoredUnder(h, l, token) == {}
  {
    if q.retryToken == "" {
      ChosenKeyIsApart(h, Inserted(h, l, q, now).value.key);
    } else {
      PrefixOfMeant(h, token, MeaningOf(q));
      assert StoredUnder(h, l, token) == StoredUnder(h, l, q.retryToken);
    }
  }

  lemma AddedVerdict(vs: map<string, Verdict>, v: Verdict)
    requires v.judgmentID !in vs
    ensures vs[v.judgmentID := v].Values == vs.Values + {v}
  {
    var after := vs[v.judgmentID := v];
    assert after[v.judgmentID] == v;
    forall w | w in vs.Values ensures w in after.Values {
      var k :| k in vs && vs[k] == w;
      assert after[k] == w;
    }
  }

  lemma StepKeepsOnce(env: Env, h: Digests, asked: iset<Meant>, l: LegacyTables, q: Claim, now: string,
                      reply: Reply<Verdict>, m: LegacyTables)
    requires Unmixed(h, asked) && Asked(asked, q) && ChosenApart(q)
    requires VerdictStep(env, h, l, q, now, reply, m) && OncePerToken(h, asked, l.verdicts.Values)
    ensures OncePerToken(h, asked, m.verdicts.Values)
  {
    if m != l {
      var v := StepInserts(env, h, l, q, now, reply, m);
      InsertedTruthful(h, asked, l, q, now);
      hide VerdictStep, Inserted, Truthful, Unmixed, ClaimFormed, MeantKey;
      forall token, a | a in l.verdicts.Values && Prefix(h, token) <= v.key ensures !(Prefix(h, token) <= a.key) {
        FirstUnderToken(h, l, q, now, token);
        assert a !in StoredUnder(h, l, token);
      }
      AddedVerdict(l.verdicts, v);
      hide Prefix;
      GrownOnce(h, asked, l.verdicts.Values, v);
    }
  }

  lemma GrownOnce(h: Digests, asked: iset<Meant>, vs: set<Verdict>, v: Verdict)
    requires OncePerToken(h, asked, vs) && Truthful(h, asked, v)
    requires forall token, a :: a in vs && Prefix(h, token) <= v.key ==> !(Prefix(h, token) <= a.key)
    ensures OncePerToken(h, asked, vs + {v})
  {
    hide Prefix, Truthful;
  }

  /** The key lies under a token that a stored judgment lies under too. */
  ghost predicate UnderUsedToken(h: Digests, l: LegacyTables, key: string) {
    exists token :: Prefix(h, token) <= key && StoredUnder(h, l, token) != {}
  }

  /** A call that adds a judgment leaves every token with at most one exactly when it
      carries a token, or its own key lies under no token already used. */
  lemma StepSharesNeverIff(env: Env, h: Digests, l: LegacyTables, q: Claim, now: string, reply: Reply<Verdict>,
                           m: LegacyTables)
    requires NoColon(h) && SharedNever(h, l.verdicts.Values) && VerdictStep(env, h, l, q, now, reply, m) && m != l
    ensures SharedNever(h, m.verdicts.Values) <==> q.retryToken != "" || !UnderUsedToken(h, l, q.key)
  {
    var v := StepInserts(env, h, l, q, now, reply, m);
    AddedVerdict(l.verdicts, v);
    assert forall w :: w in l.verdicts.Values ==> w.key != v.key;
    hide VerdictStep, Inserted, ClaimFormed;
    if q.retryToken != "" {
      forall token | Prefix(h, token) <= v.key ensures StoredUnder(h, l, token) == {} {
        PrefixOfMeant(h, token, MeaningOf(q));
        assert StoredUnder(h, l, token) == StoredUnder(h, l, q.retryToken);
      }
    }
    GrownShares(h, l, v);
  }

  lemma GrownShares(h: Digests, l: LegacyTables, v: Verdict)
    requires SharedNever(h, l.verdicts.Values) && forall w :: w in l.verdicts.Values ==> w.key != v.key
    ensures SharedNever(h, l.verdicts.Values + {v}) <==> !UnderUsedToken(h, l, v.key)
  {
    hide Prefix;
    if UnderUsedToken(h, l, v.key) {
      var token :| Prefix(h, token) <= v.key && StoredUnder(h, l, token) != {};
      var w :| w in StoredUnder(h, l, token);
      assert w in l.verdicts.Values + {v} && v in l.verdicts.Values + {v} && w != v;
    } else {
      forall token, w | w in l.verdicts.Values && Prefix(h, token) <= v.key ensures !(Prefix(h, token) <= w.key) {
        assert w !in StoredUnder(h, l, token);
      }
    }
  }

  const SHORT: Digests := Digests(text => text, token => "t", meant => "e")
  const SHOWN: LegacyTables := NO_LEGACY.(runs := map["r" := LegacyRun("r", "q", "l", "m", "y", "2026")],
                                          candidates := map["r" := map["x" := Candidate("x", 1, Finite(1.0), map[])]])
  const TOKEN_CLAIM := Claim("", "once", "r", "l", "x", User, Used, "", "")
  const KEY_CLAIM := Claim("feedback-v1:t:x", "", "r", "l", "x", User, Used, "", "")
  const BY_TOKEN := Verdict("feedback-v1:t:e", "feedback-v1:t:e", "r", "l", "x", User, Used, "", "", 4, "2026")
  const BY_KEY := Verdict("feedback-v1:t:x", "feedback-v1:t:x", "r", "l", "x", User, Used, "", "", 4, "2026")

  /** A token's claim, and then a caller's own key under that token's prefix: both are
      stored, so the token has two. */
  lemma BorrowedPrefix()
    ensures var l := WithVerdict(SHOWN, BY_TOKEN);
            && VerdictStep(OPEN, SHORT, SHOWN, TOKEN_CLAIM, "2026", Acknowledged(BY_TOKEN), l)
            && VerdictStep(OPEN, SHORT, l, KEY_CLAIM, "2026", Acknowledged(BY_KEY), WithVerdict(l, BY_KEY))
            && !SharedNever(SHORT, WithVerdict(l, BY_KEY).verdicts.Values)
  {
    ClaimsFormed();
    TokenInserts();
    KeyInserts();
    TwoStored();
    hide *;
    NewStores(OPEN, SHORT, SHOWN, TOKEN_CLAIM, "2026", BY_TOKEN);
    NewStores(OPEN, SHORT, WithVerdict(SHOWN, BY_TOKEN), KEY_CLAIM, "2026", BY_KEY);
  }

  /** A new key whose row can be inserted is stored. */
  lemma NewStores(env: Env, h: Digests, l: LegacyTables, q: Claim, now: string, v: Verdict)
    requires ClaimFormed(env, h, q) && !KeyStored(l, ClaimKey(h, q)) && Inserted(h, l, q, now) == Some(v)
    requires q.retryToken != "" ==> StoredUnder(h, l, q.retryToken) == {}
    ensures VerdictStep(env, h, l, q, now, Acknowledged(v), WithVerdict(l, v))
  {
    hide ClaimFormed, ClaimKey, Inserted, KeyStored, StoredUnder, WithVerdict;
  }

  lemma TokenInserts()
    requires ClaimKey(SHORT, TOKEN_CLAIM) == BY_TOKEN.key
    ensures Inserted(SHORT, SHOWN, TOKEN_CLAIM, "2026") == Some(BY_TOKEN)
    ensures !KeyStored(SHOWN, ClaimKey(SHORT, TOKEN_CLAIM)) && StoredUnder(SHORT, SHOWN, TOKEN_CLAIM.retryToken) == {}
  {
    hide ClaimKey, Prefix;
  }

  lemma KeyInserts()
    requires ClaimKey(SHORT, KEY_CLAIM) == BY_KEY.key
    ensures Inserted(SHORT, WithVerdict(SHOWN, BY_TOKEN), KEY_CLAIM, "2026") == Some(BY_KEY)
    ensures !KeyStored(WithVerdict(SHOWN, BY_TOKEN), ClaimKey(SHORT, KEY_CLAIM))
  {
    hide ClaimKey;
    assert BY_KEY.key[14] != BY_TOKEN.key[14];
  }

  lemma ClaimsFormed()
    ensures ClaimKey(SHORT, TOKEN_CLAIM) == BY_TOKEN.key && ClaimKey(SHORT, KEY_CLAIM) == BY_KEY.key
    ensures ClaimFormed(OPEN, SHORT, TOKEN_CLAIM) && ClaimFormed(OPEN, SHORT, KEY_CLAIM)
  {
    assert ClaimKey(SHORT, TOKEN_CLAIM) == BY_TOKEN.key;
    TightIsBounded(BY_TOKEN.key, 1024);
    TightIsBounded(BY_KEY.key, 1024);
    TightIsBounded("once", 256);
    TightIsBounded("r", 256);
    TightIsBounded("l", 256);
    TightIsBounded("x", 1024);
    assert Blank("");
    hide Bounded, Blank;
  }

  lemma TwoStored()
    ensures !SharedNever(SHORT, WithVerdict(WithVerdict(SHOWN, BY_TOKEN), BY_KEY).verdicts.Values)
  {
    var vs := WithVerdict(WithVerdict(SHOWN, BY_TOKEN), BY_KEY).verdicts;
    assert BY_KEY.key[14] != BY_TOKEN.key[14];
    assert vs[BY_KEY.judgmentID] == BY_KEY && vs[BY_TOKEN.judgmentID] == BY_TOKEN;
    assert BY_KEY in vs.Values && BY_TOKEN in vs.Values;
    assert Prefix(SHORT, "once") == "feedback-v1:t:";
  }

  datatype Invocation = Invocation(claim: Claim, now: string, reply: Reply<Verdict>)

  ghost function VerdictSteps(env: Env, h: Digests): (LegacyTables, Invocation, LegacyTables) -> bool {
    (l: LegacyTables, c: Invocation, m: LegacyTables) => VerdictStep(env, h, l, c.claim, c.now, c.reply, m)
  }

  /** Over any history each retry token stores at most one judgment. */
  lemma OnceForever(env: Env, h: Digests, asked: iset<Meant>, states: seq<LegacyTables>, calls: seq<Invocation>, n: nat)
    requires Unmixed(h, asked) && IsRun(VerdictSteps(env, h), states, calls) && n < |states|
    requires OncePerToken(h, asked, states[0].verdicts.Values)
    requires forall c :: c in calls ==> Asked(asked, c.claim) && ChosenApart(c.claim)
    ensures OncePerToken(h, asked, states[n].verdicts.Values)
  {
    var inv := (l: LegacyTables) => OncePerToken(h, asked, l.verdicts.Values);
    forall i | 0 <= i < |calls| && inv(states[i]) && VerdictSteps(env, h)(states[i], calls[i], states[i + 1])
      ensures inv(states[i + 1])
    {
      var c := calls[i];
      StepKeepsOnce(env, h, asked, states[i], c.claim, c.now, c.reply, states[i + 1]);
    }
    Always(VerdictSteps(env, h), inv, states, calls, n);
  }

  /** The token with any other meaning is rejected. */
  lemma OtherMeaningRejected(env: Env, h: Digests, l: LegacyTables, q: Claim, now: string, reply: Reply<Verdict>,
                             m: LegacyTables, stored: Verdict, first: Meant)
    requires Unmixed(h, iset{first, MeaningOf(q)}) && SharedNever(h, l.verdicts.Values)
    requires stored in l.verdicts.Values && stored.key == MeantKey(h, first)
    requires q.retryToken == first.token && first.token != "" && MeaningOf(q) != first
    requires VerdictStep(env, h, l, q, now, reply, m)
    ensures reply.Refused? && m == l
  {
    MeantKeyNames(h, iset{first, MeaningOf(q)}, first, MeaningOf(q));
    assert stored in StoredUnder(h, l, q.retryToken);
  }

  /** The token with the same meaning finds its judgment, whose return ApplyVerdict promises. */
  lemma SameMeaningRepeats(env: Env, h: Digests, asked: iset<Meant>, l: LegacyTables, q: Claim, stored: Verdict)
    requires NoColon(h) && MeaningOf(q) in asked && OncePerToken(h, asked, l.verdicts.Values)
    requires ClaimFormed(env, h, q) && q.retryToken != ""
    requires stored in l.verdicts.Values && stored.key == ClaimKey(h, q)
    ensures Repeats(env, h, l, q, stored)
  {
    PrefixOfMeant(h, q.retryToken, MeaningOf(q));
    assert Truthful(h, asked, stored) && Means(stored, MeaningOf(q));
  }

  // ---------------------------------------------------------------- relevance

  const VERDICTS: Reading<Verdict> := Reading(VerdictKey, ReversalTarget, VerdictEffect, Cancels)

  lemma FairVerdicts()
    ensures Fair(VERDICTS)
  {
  }

  /** Originals that no reversal targets, whoever spoke. */
  ghost function Unreversed(vs: set<Verdict>): set<Verdict> {
    Ledger.Standing(vs, VERDICTS)
  }

  /** A reversal of an original, by anyone. */
  predicate Cancels(r: Verdict, o: Verdict) {
    o.judgmentID == r.reversesID && o.reversesID == "" && r.effect == -o.effect && r.lensID == o.lensID &&
      r.recordID == o.recordID
  }

  lemma EveryText(env: Env, h: Digests, l: LegacyTables, v: Verdict)
    requires LegacyValid(env, h.stableID, l) && v in l.verdicts.Values
    ensures VerdictTextOK(env, v)
  {
    hide LegacyLensOK, VerdictTextOK, LegacyEffect;
    var k :| k in l.verdicts && l.verdicts[k] == v;
    assert VerdictFine(env, h.stableID, l.verdicts[k]);
  }

  lemma IdentityNamed(env: Env, v: Verdict)
    requires VerdictTextOK(env, v)
    ensures v.judgmentID != ""
  {
    VerdictTexts(env, v);
    hide VerdictTextOK;
    assert Trim("") == "";
  }

  lemma ValidIsCoupled(env: Env, h: Digests, l: LegacyTables)
    requires LegacyValid(env, h.stableID, l)
    ensures Coupled(l.verdicts.Values, VERDICTS)
  {
    forall v | v in l.verdicts.Values ensures v.judgmentID != "" {
      EveryText(env, h, l, v);
      IdentityNamed(env, v);
    }
    hide LegacyLensOK, VerdictTextOK;
    forall r | r in l.verdicts.Values && r.reversesID != ""
      ensures exists o :: o in l.verdicts.Values && Cancels(r, o)
    {
      var k :| k in l.verdicts && l.verdicts[k] == r;
      assert Cancels(r, l.verdicts[r.reversesID]);
    }
  }

  /** What Relevance adds up for a lens and a record is the feedback there that
      nobody reversed. */
  lemma LegacyCountedIsUnreversed(l: LegacyTables, lens: string, record: string)
    requires Coupled(l.verdicts.Values, VERDICTS)
    ensures LegacyTotal(LegacyCounted(l, lens, record)) ==
            LegacyTotal(OfLens(Unreversed(l.verdicts.Values), lens, record))
  {
    var seen := (v: Verdict) => v.lensID == lens && v.recordID == record;
    FairVerdicts();
    PartIsStanding(l.verdicts.Values, VERDICTS, seen);
    assert Part(l.verdicts.Values, seen) == LegacyCounted(l, lens, record);
    assert Part(Unreversed(l.verdicts.Values), seen) == OfLens(Unreversed(l.verdicts.Values), lens, record);
  }

  ghost function OfLens(vs: set<Verdict>, lens: string, record: string): set<Verdict> {
    set v | v in vs && v.lensID == lens && v.recordID == record
  }

  /** The grouped query of Relevance. */
  method SumOfLens(vs: set<Verdict>, lens: string, allowed: set<string>) returns (sums: map<string, int>)
    ensures sums.Keys == set v | v in vs && v.lensID == lens && v.recordID in allowed :: v.recordID
    ensures forall record :: record in sums ==> sums[record] == LegacyTotal(OfLens(vs, lens, record))
  {
    var seen := (v: Verdict) => v.lensID == lens && v.recordID in allowed;
    var record := (v: Verdict) => v.recordID;
    sums := SumByRecord(vs, VerdictEffect, seen, record);
    forall k | k in sums ensures sums[k] == LegacyTotal(OfLens(vs, lens, k)) {
      assert Of(vs, seen, record, k) == OfLens(vs, lens, k);
    }
  }

  /** Relevance: a tenth of the unreversed feedback on a record, within 0.3. */
  method Relevance(env: Env, h: Digests, l: LegacyTables, lens: string, records: seq<string>)
    returns (r: Option<map<string, real>>)
    requires LegacyValid(env, h.stableID, l)
    ensures records == [] || Blank(lens) ==> r == Some(map[])
    ensures records != [] && !Blank(lens) ==> (r.Some? <==> |records| <= 100000)
    ensures r.Some? && records != [] && !Blank(lens) ==> forall record :: record in r.value <==>
              record in records && LegacyCounted(l, lens, record) != {}
    ensures r.Some? ==> forall record :: record in r.value ==>
              && -0.3 <= r.value[record] <= 0.3
              && r.value[record] == Scaled(LegacyTotal(OfLens(Unreversed(l.verdicts.Values), lens, record)))
  {
    if records == [] || Blank(lens) {
      return Some(map[]);
    }
    if |records| > 100000 {
      return None;
    }
    var allowed := set x | x in records;
    var vs := l.verdicts.Values;
    var sums := SumOfLens(vs, lens, allowed);
    ValidIsCoupled(env, h, l);
    hide LegacyValid, Coupled, Scaled, Unreversed, LegacyTotal, Blank;
    r := Some(map record | record in sums :: Scaled(sums[record]));
    forall record | record in sums ensures sums[record] == LegacyTotal(OfLens(Unreversed(vs), lens, record)) {
      LegacyCountedIsUnreversed(l, lens, record);
      assert LegacyCounted(l, lens, record) == OfLens(vs, lens, record);
    }
    forall record ensures record in r.value <==> record in records && LegacyCounted(l, lens, record) != {} {
      if record in sums {
        var v :| v in vs && v.lensID == lens && v.recordID in allowed && v.recordID == record;
        assert v in LegacyCounted(l, lens, record);
      }
      if record in records && LegacyCounted(l, lens, record) != {} {
        var v :| v in LegacyCounted(l, lens, record);
        assert v.recordID in sums;
      }
    }
  }
}
