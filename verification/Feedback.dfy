/** What the judgment log means: totals over rows in no particular order, the
    pairing of reversals with originals, and retry-token identities. */
module Feedback {
  import opened Text
  import opened Ordering
  import opened ScopedModel
  import opened Ledger

  // ------------------------------------------------------------------ totals

  function EffectIn(j: Judgment): int { j.effect }

  const JUDGMENTS: Reading<Judgment> := Reading(JudgmentKey, Target, EffectIn, Undoes)

  lemma FairJudgments()
    ensures Fair(JUDGMENTS)
  {
  }

  /** SUM(effect) over a set of rows. */
  ghost function Total(js: set<Judgment>): int {
    Sum(js, EffectIn)
  }

  /** The rows ScopedRelevance sums: the owner's and this agent's, in one lens. */
  predicate Counts(j: Judgment, c: Context) {
    && j.scopeID == c.scopeID && j.lensID == c.lensID
    && ((j.actor.Owner? && j.agentID == "") || (j.actor.Agent? && j.agentID == c.agentID))
  }

  datatype Context = Context(scopeID: string, lensID: string, agentID: string)

  ghost function Counted(js: set<Judgment>, c: Context, record: string): set<Judgment> {
    set j | j in js && Counts(j, c) && j.recordID == record
  }

  /** Originals that no reversal targets. */
  ghost function Standing(js: set<Judgment>): set<Judgment> {
    Ledger.Standing(js, JUDGMENTS)
  }

  /** Distinct identities, and every reversal undoes one original, once. */
  ghost predicate Paired(js: set<Judgment>) {
    Coupled(js, JUDGMENTS)
  }

  lemma ValidIsPaired(env: Env, runs: seq<Run>, js: seq<Judgment>)
    requires JudgmentsValid(env, runs, js)
    ensures Paired(Rows(js))
  {
    forall j | j in js ensures j.judgmentID != "" {
      var i :| 0 <= i < |js| && js[i] == j;
      assert JudgmentOK(env, runs, js[i]);
    }
  }

  /** Over any valid log, the sum for one record, lens and agent is the sum over
      the originals by the owner or that agent that nobody reversed. */
  lemma CountedIsStanding(js: set<Judgment>, c: Context, record: string)
    requires Paired(js)
    ensures Total(Counted(js, c, record)) == Total(Counted(Standing(js), c, record))
  {
    var seen := (j: Judgment) => Counts(j, c) && j.recordID == record;
    FairJudgments();
    PartIsStanding(js, JUDGMENTS, seen);
    assert Part(js, seen) == Counted(js, c, record);
    assert Part(Standing(js), seen) == Counted(Standing(js), c, record);
  }

  /** Feedback is isolated: logs that agree on the rows one context counts give
      that context the same sums, whatever else they hold. */
  lemma IsolatedByContext(js: set<Judgment>, more: set<Judgment>, c: Context, record: string)
    requires forall j :: j in more ==>
               j.scopeID != c.scopeID || j.lensID != c.lensID || (j.actor.Agent? && j.agentID != c.agentID)
    ensures Total(Counted(js + more, c, record)) == Total(Counted(js, c, record))
  {
    assert Counted(js + more, c, record) == Counted(js, c, record);
  }

  function Clamp(value: real, low: real, high: real): (r: real)
    requires low <= high
    ensures low <= r <= high
    ensures low <= value <= high ==> r == value
  {
    if value < low then low else if value > high then high else value
  }

  /** Relevance of a sum of quarter effects: a tenth of the sum, within 0.3. */
  function Scaled(quarters: int): (r: real)
    ensures -0.3 <= r <= 0.3
    ensures -12 <= quarters <= 12 ==> r * 40.0 == quarters as real
  {
    Clamp(quarters as real / 4.0 * 0.1, -0.3, 0.3)
  }

  /** The grouped query of ScopedRelevance. */
  method SumCounted(js: set<Judgment>, c: Context, allowed: set<string>) returns (sums: map<string, int>)
    ensures sums.Keys == set j | j in js && Counts(j, c) && j.recordID in allowed :: j.recordID
    ensures forall record :: record in sums ==> sums[record] == Total(Counted(js, c, record))
  {
    var seen := (j: Judgment) => Counts(j, c) && j.recordID in allowed;
    var record := (j: Judgment) => j.recordID;
    sums := SumByRecord(js, EffectIn, seen, record);
    forall k | k in sums ensures sums[k] == Total(Counted(js, c, k)) {
      assert Of(js, seen, record, k) == Counted(js, c, k);
    }
  }

  // ------------------------------------------------------------ retry tokens

  /** Everything a retried agent judgment must repeat to be the same intent. */
  datatype Intent = Intent(runID: string, scopeID: string, lensID: string, agentID: string,
                           recordID: string, actor: Actor, disposition: Disposition,
                           reason: string, token: string)

  /** Hash functions, named by use. */
  datatype Hashes = Hashes(stableID: string -> string, token: string -> string, event: Intent -> string)

  /** Among the intents asked for, no two tokens and no two intents share a hash; a
      token's hash is hexadecimal, so it holds no colon. */
  ghost predicate NoCollisions(h: Hashes, asked: iset<Intent>) {
    && (forall a, b :: a in asked && b in asked && h.token(a.token) == h.token(b.token) ==> a.token == b.token)
    && (forall a, b :: a in asked && b in asked && h.event(a) == h.event(b) ==> a == b)
    && ColonFree(h)
  }

  ghost predicate ColonFree(h: Hashes) {
    forall token :: ':' !in h.token(token)
  }

  const RETRY_PREFIX := "scoped-feedback-v2:"

  function TokenPrefix(h: Hashes, token: string): string {
    RETRY_PREFIX + h.token(token) + ":"
  }

  function RetryKey(h: Hashes, intent: Intent): string {
    TokenPrefix(h, intent.token) + h.event(intent)
  }

  /** A token's prefix matches a derived key exactly when it is that key's prefix. */
  lemma PrefixOfKey(h: Hashes, token: string, intent: Intent)
    requires ColonFree(h)
    ensures TokenPrefix(h, token) <= RetryKey(h, intent) <==> h.token(token) == h.token(intent.token)
  {
    PrefixBeforeMark(':', RETRY_PREFIX, h.token(token), h.token(intent.token), h.event(intent));
  }

  /** Among the intents asked for, a token's prefix matches exactly that token's keys,
      and two derived keys are equal exactly when the intents are. */
  lemma RetryKeyNamesIntent(h: Hashes, asked: iset<Intent>, a: Intent, b: Intent)
    requires NoCollisions(h, asked) && a in asked && b in asked
    ensures TokenPrefix(h, b.token) <= RetryKey(h, a) <==> a.token == b.token
    ensures RetryKey(h, a) == RetryKey(h, b) <==> a == b
  {
    PrefixOfKey(h, b.token, a);
    if RetryKey(h, a) == RetryKey(h, b) {
      PrefixOfKey(h, b.token, b);
      var n := |TokenPrefix(h, b.token)|;
      assert RetryKey(h, a)[n..] == h.event(a) && RetryKey(h, b)[n..] == h.event(b);
    }
  }

  function ActorText(a: Actor): string {
    match a
    case Owner => "owner"
    case Agent => "agent"
    case OtherActor(text) => "other" + text
  }

  function DispositionText(d: Disposition): string {
    match d
    case Used => "used"
    case Dismissed => "dismissed"
    case Reversed => "reversed"
    case OtherDisposition(text) => "other" + text
  }

  lemma TextsApart(a: Actor, b: Actor, c: Disposition, d: Disposition)
    ensures ActorText(a) == ActorText(b) ==> a == b
    ensures DispositionText(c) == DispositionText(d) ==> c == d
  {
    if a.OtherActor? {
      assert ActorText(a)[1] == 't' && ActorText(a)[5..] == a.text;
    }
    if b.OtherActor? {
      assert ActorText(b)[1] == 't' && ActorText(b)[5..] == b.text;
    }
    if c.OtherDisposition? {
      assert DispositionText(c)[0] == 'o' && DispositionText(c)[5..] == c.text;
    }
    if d.OtherDisposition? {
      assert DispositionText(d)[0] == 'o' && DispositionText(d)[5..] == d.text;
    }
  }

  /** Hashes that write every field out. */
  const WRITTEN_OUT: Hashes := Hashes(Escaped, Escaped, IntentText)

  function IntentFields(i: Intent): (fields: seq<string>)
    ensures |fields| == 9
  {
    [i.runID, i.scopeID, i.lensID, i.agentID, i.recordID, ActorText(i.actor), DispositionText(i.disposition), i.reason,
     i.token]
  }

  function IntentText(i: Intent): string {
    Line(IntentFields(i))
  }

  /** There are hashes without collisions, whatever is asked for. */
  lemma CollisionFreeHashes(asked: iset<Intent>)
    ensures NoCollisions(WRITTEN_OUT, asked)
  {
    hide Escaped, IntentText;
    forall a, b | a in asked && b in asked && Escaped(a.token) == Escaped(b.token) ensures a.token == b.token {
      EscapedApart(a.token, b.token);
    }
    forall a, b | a in asked && b in asked && IntentText(a) == IntentText(b) ensures a == b {
      TextNamesIntent(a, b);
    }
  }

  lemma TextNamesIntent(a: Intent, b: Intent)
    requires IntentText(a) == IntentText(b)
    ensures a == b
  {
    hide Line, IntentFields;
    assert |IntentFields(a)| == |IntentFields(b)|;
    LineApart(IntentFields(a), IntentFields(b));
    FieldsApart(a, b);
  }

  lemma FieldsApart(a: Intent, b: Intent)
    requires IntentFields(a) == IntentFields(b)
    ensures a == b
  {
    var x, y := IntentFields(a), IntentFields(b);
    TextsApart(a.actor, b.actor, a.disposition, b.disposition);
    hide ActorText, DispositionText;
    assert x[0] == y[0] && x[1] == y[1] && x[2] == y[2] && x[3] == y[3] && x[4] == y[4];
    assert x[5] == y[5] && x[6] == y[6] && x[7] == y[7] && x[8] == y[8];
  }

  /** Each retry token has at most one judgment stored under its prefix. */
  ghost predicate TokensOnce(h: Hashes, js: set<Judgment>) {
    forall token, a, b :: a in js && b in js && TokenPrefix(h, token) <= a.key && TokenPrefix(h, token) <= b.key ==>
      a == b
  }
}
