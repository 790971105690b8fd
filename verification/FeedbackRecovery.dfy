/** Acknowledged feedback through a lost database: from the call that was answered,
    over whatever the store did next and any number of crashed recoveries, to the
    judgments and totals of the recovered store. */
module FeedbackRecovery {
  import opened ScopedModel
  import opened Feedback
  import opened ScopedStore
  import opened StoreHistory
  import opened Histories
  import opened LegacyModel
  import opened LegacyProjection
  import opened LegacyFeedback
  import opened ProjectConnections
  import opened RecoveryDisk
  import opened Recovery

  /** The recovered store holds the very judgments the scoped sidecar lists. */
  lemma RecoveredJudgments(env: Env, d: Disk, o: Origin, t: Tables)
    requires OriginOK(env, o) && Concluded(env, d, o) && ScopedCopy(o) == Some(Build(t)) && Keyed(t)
    ensures Main in d.home.files && d.home.files[Main].Intact?
    ensures d.home.files[Main].store.scoped.judgments == t.judgments
  {
    RecoveredListing(env, d, o);
    hide *;
    BuildInjective(d.home.files[Main].store.scoped, t);
  }

  lemma RecoveredListing(env: Env, d: Disk, o: Origin)
    requires OriginOK(env, o) && Concluded(env, d, o) && ScopedCopy(o).Some?
    ensures Main in d.home.files && d.home.files[Main].Intact?
    ensures var u := d.home.files[Main].store.scoped;
            Keyed(u) && Some(Build(u)) == ScopedCopy(o)
  {
    hide Build, Keyed, Valid, BuildLegacy, LegacyValid, RestoredLegacy, Listed, ParentsExist, KeyedTable;
  }

  /** What was acknowledged is in the recovered store, and every context is told the
      same sums there as in the state the sidecar lists. */
  method RecoverFeedback(machine: Machine, attempts: seq<Attempt>, base: string, now: string, ghost o: Origin,
                         ghost h: Hashes, ghost states: seq<State>, ghost calls: seq<Mutation>, ghost i: nat,
                         ghost n: nat)
    returns (r: Step, ghost k: nat)
    requires OriginOK(machine.env, o) && GoodProjector(machine.project) && UnderWay(machine.env, machine.disk, o)
    requires IsRun(Mutations(machine.env, h), states, calls) && i < n < |states|
    requires Admitted(machine.env, states[0].0) && states[0].1 == Some(Build(states[0].0))
    requires calls[i].ApplyJudgmentCall? && calls[i].judgmentReply.Acknowledged? && ScopedCopy(o) == states[n].1
    modifies machine
    ensures r.Completed? ==> Concluded(machine.env, machine.disk, o)
    ensures k < |states| && calls[i].judgmentReply.value in states[k].0.judgments.Values
    ensures Concluded(machine.env, machine.disk, o) ==>
              && Main in machine.disk.home.files && machine.disk.home.files[Main].Intact?
              && var judgments := machine.disk.home.files[Main].store.scoped.judgments.Values;
                 && calls[i].judgmentReply.value in judgments
                 && forall c: Context, record :: Total(Counted(judgments, c, record)) ==
                                                 Total(Counted(states[k].0.judgments.Values, c, record))
  {
    hide *;
    k := AcknowledgedFeedbackSurvives(machine.env, h, states, calls, i, n);
    AdmittedForever(machine.env, h, states, calls, k);
    AdmittedKeyed(machine.env, states[k].0);
    ghost var before;
    r, before := machine.RecoverAfterCrashes(attempts, base, now, o);
    EndedConcludes(machine, o);
    if Concluded(machine.env, machine.disk, o) {
      RecoveredJudgments(machine.env, machine.disk, o, states[k].0);
    }
  }

  /** The unscoped log comes back as its sidecar lists it. */
  lemma RecoveredVerdicts(env: Env, d: Disk, o: Origin, l: LegacyTables)
    requires OriginOK(env, o) && Concluded(env, d, o) && LegacyCopy(o) == Some(BuildLegacy(l)) && LegacyKeyed(l)
    ensures Main in d.home.files && d.home.files[Main].Intact?
    ensures d.home.files[Main].store.legacy.verdicts == l.verdicts
  {
    RecoveredLegacyListing(env, d, o);
    hide *;
    LegacyBuildInjective(d.home.files[Main].store.legacy, l);
  }

  lemma RecoveredLegacyListing(env: Env, d: Disk, o: Origin)
    requires OriginOK(env, o) && Concluded(env, d, o) && LegacyCopy(o).Some?
    ensures Main in d.home.files && d.home.files[Main].Intact?
    ensures var m := d.home.files[Main].store.legacy;
            LegacyKeyed(m) && Some(BuildLegacy(m)) == LegacyCopy(o)
  {
    hide Build, Keyed, Valid, BuildLegacy, LegacyValid, LegacyKeyed, Listed, ParentsExist, KeyedTable;
  }

  /** An unscoped judgment that was acknowledged, its sidecar written, is in the
      recovered store, where every lens and record has the same sum. */
  method RecoverVerdict(machine: Machine, attempts: seq<Attempt>, base: string, now: string, ghost o: Origin,
                        store: LegacyStore, claim: Claim, at: string, fault: Fault)
    returns (reply: Reply<Verdict>, r: Step)
    requires OriginOK(machine.env, o) && GoodProjector(machine.project) && UnderWay(machine.env, machine.disk, o)
    requires LegacyValid(store.env, store.hashes.stableID, store.tables)
    requires Plain(store.env, store.hashes, ClaimKey(store.hashes, TrimmedClaim(claim)), at)
    modifies machine, store
    ensures r.Completed? ==> Concluded(machine.env, machine.disk, o)
    ensures reply.Acknowledged? && LegacyCopy(o) == store.sidecar && Concluded(machine.env, machine.disk, o) ==>
              && Main in machine.disk.home.files && machine.disk.home.files[Main].Intact?
              && var l := machine.disk.home.files[Main].store.legacy;
                 && reply.value in l.verdicts.Values
                 && forall lens, record :: LegacyTotal(LegacyCounted(l, lens, record)) ==
                                           LegacyTotal(LegacyCounted(store.tables, lens, record))
  {
    hide *;
    reply := store.ApplyVerdict(claim, at, fault);
    ghost var before;
    r, before := machine.RecoverAfterCrashes(attempts, base, now, o);
    EndedConcludes(machine, o);
    if reply.Acknowledged? && LegacyCopy(o) == store.sidecar && Concluded(machine.env, machine.disk, o) {
      ValidIsKeyed(store.env, store.hashes.stableID, store.tables);
      RecoveredVerdicts(machine.env, machine.disk, o, store.tables);
      SameVerdicts(machine.disk.home.files[Main].store.legacy, store.tables);
      VerdictStored(store.env, store.hashes, old(store.tables), TrimmedClaim(claim), at, reply, store.tables);
    }
  }

  lemma SameVerdicts(l: LegacyTables, m: LegacyTables)
    requires l.verdicts == m.verdicts
    ensures forall lens, record :: LegacyCounted(l, lens, record) == LegacyCounted(m, lens, record)
  {
  }

  lemma VerdictStored(env: Env, h: Digests, l: LegacyTables, q: Claim, now: string, reply: Reply<Verdict>,
                      m: LegacyTables)
    requires VerdictStep(env, h, l, q, now, reply, m) && reply.Acknowledged?
    ensures reply.value in m.verdicts.Values
  {
    hide ClaimFormed, ClaimKey, Inserted, KeyStored, StoredUnder;
    if m != l {
      assert m.verdicts[reply.value.judgmentID] == reply.value;
    }
  }

  lemma ValidIsKeyed(env: Env, id: string -> string, l: LegacyTables)
    requires LegacyValid(env, id, l)
    ensures LegacyKeyed(l)
  {
    hide LegacyKeyed, VerdictsPaired, LegacyLensOK, VerdictFine;
  }
}
