/** A store rebuilt from its sidecar: the same rows, so the same snapshot and the
    same relevance, but no source bindings, so nothing can be hydrated. */
module RoundTrip {
  import opened Text
  import opened ScopedModel
  import opened ScopedRecovery
  import opened ScopedStore
  import opened Feedback
  import opened LegacyModel
  import opened LegacyProjection
  import opened LegacyFeedback

  /** Restoring the snapshot of any admitted tables gives the tables again, short
      of the bindings a snapshot does not carry; building gives the snapshot again. */
  method RestoreAndRebuild(env: Env, s: Snapshot, ghost t: Tables) returns (u: Tables, again: Snapshot)
    requires Admitted(env, t) && s == Build(t)
    ensures u == t.(sources := map[]) && again == s
  {
    BuildRows(t);
    BuiltParents(t);
    assert Keyed(t) && Valid(env, Build(t));
    hide *;
    var ok;
    ok, u := RestoreSnapshot(env, s);
    var built := BuildSnapshot(env, u);
    again := built.value;
    BuildInjective(u, t);
  }

  /** The store a recovery leaves in place of one whose last mutation was acknowledged. */
  method Recover(store: Store) returns (again: Store)
    requires Admitted(store.env, store.tables) && store.sidecar == Some(Build(store.tables))
    ensures fresh(again) && again.env == store.env && again.hashes == store.hashes
    ensures again.tables == store.tables.(sources := map[]) && again.sidecar == store.sidecar
    ensures Admitted(again.env, again.tables) && again.sidecar == Some(Build(again.tables))
    ensures forall c: Context, record :: Total(Counted(again.tables.judgments.Values, c, record)) ==
                                         Total(Counted(store.tables.judgments.Values, c, record))
  {
    var u, s := RestoreAndRebuild(store.env, store.sidecar.value, store.tables);
    SourcesUnseen(store.tables, map[]);
    again := new Store(store.env, store.hashes, u, Some(s));
  }

  /** After a recovery relevance answers as before, and hydration is refused. */
  method AskBoth(store: Store, c: Context, records: seq<string>, run: string, record: string)
    returns (before: Option<map<string, real>>, after: Option<map<string, real>>, hydrated: Option<(string, Source)>)
    requires Admitted(store.env, store.tables) && store.sidecar == Some(Build(store.tables))
    ensures before == after && hydrated.None?
  {
    hide *;
    var again := Recover(store);
    ResolvesAlike(store.tables, Trimmed(c));
    AdmittedKeyed(again.env, again.tables);
    before, after := Compare(store, again, c, records);
    hydrated := again.RequireCandidate(run, c, record);
  }

  /** Stores with the same judgments and the same context answer alike. */
  method Compare(a: Store, b: Store, c: Context, records: seq<string>)
    returns (before: Option<map<string, real>>, after: Option<map<string, real>>)
    requires Admitted(a.env, a.tables) && Admitted(b.env, b.tables) && a.tables.judgments == b.tables.judgments
    requires Resolves(a.tables, Trimmed(c)) <==> Resolves(b.tables, Trimmed(c))
    ensures before == after
  {
    hide *;
    before := a.Relevance(c, records);
    after := b.Relevance(c, records);
    if before.Some? && after.Some? && records != [] {
      forall record ensures record in before.value <==> record in after.value {
      }
      assert before.value == after.value;
    }
  }

  lemma ResolvesAlike(t: Tables, c: Context)
    ensures Resolves(t.(sources := map[]), c) <==> Resolves(t, c)
  {
  }

  // ---------------------------------------------------------- the unscoped half

  /** What a legacy snapshot keeps of the tables it was built from. */
  function Kept(l: LegacyTables): LegacyTables {
    l.(runs := map[], candidates := map[])
  }

  /** Restoring the snapshot of valid unscoped tables gives their lenses and
      judgments again, and building gives the snapshot again. */
  method RestoreAndRebuildLegacy(env: Env, id: string -> string, s: LegacySnapshot, ghost l: LegacyTables)
    returns (m: LegacyTables, again: LegacySnapshot)
    requires LegacyValid(env, id, l) && s == BuildLegacy(l)
    ensures m == Kept(l) && again == s && LegacyValid(env, id, m)
  {
    KeptKeyed(env, id, l);
    LegacyListed(l);
    SnapshotOKIff(env, id, l);
    hide *;
    var ok;
    ok, m := RestoreLegacy(env, id, s);
    RestoredKeyed(m);
    LegacyBuildInjective(m, l);
    RestoredIsKept(l, m);
    var built := BuildLegacySnapshot(env, id, m);
    again := built.value;
  }

  lemma KeptKeyed(env: Env, id: string -> string, l: LegacyTables)
    requires LegacyValid(env, id, l)
    ensures LegacyKeyed(l)
  {
  }

  lemma RestoredKeyed(m: LegacyTables)
    requires RestoredLegacy(m)
    ensures LegacyKeyed(m)
  {
  }

  lemma RestoredIsKept(l: LegacyTables, m: LegacyTables)
    requires RestoredLegacy(m) && m.lenses == l.lenses && m.verdicts == l.verdicts
    ensures m == Kept(l)
  {
  }

  /** After a recovery unscoped relevance answers as before, for every lens and
      every list of records, although no run came back. */
  method AskLegacyBoth(env: Env, h: Digests, s: LegacySnapshot, l: LegacyTables, lens: string, records: seq<string>)
    returns (before: Option<map<string, real>>, after: Option<map<string, real>>)
    requires LegacyValid(env, h.stableID, l) && s == BuildLegacy(l)
    ensures before == after
  {
    hide *;
    var m, again := RestoreAndRebuildLegacy(env, h.stableID, s, l);
    before := LegacyFeedback.Relevance(env, h, l, lens, records);
    after := LegacyFeedback.Relevance(env, h, m, lens, records);
    SameCounts(l, m, lens);
    if before.Some? && after.Some? && records != [] && !Blank(lens) {
      assert before.value == after.value;
    }
  }

  lemma SameCounts(l: LegacyTables, m: LegacyTables, lens: string)
    requires m == Kept(l)
    ensures m.verdicts == l.verdicts
    ensures forall record :: LegacyCounted(m, lens, record) == LegacyCounted(l, lens, record)
  {
  }
}
