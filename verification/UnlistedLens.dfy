/** How an acknowledged connection can strand recovery: its lens was committed but
    not written to the scoped sidecar, and binding does not rewrite that sidecar. */
module UnlistedLens {
  import opened Text
  import opened Ordering
  import opened ScopedModel
  import opened ScopedRecovery
  import opened Preflight
  import opened Feedback
  import opened ScopedStore
  import opened LegacyModel
  import LegacyProjection
  import opened ProjectConnections
  import opened RecoveryDisk
  import opened Recovery

  /** A scoped sidecar that leaves out some connection's lens or agent. */
  ghost predicate Unlisted(o: Origin) {
    o.scoped.Some? && !ParentsExist(o.scoped.value, Listed(OriginProjects(o)))
  }

  /** Nothing such an origin is recovered to can be in place. */
  lemma UnlistedNotInstalled(env: Env, d: Disk, o: Origin)
    requires OriginOK(env, o) && Unlisted(o)
    ensures !Installed(env, d, o)
  {
    hide Valid, Build, Listed, ParentsExist, Keyed, KeyedTable, RestoredLegacy, LegacyValid;
    if Installed(env, d, o) {
      var s := d.home.files[Main].store.scoped;
      BuildInjective(s, o.scoped.value);
      SameParents(s, o.scoped.value, Listed(OriginProjects(o)));
    }
  }

  lemma SameParents(t: Tables, u: Tables, s: seq<Connection>)
    requires t.(sources := u.sources) == u
    ensures ParentsExist(t, s) <==> ParentsExist(u, s)
  {
  }

  lemma BeforePromotion(env: Env, d: Disk, o: Origin)
    requires UnderWay(env, d, o) && !Installed(env, d, o) && o.scoped.Some?
    ensures d.home.scoped == ScopedCopy(o) && !Concluded(env, d, o)
    ensures d.marker.Some? ==> !Promoted(env, d, o, d.marker.value)
  {
    hide Installed, Build, BuildLegacy, FilesKept, Quarantined, Corrupt, Listed;
  }

  /** From no state of such a recovery can any run finish. */
  lemma UnlistedNeverFinishes(env: Env, f: Projector, d: Disk, o: Origin, base: string, now: string)
    requires OriginOK(env, o) && UnderWay(env, d, o) && Unlisted(o)
    ensures !CanFinish(env, f, d, o, base, now) && !Concluded(env, d, o)
  {
    UnlistedNotInstalled(env, d, o);
    RestorableFromSidecar(env, f, o, now);
    hide Installed, Restorable, Listed, Build, OriginOK, ParentsExist, UnderWay, Concluded, Promoted;
    BeforePromotion(env, d, o);
  }

  /** However many runs are tried, and whatever they are interrupted by, the next
      one is refused. */
  method KeepsRefusing(machine: Machine, attempts: seq<Attempt>, base: string, now: string, ghost o: Origin)
    returns (r: Step)
    requires OriginOK(machine.env, o) && GoodProjector(machine.project) && UnderWay(machine.env, machine.disk, o) &&
             Unlisted(o)
    modifies machine
    ensures r.Refused? && !Concluded(machine.env, machine.disk, o)
    ensures MovesForward(old(machine.disk).quarantine, machine.disk.quarantine)
  {
    hide *;
    ghost var before;
    r, before := machine.RecoverAfterCrashes(attempts, base, now, o);
    UnlistedNeverFinishes(machine.env, machine.project, before, o, base, now);
    EndedConcludes(machine, o);
  }

  /** The disk a crash leaves: a damaged database beside the sidecars as written. */
  function Crashed(legacy: LegacySnapshot, scoped: Option<Snapshot>, projects: seq<Connection>): Disk {
    Disk(Site(map[Main := Damaged("")], Some(legacy), scoped, Some(projects), true), NO_SITE, map[], None, None)
  }

  ghost function Acknowledged(l: LegacyTables, t: Tables, connections: Table): Origin {
    Origin(map[Main := Damaged("")], Some(l), Some(t.(sources := map[])), Some(connections))
  }

  lemma CrashedUntouched(env: Env, legacy: LegacySnapshot, scoped: Snapshot, projects: seq<Connection>, l: LegacyTables,
                         t: Tables, connections: Table)
    requires RestoredLegacy(l) && LegacyValid(env, env.legacyID, l) && legacy == BuildLegacy(l)
    requires Admitted(env, t) && scoped == Build(t) && KeyedTable(connections) && projects == Listed(connections)
    ensures var d, o := Crashed(legacy, Some(scoped), projects), Acknowledged(l, t, connections);
            OriginOK(env, o) && Untouched(d, o)
  {
    SourcesUnseen(t, map[]);
    hide Keyed, Build, Valid, Fits, Listed, BuildLegacy, RestoredLegacy, LegacyValid, KeyedTable;
  }

  lemma ListedRow(t: Table, digest: string) returns (i: nat)
    requires KeyedTable(t) && digest in t
    ensures i < |Listed(t)| && Listed(t)[i] == t[digest]
  {
    ConnectionOrder(t);
    ListingAscending(ConnectionLess, t.Values);
    assert t[digest] in Rows(Listed(t));
    i :| 0 <= i < |Listed(t)| && Listed(t)[i] == t[digest];
  }

  lemma BoundUnlisted(t: Tables, connections: Table, digest: string)
    requires KeyedTable(connections) && digest in connections
    requires (connections[digest].scopeID, connections[digest].lensID) !in t.lenses
    ensures !ParentsExist(t, Listed(connections))
  {
    var i := ListedRow(connections, digest);
    hide Listed;
  }

  function Asked(lens: Lens, now: string): Lens {
    Lens(Trim(lens.scopeID), Trim(lens.id), Trim(lens.name), Trim(lens.query), UNSET, "", now)
  }

  /** A lens nobody knew is put, its sidecar write fails, a connection to it is bound
      and acknowledged, and the process dies. If both calls were let through, the
      disk is one no recovery gets past. */
  method PutBindCrash(store: ScopedStore.Store, links: Connections, lens: Lens, agentID: string, digest: string,
                      now: string, legacy: LegacySnapshot, ghost l: LegacyTables)
    returns (reply: Reply<Lens>, answer: Answer, d: Disk, ghost o: Origin)
    requires Admitted(store.env, store.tables) && store.sidecar == Some(Build(store.tables)) && links.Valid()
    requires (Trim(lens.scopeID), Trim(lens.id)) !in store.tables.lenses
    requires RestoredLegacy(l) && LegacyValid(store.env, store.env.legacyID, l) && legacy == BuildLegacy(l)
    modifies store, links
    ensures LensPut(store.env, old(store.State()), Asked(lens, now), FailedBefore, reply, store.State())
    ensures var c := Trimmed(Context(lens.scopeID, lens.id, agentID));
            answer == BindAnswer(links.rules, old(links.table), old(links.pending), digest,
                                 if Resolves(store.tables, c) then Some(c) else None, now, true)
    ensures reply.Unwritten? && answer.Done? ==>
              OriginOK(store.env, o) && Untouched(d, o) && Unlisted(o) && answer.connection in OriginProjects(o).Values
  {
    AdmittedKeyed(store.env, store.tables);
    AskedTrimmed(lens, agentID, now);
    hide *;
    ghost var before, beforeState := store.tables, store.State();
    assert beforeState == (before, store.sidecar) by { StateIs(store); }
    reply := store.PutLens(lens.scopeID, lens.id, lens.name, lens.query, now, FailedBefore);
    var c := Trimmed(Context(lens.scopeID, lens.id, agentID));
    answer := links.BindConnection(digest, if Resolves(store.tables, c) then Some(c) else None, now, Clean);
    Mirrored(links);
    d := Crashed(legacy, store.sidecar, links.sidecar);
    o := Acknowledged(l, before, links.mirror);
    if reply.Unwritten? && answer.Done? {
      StateIs(store);
      PutUnwritten(store.env, beforeState, Asked(lens, now), reply, store.State());
      CrashUnlisted(store.env, legacy, store.sidecar, links.sidecar, l, before, links.mirror, digest);
      OriginConnections(l, before, links.mirror, digest);
    }
  }

  lemma AskedTrimmed(lens: Lens, agentID: string, now: string)
    ensures Asked(lens, now) ==
            Lens(Trim(lens.scopeID), Trim(lens.id), Trim(lens.name), Trim(lens.query), UNSET, "", now)
    ensures Trimmed(Context(lens.scopeID, lens.id, agentID)) ==
            Context(Trim(lens.scopeID), Trim(lens.id), Trim(agentID))
  {
  }

  lemma StateIs(store: ScopedStore.Store)
    ensures store.State() == (store.tables, store.sidecar)
  {
  }

  lemma Mirrored(links: Connections)
    requires links.Valid()
    ensures KeyedTable(links.mirror) && links.sidecar == Listed(links.mirror)
    ensures links.pending.None? ==> links.mirror == links.table
  {
    hide KeyedTable, Listed, Carries, Encodable;
  }

  lemma OriginConnections(l: LegacyTables, t: Tables, connections: Table, digest: string)
    requires digest in connections
    ensures connections[digest] in OriginProjects(Acknowledged(l, t, connections)).Values
  {
  }

  lemma PutUnwritten(env: Env, before: State, p: Lens, reply: Reply<Lens>, state: State)
    requires LensPut(env, before, p, FailedBefore, reply, state) && reply.Unwritten?
    ensures state.1 == before.1
  {
    hide LensAsked, Projects, Build;
  }

  lemma CrashUnlisted(env: Env, legacy: LegacySnapshot, scoped: Option<Snapshot>, projects: seq<Connection>,
                      l: LegacyTables, t: Tables, connections: Table, digest: string)
    requires RestoredLegacy(l) && LegacyValid(env, env.legacyID, l) && legacy == BuildLegacy(l)
    requires Admitted(env, t) && scoped == Some(Build(t)) && KeyedTable(connections) && projects == Listed(connections)
    requires digest in connections && (connections[digest].scopeID, connections[digest].lensID) !in t.lenses
    ensures var d, o := Crashed(legacy, scoped, projects), Acknowledged(l, t, connections);
            OriginOK(env, o) && Untouched(d, o) && Unlisted(o)
  {
    CrashedUntouched(env, legacy, scoped.value, projects, l, t, connections);
    BoundUnlisted(t.(sources := map[]), connections, digest);
    hide OriginOK, Untouched, ParentsExist, Listed, RestoredLegacy, LegacyValid, Admitted, Build, BuildLegacy,
         KeyedTable;
  }

  // ------------------------------------------------------------ one such history

  const ROOT := LegacyProjection.ROOT

  /** A new database: the reserved scope and the reserved agent. */
  function NewTables(): Tables {
    LegacyProjection.Seeded(EMPTY, "a")
  }

  const HELPER := AgentActor("a", "a", Active, "a", "a")
  const LENS := Lens(ROOT, "a", "a", "a", Active, "a", "a")

  lemma Texts()
    ensures Bounded("a", 256) && Bounded("a", 1024) && Bounded("a", TEXT_LIMIT) && Trim("a") == "a"
    ensures Bounded(ROOT, 256) && Trim(ROOT) == ROOT && Bounded(LEGACY_AGENT, 256)
    ensures ScopeOK(OPEN, LegacyProjection.RootScope("a")) && ActorOK(OPEN, LegacyProjection.LegacyAgent("a"))
    ensures ActorOK(OPEN, HELPER) && LensOK(OPEN, LENS)
  {
    TightIsBounded("a", 256);
    TightIsBounded("a", 1024);
    TightIsBounded("a", TEXT_LIMIT);
    TightIsBounded(ROOT, 256);
    TightIsBounded("Owner root", 1024);
    TightIsBounded("Legacy owner-created lenses", TEXT_LIMIT);
    TightIsBounded(LEGACY_AGENT, 256);
    TightIsBounded("Legacy agent", 1024);
    hide Bounded, Trim;
  }

  lemma NewAdmitted()
    ensures Admitted(OPEN, NewTables())
  {
    Texts();
    hide ScopeOK, ActorOK, LensOK, Bounded, Trim;
    EntitiesAdmitted(NewTables());
  }

  lemma HelperAdmitted()
    ensures Admitted(OPEN, WithActor(NewTables(), HELPER))
  {
    Texts();
    hide ScopeOK, ActorOK, LensOK, Bounded, Trim;
    EntitiesAdmitted(WithActor(NewTables(), HELPER));
  }

  lemma LensAdmitted()
    ensures Admitted(OPEN, WithLens(WithActor(NewTables(), HELPER), LENS))
  {
    Texts();
    hide ScopeOK, ActorOK, LensOK, Bounded, Trim, Joined;
    EntitiesAdmitted(WithLens(WithActor(NewTables(), HELPER), LENS));
  }

  lemma EntitiesAdmitted(t: Tables)
    requires Keyed(t) && EntitiesValid(OPEN, t) && t.runs == map[] && t.candidates == map[] && t.judgments == map[]
    ensures Admitted(OPEN, t)
  {
    hide Keyed, EntitiesValid, Build, Valid;
    ValidIff(OPEN, t);
  }

  const RULES := Rules(s => false, s => true, s => 0)
  const DIGEST: string := seq(64, i => '0')

  lemma HelperPut(before: State, reply: Reply<AgentActor>, state: State)
    requires ActorPut(OPEN, before, "a", "a", "a", Clean, reply, state) &&
             before == (NewTables(), Some(Build(NewTables())))
    ensures state == (WithActor(NewTables(), HELPER), Some(Build(WithActor(NewTables(), HELPER))))
  {
    NewAdmitted();
    HelperAdmitted();
    Texts();
    hide Build, Valid, Fits, Keyed, Bounded, Trim;
    assert UpsertedActor(NewTables(), AgentActor("a", "a", UNSET, "", "a")) == HELPER;
  }

  lemma LensCommitted(before: State, reply: Reply<Lens>, state: State)
    requires before.0 == WithActor(NewTables(), HELPER)
    requires LensPut(OPEN, before, Asked(LENS, "a"), FailedBefore, reply, state)
    ensures reply.Unwritten? && state.0 == WithLens(before.0, LENS)
    ensures Resolves(state.0, Context(ROOT, "a", "a"))
  {
    HelperAdmitted();
    LensAdmitted();
    Texts();
    hide Build, Valid, Fits, Keyed, Bounded, Trim;
    assert Asked(LENS, "a") == Lens(ROOT, "a", "a", "a", UNSET, "", "a");
    assert UpsertedLens(before.0, Asked(LENS, "a")) == LENS;
  }

  lemma OneEncodable(c: Connection)
    requires FineConnection(RULES, c)
    ensures Encodable(RULES, Listed(map[c.digest := c]))
  {
    var t: Table := map[c.digest := c];
    ListedCount(t);
    ConnectionOrder(t);
    ListingAscending(ConnectionLess, t.Values);
    hide FineConnection, Listing;
    assert Listed(t)[0] in Rows(Listed(t));
  }

  lemma BindingFine()
    ensures HexDigest(DIGEST) && FineConnection(RULES, ProjectConnections.Bound(DIGEST, Context(ROOT, "a", "a"), "a"))
  {
    Texts();
    hide Bounded, Trim;
  }

  lemma BoundFine()
    ensures BindAnswer(RULES, map[], None, DIGEST, Some(Context(ROOT, "a", "a")), "a", true).Done?
  {
    BindingFine();
    OneEncodable(ProjectConnections.Bound(DIGEST, Context(ROOT, "a", "a"), "a"));
    hide HexDigest, FineConnection, Encodable, Listed;
    var t: Table := map[];
    assert t[DIGEST := ProjectConnections.Bound(DIGEST, Context(ROOT, "a", "a"), "a")] ==
           map[DIGEST := ProjectConnections.Bound(DIGEST, Context(ROOT, "a", "a"), "a")];
  }

  /** A new database; an agent is added and acknowledged; a lens is put and its
      sidecar write fails; a connection to it is bound and acknowledged; the
      process dies. */
  method LostOnce(h: Hashes) returns (d: Disk, ghost o: Origin)
    ensures OriginOK(OPEN, o) && Untouched(d, o) && Unlisted(o)
  {
    NewAdmitted();
    AdmittedKeyed(OPEN, NewTables());
    AdmittedValid(OPEN, NewTables());
    NothingEncodable();
    hide *;
    var snapshot := BuildSnapshot(OPEN, NewTables());
    var store := new ScopedStore.Store(OPEN, h, NewTables(), snapshot);
    AddHelper(store);
    var links := new Connections(RULES);
    d, o := LoseLens(store, links);
  }

  lemma NothingEncodable()
    ensures RULES.encodedSize([]) <= BYTE_LIMIT
  {
  }

  method LoseLens(store: ScopedStore.Store, links: Connections) returns (d: Disk, ghost o: Origin)
    requires store.env == OPEN && store.tables == WithActor(NewTables(), HELPER) &&
             store.sidecar == Some(Build(store.tables))
    requires links.Valid() && links.rules == RULES && links.table == map[] && links.pending.None?
    modifies store, links
    ensures OriginOK(OPEN, o) && Untouched(d, o) && Unlisted(o)
  {
    HelperAdmitted();
    BoundFine();
    NothingLegacy();
    NewLensUnknown();
    TrimmedContext();
    hide Build, BuildLegacy, Valid, Fits, Keyed, Bounded, Trim, Trimmed, NewTables, Listed, BindAnswer, LensPut,
         Untouched, OriginOK, Unlisted, Encodable, Asked, WithActor, WithLens, Admitted, Carries, KeyedTable,
         RestoredLegacy, LegacyValid, SameExcept, Resolves;
    var reply, answer;
    reply, answer, d, o := PutBindCrash(store, links, LENS, "a", DIGEST, "a", EMPTY_LEGACY, NO_LEGACY);
    LensCommitted(old(store.State()), reply, store.State());
  }

  lemma TrimmedContext()
    ensures Trimmed(Context(LENS.scopeID, LENS.id, "a")) == Context(ROOT, "a", "a")
  {
    Texts();
  }

  method AddHelper(store: ScopedStore.Store)
    requires store.env == OPEN && store.tables == NewTables() && store.sidecar == Some(Build(NewTables()))
    modifies store
    ensures store.tables == WithActor(NewTables(), HELPER) && store.sidecar == Some(Build(store.tables))
  {
    NewAdmitted();
    AdmittedKeyed(OPEN, NewTables());
    Texts();
    hide Build, Valid, Fits, Keyed, Bounded, Trim, NewTables, ActorPut;
    var added := store.PutActor("a", "a", "a", Clean);
    HelperPut(old(store.State()), added, store.State());
  }

  lemma AdmittedValid(env: Env, t: Tables)
    requires Admitted(env, t)
    ensures Valid(env, Build(t))
  {
    hide Valid, Build;
  }

  lemma NewLensUnknown()
    ensures (Trim(LENS.scopeID), Trim(LENS.id)) !in WithActor(NewTables(), HELPER).lenses
  {
  }

  lemma NothingLegacy()
    ensures RestoredLegacy(NO_LEGACY) && LegacyValid(OPEN, OPEN.legacyID, NO_LEGACY) &&
            EMPTY_LEGACY == BuildLegacy(NO_LEGACY)
  {
    NothingBuilt();
    hide BuildLegacy;
  }
}
