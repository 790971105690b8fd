/** What recovery sees on disk, and the phases a recovery passes through. */
module RecoveryDisk {
  import opened ScopedModel
  import opened LegacyModel
  import opened ProjectConnections
  import opened LegacyProjection

  datatype Suffix = Main | Wal | Shm

  /** Database rows. The two schema markers say whether the scoped tables and the
      connection table were ever initialised. */
  datatype Store = Store(legacy: LegacyTables, scoped: Tables, scopedMarked: bool,
                         connections: Table, connectionsMarked: bool)

  const NEW_STORE: Store := Store(NO_LEGACY, EMPTY, false, map[], false)

  datatype File = Damaged(bytes: string) | Intact(store: Store) | Journal(bytes: string)

  /** A database path: the files beside it and the sidecars named after it. */
  datatype Site = Site(files: map<Suffix, File>, legacy: Option<LegacySnapshot>, scoped: Option<Snapshot>,
                       projects: Option<seq<Connection>>, adopted: bool)

  const NO_SITE: Site := Site(map[], None, None, None, false)

  /** The binding carries the fingerprint of the connection snapshot; hashes do
      not collide, so it stands for the snapshot itself. */
  datatype Binding = Binding(base: string, adopted: bool, projects: Option<seq<Connection>>)
  datatype Marker = Marker(base: string, snapshotPresent: bool)

  datatype Disk = Disk(home: Site, stage: Site, quarantine: map<(string, Suffix), File>,
                       binding: Option<Binding>, marker: Option<Marker>)

  /** What had been acknowledged, and the files there were, when recovery first started. */
  datatype Origin = Origin(files: map<Suffix, File>, legacy: Option<LegacyTables>, scoped: Option<Tables>,
                           projects: Option<Table>)

  ghost predicate OriginOK(env: Env, o: Origin) {
    && Main in o.files
    && (o.legacy.Some? ==> RestoredLegacy(o.legacy.value) && LegacyValid(env, env.legacyID, o.legacy.value))
    && (o.scoped.Some? ==>
          Keyed(o.scoped.value) && o.scoped.value.sources == map[] && Valid(env, Build(o.scoped.value)))
    && (o.projects.Some? ==> KeyedTable(o.projects.value))
  }

  ghost function LegacyCopy(o: Origin): Option<LegacySnapshot> {
    if o.legacy.Some? then Some(BuildLegacy(o.legacy.value)) else None
  }

  ghost function ScopedCopy(o: Origin): Option<Snapshot> {
    if o.scoped.Some? then Some(Build(o.scoped.value)) else None
  }

  ghost function ProjectsCopy(o: Origin): Option<seq<Connection>> {
    if o.projects.Some? then Some(Listed(o.projects.value)) else None
  }

  function OriginLegacy(o: Origin): LegacyTables {
    if o.legacy.Some? then o.legacy.value else NO_LEGACY
  }

  function OriginProjects(o: Origin): Table {
    if o.projects.Some? then o.projects.value else map[]
  }

  /** openStore reports corruption: the check fails, or the connection table is
      initialised and is not what the sidecar acknowledges. */
  ghost predicate Corrupt(site: Site) {
    && Main in site.files
    && match site.files[Main]
       case Damaged(_) => true
       case Intact(s) => s.scopedMarked && s.connectionsMarked && KeyedTable(s.connections) &&
                        site.projects != Some(Listed(s.connections))
       case Journal(_) => true
  }

  // -------------------------------------------------- what a stage is built from

  /** projectLegacyState as a step of the environment: the tables it commits, or an error. */
  type Projector = (LegacyTables, Tables, string) -> Option<Tables>

  /** What recovery relies on: a first projection keeps keys unique and deletes no
      row, and with no legacy rows it only seeds the reserved ones. */
  ghost predicate GoodProjector(f: Projector) {
    forall l, t, now :: RestoredLegacy(l) && Unprojected(t) && f(l, t, now).Some? ==>
      var u := f(l, t, now).value;
      && Keyed(u) && t.lenses.Keys <= u.lenses.Keys && t.actors.Keys <= u.actors.Keys
      && (l == NO_LEGACY ==> Unprojected(u))
  }

  /** Every connection's lens and agent have a row: the foreign keys of the table. */
  predicate ParentsExist(t: Tables, s: seq<Connection>) {
    forall i :: 0 <= i < |s| ==> (s[i].scopeID, s[i].lensID) in t.lenses && s[i].agentID in t.actors
  }

  /** The scoped tables a stage opens with: those of the sidecar, or none, projected. */
  ghost predicate StageOpens(f: Projector, scoped: Option<Snapshot>, now: string, t: Tables) {
    if scoped.Some? then Keyed(t) && Build(t) == scoped.value else f(NO_LEGACY, EMPTY, now) == Some(t)
  }

  /** The scoped tables it ends with once legacy state is back. */
  ghost predicate StageEnds(f: Projector, l: LegacyTables, scoped: Option<Snapshot>, now: string, t: Tables,
                            u: Tables) {
    if scoped.Some? then u == t else f(l, t, now) == Some(u)
  }

  /** What a stage can be built from: the connections' parents exist in the scoped
      state it opens with, and the scoped state it ends with is valid. */
  ghost predicate Restorable(env: Env, f: Projector, l: LegacyTables, scoped: Option<Snapshot>, connections: Table,
                             now: string) {
    exists t, u ::
      && StageOpens(f, scoped, now, t) && ParentsExist(t, Listed(connections))
      && StageEnds(f, l, scoped, now, t, u) && Valid(env, Build(u))
  }

  /** The recovered database: the acknowledged legacy state and connections, and
      valid scoped tables that hold every connection's parents. */
  ghost predicate Recovered(env: Env, s: Store, l: LegacyTables, scoped: Option<Snapshot>, connections: Table) {
    && s.scopedMarked && s.connectionsMarked
    && s.legacy == l && Keyed(s.scoped) && Valid(env, Build(s.scoped)) && ParentsExist(s.scoped, Listed(connections))
    && (scoped.Some? ==> Build(s.scoped) == scoped.value)
    && s.connections == connections
  }

  // ------------------------------------------------------------------ phases

  /** Nothing has started: the database is corrupt and the sidecars are whole. */
  ghost predicate Untouched(d: Disk, o: Origin) {
    && d.marker.None? && Corrupt(d.home)
    && d.home.files == o.files && d.home.legacy == LegacyCopy(o) && d.home.scoped == ScopedCopy(o)
    && d.home.projects == ProjectsCopy(o)
  }

  /** A release that kept no connections left no binding: resuming writes one. */
  ghost predicate Bound(d: Disk, o: Origin, m: Marker) {
    && d.marker == Some(m) && m.snapshotPresent == o.legacy.Some?
    && (d.binding == Some(Binding(m.base, o.projects.Some?, ProjectsCopy(o))) ||
        (d.binding.None? && o.projects.None? && d.home.projects.None? && !d.home.adopted))
  }

  /** verifyRecoveryBindingProjectSnapshot */
  predicate Verified(b: Binding, projects: Option<seq<Connection>>) {
    if b.adopted then projects.Some? && b.projects == projects else projects.None? || projects == Some([])
  }

  /** A sidecar is not what it was when recovery started. */
  ghost predicate Changed(d: Disk) {
    && d.marker.Some?
    && (d.marker.value.snapshotPresent != d.home.legacy.Some? || (d.binding.Some? && ProjectsReplaced(d)))
  }

  /** The connection sidecar is missing or lists other rows than the binding's; or it
      lists rows although the binding says that none were adopted. */
  ghost predicate ProjectsReplaced(d: Disk)
    requires d.binding.Some?
  {
    if d.binding.value.adopted then
      d.home.projects.None? || d.binding.value.projects.None? || d.binding.value.projects.value != d.home.projects.value
    else
      d.home.projects.Some? && |d.home.projects.value| > 0
  }

  /** Each original file is either still there or under its quarantine name. */
  ghost predicate FilesKept(d: Disk, o: Origin, m: Marker) {
    forall s ::
      if s in o.files then
        || (s in d.home.files && d.home.files[s] == o.files[s] && (m.base, s) !in d.quarantine)
        || (s !in d.home.files && (m.base, s) in d.quarantine && d.quarantine[(m.base, s)] == o.files[s])
      else
        s !in d.home.files && (m.base, s) !in d.quarantine
  }

  ghost predicate Quarantined(d: Disk, o: Origin, m: Marker) {
    forall s :: s in o.files ==> (m.base, s) in d.quarantine && d.quarantine[(m.base, s)] == o.files[s]
  }

  /** A scoped sidecar written ahead of promotion, where the origin had none. */
  ghost predicate Reconciled(env: Env, s: Option<Snapshot>, o: Origin) {
    && o.scoped.None? && s.Some?
    && exists u :: Keyed(u) && s.value == Build(u) && Valid(env, Build(u)) && ParentsExist(u, Listed(OriginProjects(o)))
  }

  /** Sidecars while the stage is being built: those of the origin, or where the
      origin had none, the reconciled ones. */
  ghost predicate SidecarsKept(env: Env, d: Disk, o: Origin) {
    && d.home.legacy == LegacyCopy(o)
    && (d.home.scoped == ScopedCopy(o) || Reconciled(env, d.home.scoped, o))
    && (d.home.projects == ProjectsCopy(o) || (o.projects.None? && d.home.projects == Some([])))
  }

  /** The corrupt database is being set aside, or is, and no other is in its place. */
  ghost predicate Moving(env: Env, d: Disk, o: Origin, m: Marker) {
    && Bound(d, o, m) && FilesKept(d, o, m) && SidecarsKept(env, d, o)
    && (Main in d.home.files ==>
          Corrupt(d.home) && d.home.scoped == ScopedCopy(o) && d.home.projects == ProjectsCopy(o))
  }

  ghost predicate Installed(env: Env, d: Disk, o: Origin) {
    && d.home.files.Keys == {Main} && d.home.files[Main].Intact?
    && var s := d.home.files[Main].store;
       && Recovered(env, s, OriginLegacy(o), ScopedCopy(o), OriginProjects(o))
       && d.home.scoped == Some(Build(s.scoped)) && d.home.projects == Some(Listed(s.connections))
  }

  /** The stage is in place; the binding and the marker are still there. */
  ghost predicate Promoted(env: Env, d: Disk, o: Origin, m: Marker) {
    Bound(d, o, m) && Quarantined(d, o, m) && d.home.legacy == LegacyCopy(o) && Installed(env, d, o)
  }

  /** Finalisation removed the binding and not yet the marker. */
  ghost predicate Window(env: Env, d: Disk, o: Origin, m: Marker) {
    && d.marker == Some(m) && d.binding.None? && m.snapshotPresent == o.legacy.Some?
    && Quarantined(d, o, m) && d.home.legacy == LegacyCopy(o) && Installed(env, d, o) && d.home.adopted
  }

  ghost predicate Finished(env: Env, d: Disk, o: Origin, m: Marker) {
    && d.marker.None? && d.binding.None? && Quarantined(d, o, m) && Installed(env, d, o)
    && (d.home.legacy == LegacyCopy(o) || d.home.legacy == Some(BuildLegacy(OriginLegacy(o))))
  }

  ghost predicate Concluded(env: Env, d: Disk, o: Origin) {
    exists m :: Finished(env, d, o, m)
  }

  /** The one place a crash strands recovery: the marker is left, the binding is
      gone, and connections are already adopted. */
  predicate Stranded(d: Disk) {
    d.marker.Some? && d.binding.None? && (d.home.adopted || d.home.projects.Some?)
  }

  /** Some phase of one recovery of this origin. */
  ghost predicate UnderWay(env: Env, d: Disk, o: Origin) {
    if d.marker.None? then
      Untouched(d, o) || Concluded(env, d, o)
    else
      Moving(env, d, o, d.marker.value) || Promoted(env, d, o, d.marker.value) || Window(env, d, o, d.marker.value)
  }

  /** What an uninterrupted run can finish from. A start needs acknowledged
      connections to be there and a fresh quarantine name; until promotion the
      stage must be restorable; a stranded recovery does not resume. */
  ghost predicate CanFinish(env: Env, f: Projector, d: Disk, o: Origin, base: string, now: string) {
    if d.marker.None? then
      || Concluded(env, d, o)
      || (CanStart(d, base) && Restorable(env, f, OriginLegacy(o), d.home.scoped, OriginProjects(o), now))
    else
      && !Stranded(d)
      && (Promoted(env, d, o, d.marker.value) ||
          Restorable(env, f, OriginLegacy(o), d.home.scoped, OriginProjects(o), now))
  }

  predicate CanStart(d: Disk, base: string) {
    && (d.home.adopted ==> d.home.projects.Some?)
    && (base, Main) !in d.quarantine && (base, Wal) !in d.quarantine && (base, Shm) !in d.quarantine
  }
}
