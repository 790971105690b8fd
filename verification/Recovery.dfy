/** Crash recovery as it runs: every rename, removal and write is one step, and
    the run may die before any of them. A rerun starts from what is on disk. */
module Recovery {
  import opened Ordering
  import opened ScopedModel
  import opened ScopedRecovery
  import opened LegacyModel
  import opened LegacyProjection
  import opened ProjectConnections
  import opened RecoveryDisk

  /** Completed; the database is corrupt; the process died before its next file
      step; or an error was returned. */
  datatype Step = Completed | CorruptFound | Interrupted | Refused

  /** What stands in the database's place when a recovery resumes. */
  datatype Canonical = Missing | CorruptState | Complete

  function At(d: Disk, home: bool): Site {
    if home then d.home else d.stage
  }

  function Put(d: Disk, home: bool, site: Site): Disk {
    if home then d.(home := site) else d.(stage := site)
  }

  ghost predicate MovesForward(was: map<(string, Suffix), File>, now: map<(string, Suffix), File>) {
    forall k :: k in was ==> k in now && now[k] == was[k]
  }

  lemma StandsStill(q: map<(string, Suffix), File>)
    ensures MovesForward(q, q)
  {
  }

  class Machine {
    const env: Env
    const project: Projector
    var disk: Disk
    /** File steps left before the process dies; negative when it does not. */
    var budget: int

    constructor (env: Env, project: Projector, disk: Disk)
      ensures this.env == env && this.project == project && this.disk == disk
    {
      this.env, this.project, this.disk, this.budget := env, project, disk, -1;
    }

    /** One file step: it happens whole, or the process is dead before it. */
    method Commit(next: Disk) returns (r: Step)
      modifies this`disk, this`budget
      ensures r.Completed? ==> disk == next
      ensures r.Interrupted? ==> disk == old(disk)
      ensures r.Completed? || r.Interrupted?
      ensures old(budget) < 0 ==> r.Completed? && budget < 0
    {
      if budget == 0 {
        return Interrupted;
      }
      disk, budget := next, budget - 1;
      r := Completed;
    }

    // ------------------------------------------------------------ quarantine

    /** quarantineDatabase: main file first, then its journals; a name that is
        already taken is never renamed over. */
    method Quarantine(ghost o: Origin, m: Marker) returns (r: Step)
      requires Moving(env, disk, o, m)
      modifies this`disk, this`budget
      ensures Moving(env, disk, o, m) && MovesForward(old(disk).quarantine, disk.quarantine)
      ensures r.Completed? ==> disk.home.files == map[] && Quarantined(disk, o, m)
      ensures disk.(home := old(disk).home, quarantine := old(disk).quarantine) == old(disk)
      ensures disk.home.(files := map[]) == old(disk).home.(files := map[])
      ensures r.Completed? || r.Interrupted?
      ensures old(budget) < 0 ==> r.Completed? && budget < 0
    {
      hide Moving, Quarantined;
      var suffixes := [Main, Wal, Shm];
      for i := 0 to |suffixes|
        invariant Moving(env, disk, o, m) && MovesForward(old(disk).quarantine, disk.quarantine)
        invariant forall j :: 0 <= j < i ==> suffixes[j] !in disk.home.files
        invariant disk.(home := old(disk).home, quarantine := old(disk).quarantine) == old(disk)
        invariant disk.home.(files := map[]) == old(disk).home.(files := map[])
        invariant old(budget) < 0 ==> budget < 0
      {
        assert suffixes[0] == Main;
        r := MoveAside(o, m, suffixes[i]);
        if !r.Completed? {
          return;
        }
      }
      r := Completed;
      forall s: Suffix ensures s !in disk.home.files {
        assert s == suffixes[0] || s == suffixes[1] || s == suffixes[2];
      }
      assert disk.home.files == map[];
      AllAside(env, disk, o, m);
    }

    /** One file is renamed to its quarantine name, if it is there. */
    method MoveAside(ghost o: Origin, m: Marker, s: Suffix) returns (r: Step)
      requires Moving(env, disk, o, m) && (s == Main || Main !in disk.home.files)
      modifies this`disk, this`budget
      ensures Moving(env, disk, o, m) && MovesForward(old(disk).quarantine, disk.quarantine)
      ensures disk.home.files.Keys <= old(disk).home.files.Keys && (r.Completed? ==> s !in disk.home.files)
      ensures disk.(home := old(disk).home, quarantine := old(disk).quarantine) == old(disk)
      ensures disk.home.(files := map[]) == old(disk).home.(files := map[])
      ensures r.Completed? || r.Interrupted?
      ensures old(budget) < 0 ==> r.Completed? && budget < 0
    {
      if s !in disk.home.files {
        return Completed;
      }
      NameFree(env, disk, o, m, s);
      hide Moving;
      var next := disk.(home := disk.home.(files := disk.home.files - {s}),
                        quarantine := disk.quarantine[(m.base, s) := disk.home.files[s]]);
      MovedStays(env, disk, next, o, m, s);
      r := Commit(next);
    }

    // ------------------------------------------------------------- the stage

    /** removeRecoveryStage and the three sidecar removals. */
    method ClearStage() returns (r: Step)
      modifies this`disk, this`budget
      ensures disk.(stage := old(disk).stage) == old(disk)
      ensures r.Completed? ==> disk.stage.(legacy := None) == NO_SITE
      ensures r.Completed? || r.Interrupted?
      ensures old(budget) < 0 ==> r.Completed? && budget < 0
    {
      var suffixes := [Main, Wal, Shm];
      for i := 0 to |suffixes|
        invariant disk.(stage := old(disk).stage) == old(disk)
        invariant forall j :: 0 <= j < i ==> suffixes[j] !in disk.stage.files
        invariant old(budget) < 0 ==> budget < 0
      {
        if suffixes[i] in disk.stage.files {
          r := Commit(disk.(stage := disk.stage.(files := disk.stage.files - {suffixes[i]})));
          if !r.Completed? {
            return;
          }
        }
      }
      forall s: Suffix ensures s !in disk.stage.files {
        assert s == suffixes[0] || s == suffixes[1] || s == suffixes[2];
      }
      assert disk.stage.files == map[];
      r := ClearStageSidecars();
    }

    method ClearStageSidecars() returns (r: Step)
      modifies this`disk, this`budget
      ensures disk.(stage := old(disk).stage) == old(disk) && disk.stage.files == old(disk).stage.files
      ensures r.Completed? ==> disk.stage == Site(old(disk).stage.files, old(disk).stage.legacy, None, None, false)
      ensures r.Completed? || r.Interrupted?
      ensures old(budget) < 0 ==> r.Completed? && budget < 0
    {
      if disk.stage.scoped.Some? {
        r := Commit(disk.(stage := disk.stage.(scoped := None)));
        if !r.Completed? { return; }
      }
      if disk.stage.projects.Some? {
        r := Commit(disk.(stage := disk.stage.(projects := None)));
        if !r.Completed? { return; }
      }
      if disk.stage.adopted {
        r := Commit(disk.(stage := disk.stage.(adopted := false)));
        if !r.Completed? { return; }
      }
      r := Completed;
    }

    // ---------------------------------------------------- opening a database

    method SetStore(home: bool, s: Store) returns (r: Step)
      modifies this`disk, this`budget
      ensures Put(disk, home, At(old(disk), home)) == old(disk)
      ensures r.Completed? ==>
                At(disk, home) == At(old(disk), home).(files := At(old(disk), home).files[Main := Intact(s)])
      ensures r.Interrupted? ==> disk == old(disk)
      ensures r.Completed? || r.Interrupted?
      ensures old(budget) < 0 ==> r.Completed? && budget < 0
    {
      var site := At(disk, home);
      r := Commit(Put(disk, home, site.(files := site.files[Main := Intact(s)])));
    }

    /** ensureProjectConnectionAdoptionMarker */
    method EnsureAdopted(home: bool) returns (r: Step)
      modifies this`disk, this`budget
      ensures Put(disk, home, At(old(disk), home)) == old(disk)
      ensures At(disk, home).(adopted := At(old(disk), home).adopted) == At(old(disk), home)
      ensures r.Completed? ==> At(disk, home).adopted
      ensures r.Completed? || r.Interrupted?
      ensures r.Interrupted? ==> disk == old(disk)
      ensures old(budget) < 0 ==> r.Completed? && budget < 0
    {
      var site := At(disk, home);
      if site.adopted {
        return Completed;
      }
      r := Commit(Put(disk, home, site.(adopted := true)));
    }

    /** initializeScoped: unless the schema marker is there, the sidecar is put
        back, or with no sidecar the legacy state is projected; the marker is a
        write of its own. */
    method OpenScoped(home: bool, now: string) returns (r: Step)
      requires Main in At(disk, home).files && At(disk, home).files[Main].Intact?
      requires At(disk, home).scoped.Some? ==> Ordered(At(disk, home).scoped.value)
      modifies this`disk, this`budget
      ensures Put(disk, home, At(old(disk), home)) == old(disk)
      ensures At(disk, home).(files := map[]) == At(old(disk), home).(files := map[])
      ensures At(old(disk), home).files[Main].store.scopedMarked ==> r.Completed? && disk == old(disk)
      ensures r.Completed? ==>
                && Main in At(disk, home).files && At(disk, home).files[Main].Intact?
                && At(disk, home).files == At(old(disk), home).files[Main := At(disk, home).files[Main]]
                && ScopedOpened(At(old(disk), home).files[Main].store, At(old(disk), home).scoped, now,
                                At(disk, home).files[Main].store)
      ensures !r.CorruptFound? && (old(budget) < 0 ==> budget < 0 && !r.Interrupted?)
      ensures r.Refused? ==> !CanOpenScoped(At(old(disk), home).files[Main].store, At(old(disk), home).scoped, now)
    {
      hide Valid, Build, Ordered;
      var s := At(disk, home).files[Main].store;
      if s.scopedMarked {
        return Completed;
      }
      var t := EMPTY;
      var sidecar := At(disk, home).scoped;
      if sidecar.Some? {
        if s.scoped != EMPTY {
          return Refused;
        }
        var ok;
        ok, t := RestoreSnapshot(env, sidecar.value);
        if !ok {
          return Refused;
        }
      } else {
        var projected := project(s.legacy, s.scoped, now);
        if projected.None? {
          return Refused;
        }
        t := projected.value;
      }
      r := SetStore(home, s.(scoped := t));
      if r.Completed? {
        r := SetStore(home, s.(scoped := t, scopedMarked := true));
      }
    }

    ghost predicate ScopedOpened(s: Store, sidecar: Option<Snapshot>, now: string, after: Store) {
      if s.scopedMarked then after == s
      else
        && after == s.(scoped := after.scoped, scopedMarked := true)
        && (if sidecar.Some? then Keyed(after.scoped) && Build(after.scoped) == sidecar.value
            else project(s.legacy, s.scoped, now) == Some(after.scoped))
    }

    ghost predicate CanOpenScoped(s: Store, sidecar: Option<Snapshot>, now: string) {
      || s.scopedMarked
      || (if sidecar.Some? then s.scoped == EMPTY && Valid(env, sidecar.value) && ParentsListed(sidecar.value)
          else project(s.legacy, s.scoped, now).Some?)
    }

    /** initializeProjectConnections: an initialised table must equal the sidecar;
        otherwise the sidecar's rows are inserted and marked in one transaction. */
    method OpenConnections(home: bool, ghost c: Table) returns (r: Step)
      requires Main in At(disk, home).files && At(disk, home).files[Main].Intact?
      requires KeyedTable(At(disk, home).files[Main].store.connections) && KeyedTable(c)
      requires !At(disk, home).files[Main].store.connectionsMarked ==> CopyOf(At(disk, home).projects, c)
      modifies this`disk, this`budget
      ensures Put(disk, home, At(old(disk), home)) == old(disk)
      ensures old(budget) < 0 ==> budget < 0 && !r.Interrupted?
      ensures At(old(disk), home).files[Main].store.connectionsMarked ==>
                ConnectionsChecked(At(old(disk), home), At(disk, home), r)
      ensures !At(old(disk), home).files[Main].store.connectionsMarked && r.Completed? ==>
                && At(disk, home) ==
                   At(old(disk), home).(files := At(disk, home).files, projects := Some(Listed(c)), adopted := true)
                && At(disk, home).files == At(old(disk), home).files[Main :=
                     Intact(At(old(disk), home).files[Main].store.(connections := c, connectionsMarked := true))]
                && ParentsExist(At(old(disk), home).files[Main].store.scoped, Listed(c))
      ensures !At(old(disk), home).files[Main].store.connectionsMarked ==>
                && !r.CorruptFound?
                && (r.Refused? ==> At(old(disk), home).files[Main].store.connections != map[] ||
                                   !ParentsExist(At(old(disk), home).files[Main].store.scoped, Listed(c)))
    {
      hide ParentsExist, Listed;
      var s := At(disk, home).files[Main].store;
      var sidecar := At(disk, home).projects;
      if s.connectionsMarked {
        var actual := SelectConnections(s.connections);
        if sidecar != Some(actual) {
          return CorruptFound;
        }
        r := EnsureAdopted(home);
        return;
      }
      if s.connections != map[] {
        return Refused;
      }
      NothingListed();
      var rows := if sidecar.Some? then sidecar.value else [];
      var ok, table := InsertConnections(s.scoped, rows, c);
      if !ok {
        return Refused;
      }
      r := SetStore(home, s.(connections := table, connectionsMarked := true));
      if r.Completed? && sidecar.None? {
        r := Commit(Put(disk, home, At(disk, home).(projects := Some(rows))));
      }
      if r.Completed? {
        r := EnsureAdopted(home);
      }
    }

    /** openStore without the snapshot writes: a missing database is created. */
    method OpenStore(home: bool, now: string, ghost c: Table) returns (r: Step)
      requires OpensCleanly(At(disk, home), c)
      modifies this`disk, this`budget
      ensures Put(disk, home, At(old(disk), home)) == old(disk)
      ensures old(budget) < 0 ==> budget < 0 && !r.Interrupted?
      ensures Main in At(old(disk), home).files ==>
                if At(old(disk), home).files[Main].Intact?
                then ConnectionsChecked(At(old(disk), home), At(disk, home), r)
                else r.CorruptFound? && disk == old(disk)
      ensures At(old(disk), home).files == map[] && r.Completed? ==>
                && At(disk, home).files.Keys == {Main} && At(disk, home).files[Main].Intact?
                && var t := At(disk, home).files[Main].store.scoped;
                   && StageOpens(project, At(old(disk), home).scoped, now, t) && ParentsExist(t, Listed(c))
                   && At(disk, home).files[Main].store == Store(NO_LEGACY, t, true, c, true)
      ensures At(old(disk), home).files == map[] ==>
                && !r.CorruptFound?
                && (r.Refused? ==> forall t ::
                      StageOpens(project, At(old(disk), home).scoped, now, t) && ParentsExist(t, Listed(c)) ==>
                        At(old(disk), home).scoped.Some? && !Valid(env, At(old(disk), home).scoped.value))
    {
      hide Valid, Build, Ordered, Listed, ParentsExist, Keyed;
      if Main !in At(disk, home).files {
        r := SetStore(home, NEW_STORE);
        if !r.Completed? {
          return;
        }
      }
      if !At(disk, home).files[Main].Intact? {
        return CorruptFound;
      }
      r := OpenScoped(home, now);
      if !r.Completed? {
        forall t | StageOpens(project, At(old(disk), home).scoped, now, t) && At(old(disk), home).scoped.Some?
          ensures ParentsListed(At(old(disk), home).scoped.value)
        {
          OpeningParents(project, At(old(disk), home).scoped.value, now, t);
        }
        return;
      }
      ghost var base := At(disk, home).files[Main].store;
      r := OpenConnections(home, c);
      if r.Refused? {
        forall t | StageOpens(project, At(old(disk), home).scoped, now, t) ensures !ParentsExist(t, Listed(c)) {
          SameOpening(project, At(old(disk), home).scoped, now, t, base.scoped, c);
        }
      }
    }

    // ------------------------------------------------------------ the new stage

    /** The stage is emptied, given copies of the sidecars, and opened. */
    method OpenStage(scoped: Option<Snapshot>, projects: Option<seq<Connection>>, now: string, ghost c: Table)
      returns (r: Step)
      requires KeyedTable(c) && CopyOf(projects, c) && (scoped.Some? ==> Ordered(scoped.value))
      modifies this`disk, this`budget
      ensures disk.(stage := old(disk).stage) == old(disk)
      ensures old(budget) < 0 ==> budget < 0 && !r.Interrupted?
      ensures !r.CorruptFound?
      ensures r.Completed? ==> StageOpened(scoped, c, now)
      ensures r.Refused? ==> forall t :: StageOpens(project, scoped, now, t) && ParentsExist(t, Listed(c)) ==>
                                           scoped.Some? && !Valid(env, scoped.value)
    {
      hide Valid, Build, Ordered, Listed, ParentsExist, Keyed, StageOpens, KeyedTable;
      r := ClearStage();
      if r.Completed? && scoped.Some? {
        r := Commit(disk.(stage := disk.stage.(scoped := scoped)));
      }
      if r.Completed? && projects.Some? {
        r := Commit(disk.(stage := disk.stage.(projects := projects)));
      }
      if r.Completed? {
        r := OpenStore(false, now, c);
      }
    }

    ghost predicate StageOpened(scoped: Option<Snapshot>, c: Table, now: string)
      reads this
    {
      && disk.stage.files.Keys == {Main} && disk.stage.files[Main].Intact?
      && var t := disk.stage.files[Main].store.scoped;
         && disk.stage.files[Main].store == Store(NO_LEGACY, t, true, c, true)
         && StageOpens(project, scoped, now, t) && ParentsExist(t, Listed(c))
    }

    /** restoreRecoverySnapshot */
    method RestoreLegacyRows(legacy: Option<LegacySnapshot>, ghost l: LegacyTables) returns (r: Step)
      requires disk.stage.files.Keys == {Main} && disk.stage.files[Main].Intact? && LegacyCopyOf(env, legacy, l)
      requires disk.stage.files[Main].store.legacy == NO_LEGACY
      modifies this`disk, this`budget
      ensures disk.(stage := old(disk).stage) == old(disk)
      ensures old(budget) < 0 ==> budget < 0 && !r.Interrupted?
      ensures r.Completed? || r.Interrupted?
      ensures r.Completed? ==>
                && disk.stage.files.Keys == {Main} && disk.stage.files[Main].Intact?
                && disk.stage.files[Main].store == old(disk).stage.files[Main].store.(legacy := l)
    {
      hide Build, BuildLegacy, RestoredLegacy, Ascending, LegacyValid, SnapshotOK;
      r := Completed;
      if legacy.Some? {
        LegacyCopyRestores(env, l);
        var ok, restored := RestoreLegacy(env, env.legacyID, legacy.value);
        RestoredLegacyUnique(l, restored);
        r := SetStore(false, disk.stage.files[Main].store.(legacy := restored));
      }
    }

    /** restoreRecoverySnapshot, then projectLegacyState unless a sidecar held the
        scoped state. */
    method RestoreIntoStage(legacy: Option<LegacySnapshot>, scoped: Option<Snapshot>, now: string,
                            ghost l: LegacyTables, ghost c: Table) returns (r: Step)
      requires StageOpened(scoped, c, now) && LegacyCopyOf(env, legacy, l) && GoodProjector(project)
      modifies this`disk, this`budget
      ensures disk.(stage := old(disk).stage) == old(disk)
      ensures old(budget) < 0 ==> budget < 0 && !r.Interrupted?
      ensures !r.CorruptFound?
      ensures r.Completed? ==>
                && disk.stage.files.Keys == {Main} && disk.stage.files[Main].Intact?
                && var u := disk.stage.files[Main].store.scoped;
                   && disk.stage.files[Main].store == Store(l, u, true, c, true)
                   && StageEnds(project, l, scoped, now, old(disk).stage.files[Main].store.scoped, u)
                   && Keyed(u) && ParentsExist(u, Listed(c))
      ensures r.Refused? ==> scoped.None? && project(l, old(disk).stage.files[Main].store.scoped, now).None?
    {
      ghost var t := disk.stage.files[Main].store.scoped;
      StageStore(scoped, c, now);
      StageKeyed(env, project, l, legacy, scoped, now, t, c);
      hide *;
      r := RestoreLegacyRows(legacy, l);
      if !r.Completed? {
        return;
      }
      if scoped.None? {
        r := ProjectStage(l, t, c, now);
        if !r.Completed? {
          return;
        }
      }
      StageEnding(project, l, scoped, now, t, disk.stage.files[Main].store.scoped, c);
    }

    lemma StageStore(scoped: Option<Snapshot>, c: Table, now: string)
      requires StageOpened(scoped, c, now)
      ensures disk.stage.files.Keys == {Main} && disk.stage.files[Main].Intact?
      ensures var t := disk.stage.files[Main].store.scoped;
              && disk.stage.files[Main].store == Store(NO_LEGACY, t, true, c, true)
              && StageOpens(project, scoped, now, t) && ParentsExist(t, Listed(c))
    {
      hide StageOpens, ParentsExist, Listed;
    }

    /** projectLegacyState on the stage. */
    method ProjectStage(ghost l: LegacyTables, ghost t: Tables, ghost c: Table, now: string) returns (r: Step)
      requires disk.stage.files.Keys == {Main} && disk.stage.files[Main].Intact?
      requires disk.stage.files[Main].store == Store(l, t, true, c, true)
      modifies this`disk, this`budget
      ensures disk.(stage := old(disk).stage) == old(disk)
      ensures old(budget) < 0 ==> budget < 0 && !r.Interrupted?
      ensures !r.CorruptFound? && (r.Refused? ==> project(l, t, now).None?)
      ensures r.Completed? ==>
                && disk.stage.files.Keys == {Main} && disk.stage.files[Main].Intact? && project(l, t, now).Some?
                && disk.stage.files[Main].store == Store(l, project(l, t, now).value, true, c, true)
    {
      var s := disk.stage.files[Main].store;
      var projected := project(s.legacy, s.scoped, now);
      if projected.None? {
        return Refused;
      }
      r := SetStore(false, s.(scoped := projected.value));
    }

    lemma OpenedWith(scoped: Option<Snapshot>, c: Table, now: string) returns (t: Tables)
      requires StageOpened(scoped, c, now)
      ensures disk.stage.files.Keys == {Main} && disk.stage.files[Main].Intact?
      ensures t == disk.stage.files[Main].store.scoped
      ensures StageOpens(project, scoped, now, t) && ParentsExist(t, Listed(c))
    {
      hide StageOpens, ParentsExist, Listed;
      t := disk.stage.files[Main].store.scoped;
    }

    /** The stage, from an empty path to a closed database that passed every
        comparison, with the snapshots read back from it. */
    method PrepareStage(legacy: Option<LegacySnapshot>, scoped: Option<Snapshot>, projects: Option<seq<Connection>>,
                        now: string, ghost l: LegacyTables, ghost c: Table)
      returns (r: Step, scopedNow: Option<Snapshot>, projectsNow: seq<Connection>)
      requires KeyedTable(c) && CopyOf(projects, c) && (scoped.Some? ==> Ordered(scoped.value))
      requires LegacyCopyOf(env, legacy, l) && GoodProjector(project)
      modifies this`disk, this`budget
      ensures disk.(stage := old(disk).stage) == old(disk)
      ensures old(budget) < 0 ==> budget < 0 && !r.Interrupted?
      ensures r.Completed? ==>
                && disk.stage.files.Keys == {Main} && disk.stage.files[Main].Intact?
                && Recovered(env, disk.stage.files[Main].store, l, scoped, c)
                && scopedNow == Some(Build(disk.stage.files[Main].store.scoped)) && projectsNow == Listed(c)
                && Restorable(env, project, l, scoped, c, now)
      ensures !r.CorruptFound? && (r.Refused? ==> !Restorable(env, project, l, scoped, c, now))
    {
      scopedNow, projectsNow := None, [];
      hide *;
      r := OpenStage(scoped, projects, now, c);
      if !r.Completed? {
        if r.Refused? {
          NotRestorable(env, project, l, scoped, c, now);
        }
        return;
      }
      ghost var t := OpenedWith(scoped, c, now);
      r := RestoreIntoStage(legacy, scoped, now, l, c);
      if !r.Completed? {
        if r.Refused? {
          ProjectionRefused(env, project, l, scoped, c, now, t);
        }
        return;
      }
      var s := disk.stage.files[Main].store;
      scopedNow := BuildSnapshot(env, s.scoped);
      RestorableIff(env, project, l, scoped, c, now, t, s.scoped);
      StageRecovered(env, project, l, scoped, c, now, t, s);
      if scopedNow.None? {
        return Refused, None, [];
      }
      projectsNow := SelectConnections(s.connections);
      r := ClearStageSidecars();
    }

    // ----------------------------------------------------- the canonical path

    /** inspectRecoveryCanonical: missing, corrupt, or complete and equal to every
        recovery snapshot; anything else is an error. */
    method InspectCanonical(legacy: Option<LegacySnapshot>, scoped: Option<Snapshot>, projects: Option<seq<Connection>>,
                            now: string, ghost c: Table) returns (r: Step, state: Canonical)
      requires Main in disk.home.files ==> OpensCleanly(disk.home, c)
      requires Main in disk.home.files && !Corrupt(disk.home) ==>
                 LegacyKeyed(disk.home.files[Main].store.legacy) && Keyed(disk.home.files[Main].store.scoped)
      modifies this`disk, this`budget
      ensures old(budget) < 0 ==> budget < 0 && !r.Interrupted?
      ensures Main !in old(disk).home.files ==> r.Completed? && state.Missing? && disk == old(disk)
      ensures Main in old(disk).home.files && Corrupt(old(disk).home) ==>
                r.Completed? && state.CorruptState? && disk == old(disk)
      ensures Main in old(disk).home.files && !Corrupt(old(disk).home) ==>
                && disk == old(disk).(home := old(disk).home.(adopted := disk.home.adopted))
                && (r.Interrupted? || (disk.home.adopted && (r.Completed? <==>
                      Matches(env, disk.home.files[Main].store, legacy, scoped, projects))))
                && (r.Completed? ==> state.Complete?)
      ensures !r.CorruptFound?
    {
      hide Valid, Build, Ordered, Listed, Keyed, BuildLegacy, LegacyValid;
      state := Missing;
      if Main !in disk.home.files {
        return Completed, Missing;
      }
      r := OpenStore(true, now, c);
      if r.CorruptFound? {
        return Completed, CorruptState;
      }
      if !r.Completed? {
        return;
      }
      state := Complete;
      var s := disk.home.files[Main].store;
      var actual := BuildLegacySnapshot(env, env.legacyID, s.legacy);
      if actual != Some(if legacy.Some? then legacy.value else EMPTY_LEGACY) {
        return Refused, state;
      }
      if scoped.Some? {
        var built := BuildSnapshot(env, s.scoped);
        if built != scoped {
          return Refused, state;
        }
      }
      var listed := SelectConnections(s.connections);
      r := if listed == (if projects.Some? then projects.value else []) then Completed else Refused;
    }

    // ------------------------------------------------------------ finalisation

    /** writeRecoverySnapshot: the legacy sidecar, then the scoped one. */
    method WriteSidecars() returns (r: Step)
      requires Main in disk.home.files && disk.home.files[Main].Intact?
      requires LegacyKeyed(disk.home.files[Main].store.legacy) && Keyed(disk.home.files[Main].store.scoped)
      modifies this`disk, this`budget
      ensures old(budget) < 0 ==> budget < 0 && !r.Interrupted?
      ensures disk == old(disk).(home := old(disk).home.(legacy := disk.home.legacy, scoped := disk.home.scoped))
      ensures var s := old(disk).home.files[Main].store;
              && (disk.home.legacy == old(disk).home.legacy || disk.home.legacy == Some(BuildLegacy(s.legacy)))
              && (disk.home.scoped == old(disk).home.scoped || disk.home.scoped == Some(Build(s.scoped)))
              && (r.Completed? ==> LegacyValid(env, env.legacyID, s.legacy) && Acceptable(env, Build(s.scoped)) &&
                                   disk.home.legacy == Some(BuildLegacy(s.legacy)) &&
                                     disk.home.scoped == Some(Build(s.scoped)))
              && (r.Refused? ==> !LegacyValid(env, env.legacyID, s.legacy) || !Acceptable(env, Build(s.scoped)))
      ensures !r.CorruptFound?
    {
      hide Valid, Build, Ordered, Listed, Keyed, BuildLegacy, LegacyValid, LegacyKeyed;
      var s := disk.home.files[Main].store;
      var legacy := BuildLegacySnapshot(env, env.legacyID, s.legacy);
      if legacy.None? {
        return Refused;
      }
      r := Commit(disk.(home := disk.home.(legacy := legacy)));
      if !r.Completed? {
        return;
      }
      var scoped := BuildSnapshot(env, s.scoped);
      if scoped.None? || !Fits(env, scoped.value) {
        return Refused;
      }
      r := Commit(disk.(home := disk.home.(scoped := scoped)));
    }

    /** Recovery is over: everything is in place, and the run says so unless the
        scoped sidecar it writes last is over its limit. */
    ghost predicate Ended(o: Origin, acceptable: bool)
      reads this
    {
      && disk.marker.None? && Concluded(env, disk, o) && Main in disk.home.files && disk.home.files[Main].Intact?
      && (acceptable <==> Acceptable(env, Build(disk.home.files[Main].store.scoped)))
    }

    /** finalizeRecovery: the binding goes first, then the marker, then the
        sidecars are written once more. */
    method Finalize(ghost o: Origin, m: Marker) returns (r: Step)
      requires OriginOK(env, o) && Promoted(env, disk, o, m) && disk.home.adopted
      modifies this`disk, this`budget
      ensures old(budget) < 0 ==> budget < 0 && !r.Interrupted?
      ensures UnderWay(env, disk, o) && disk.quarantine == old(disk).quarantine
      ensures (r.Completed? ==> Ended(o, true)) && (r.Refused? ==> Ended(o, false))
      ensures !r.CorruptFound?
    {
      hide Valid, Build, Ordered, Listed, Keyed, BuildLegacy, LegacyValid, Acceptable, ParentsExist, KeyedTable,
           RestoredLegacy, LegacyKeyed;
      OriginLegacyKeyed(env, o);
      if disk.binding.Some? {
        r := Commit(disk.(binding := None));
        if !r.Completed? {
          return;
        }
      }
      assert Window(env, disk, o, m);
      r := Commit(disk.(marker := None));
      if !r.Completed? {
        return;
      }
      assert Finished(env, disk, o, m);
      r := WriteSidecars();
      assert Finished(env, disk, o, m);
    }

    // --------------------------------------------------------------- promotion

    /** The reconciled sidecars are persisted, then the stage is renamed over a
        path that holds no database. */
    method Promote(ghost o: Origin, m: Marker, scoped: Snapshot, projects: seq<Connection>) returns (r: Step)
      requires OriginOK(env, o) && Moving(env, disk, o, m) && disk.home.files == map[] && disk.binding.Some?
      requires disk.stage.files.Keys == {Main} && disk.stage.files[Main].Intact?
      requires Recovered(env, disk.stage.files[Main].store, OriginLegacy(o), disk.home.scoped, OriginProjects(o))
      requires scoped == Build(disk.stage.files[Main].store.scoped) && projects == Listed(OriginProjects(o))
      modifies this`disk, this`budget
      ensures old(budget) < 0 ==> budget < 0 && !r.Interrupted?
      ensures UnderWay(env, disk, o) && disk.quarantine == old(disk).quarantine
      ensures r.Completed? || r.Interrupted?
      ensures r.Completed? ==>
                && Promoted(env, disk, o, m) && disk.home.legacy == old(disk).home.legacy
                && disk.home.scoped == Some(scoped) && disk.home.projects == Some(projects)
    {
      hide Valid, Build, Ordered, Listed, Keyed, BuildLegacy, LegacyValid, ParentsExist, KeyedTable, RestoredLegacy,
           LegacyKeyed;
      ghost var u := disk.stage.files[Main].store.scoped;
      NothingListed();
      r := Commit(disk.(home := disk.home.(scoped := Some(scoped))));
      if !r.Completed? {
        return;
      }
      assert Moving(env, disk, o, m);
      r := Commit(disk.(home := disk.home.(projects := Some(projects))));
      if !r.Completed? {
        return;
      }
      assert Moving(env, disk, o, m);
      r := Commit(disk.(home := disk.home.(files := disk.stage.files), stage := disk.stage.(files := map[])));
    }

    /** What a completed or refused rebuild left behind. */
    ghost predicate Outcome(r: Step, o: Origin, m: Marker, restorable: bool, scoped: Option<Snapshot>)
      reads this
    {
      && UnderWay(env, disk, o) && !r.CorruptFound?
      && (r.Completed? ==> restorable && Ended(o, true))
      && (r.Refused? && restorable ==> Ended(o, false))
      && (r.Refused? && !restorable ==> disk.marker == Some(m) && disk.home.scoped == scoped)
    }

    /** A promoted database is checked against every snapshot and finalised. */
    method Verify(legacy: Option<LegacySnapshot>, scoped: Option<Snapshot>, projects: Option<seq<Connection>>,
                  now: string, ghost o: Origin, m: Marker) returns (r: Step)
      requires OriginOK(env, o) && Promoted(env, disk, o, m)
      requires legacy == disk.home.legacy && scoped == disk.home.scoped && projects == disk.home.projects
      modifies this`disk, this`budget
      ensures old(budget) < 0 ==> budget < 0 && !r.Interrupted?
      ensures Outcome(r, o, m, true, scoped) && disk.quarantine == old(disk).quarantine
    {
      hide Corrupt, Matches, OpensCleanly, Installed, Quarantined, OriginOK, Acceptable, Build;
      SidecarsReadable(env, disk, o, m);
      var state;
      r, state := InspectCanonical(legacy, scoped, projects, now, OriginProjects(o));
      AdoptionAside(env, old(disk), disk, o, m);
      if r.Completed? {
        r := Finalize(o, m);
      }
    }

    /** From a cleared path to a finished recovery. */
    method Rebuild(legacy: Option<LegacySnapshot>, scoped: Option<Snapshot>, projects: Option<seq<Connection>>,
                   now: string, ghost o: Origin, m: Marker) returns (r: Step)
      requires OriginOK(env, o) && GoodProjector(project) && disk.binding.Some?
      requires Moving(env, disk, o, m) && disk.home.files == map[]
      requires legacy == disk.home.legacy && scoped == disk.home.scoped && projects == disk.home.projects
      modifies this`disk, this`budget
      ensures old(budget) < 0 ==> budget < 0 && !r.Interrupted?
      ensures Outcome(r, o, m, Restorable(env, project, OriginLegacy(o), scoped, OriginProjects(o), now), scoped)
      ensures disk.quarantine == old(disk).quarantine
    {
      hide Installed, Quarantined, FilesKept, SidecarsKept, OriginOK, Acceptable, Build, Restorable, Recovered,
           GoodProjector, LegacyCopyOf, CopyOf, KeyedTable, Ordered, Finished, Window, Listed, Moving, Promoted,
           Corrupt, Matches, OpensCleanly, Valid, Acceptable, LegacyCopy, ScopedCopy;
      OriginLegacyKeyed(env, o);
      SidecarsReadable(env, disk, o, m);
      var scopedNow, projectsNow;
      r, scopedNow, projectsNow := PrepareStage(legacy, scoped, projects, now, OriginLegacy(o), OriginProjects(o));
      StageAside(env, old(disk), disk, o, m);
      if !r.Completed? {
        return;
      }
      r := Promote(o, m, scopedNow.value, projectsNow);
      if !r.Completed? {
        return;
      }
      r := Verify(legacy, scopedNow, Some(projectsNow), now, o, m);
    }

    /** Whatever database is in the way is moved aside first. */
    method ClearAndRebuild(legacy: Option<LegacySnapshot>, scoped: Option<Snapshot>, projects: Option<seq<Connection>>,
                           now: string, ghost o: Origin, m: Marker) returns (r: Step)
      requires OriginOK(env, o) && GoodProjector(project) && disk.binding.Some? && Moving(env, disk, o, m)
      requires legacy == disk.home.legacy && scoped == disk.home.scoped && projects == disk.home.projects
      modifies this`disk, this`budget
      ensures old(budget) < 0 ==> budget < 0 && !r.Interrupted?
      ensures MovesForward(old(disk).quarantine, disk.quarantine)
      ensures Outcome(r, o, m, Restorable(env, project, OriginLegacy(o), scoped, OriginProjects(o), now), scoped)
    {
      hide *;
      r := Quarantine(o, m);
      if !r.Completed? {
        StillMoving(env, disk, o, m);
        Concludes(r, o, m, Restorable(env, project, OriginLegacy(o), scoped, OriginProjects(o), now), scoped);
        return;
      }
      r := Rebuild(legacy, scoped, projects, now, o, m);
    }

    /** resumeRecoveryWithSnapshot, with the sidecars as they were read. */
    method ResumeWith(legacy: Option<LegacySnapshot>, scoped: Option<Snapshot>, projects: Option<seq<Connection>>,
                      now: string, ghost o: Origin, m: Marker) returns (r: Step)
      requires OriginOK(env, o) && GoodProjector(project) && disk.binding.Some?
      requires Moving(env, disk, o, m) || Promoted(env, disk, o, m)
      requires legacy == disk.home.legacy && scoped == disk.home.scoped && projects == disk.home.projects
      modifies this`disk, this`budget
      ensures old(budget) < 0 ==> budget < 0 && !r.Interrupted?
      ensures MovesForward(old(disk).quarantine, disk.quarantine)
      ensures Outcome(r, o, m, Promoted(env, old(disk), o, m) ||
                               Restorable(env, project, OriginLegacy(o), scoped, OriginProjects(o), now), scoped)
    {
      SidecarsReadable(env, disk, o, m);
      NotBoth(env, disk, o, m);
      hide *;
      StandsStill(disk.quarantine);
      var state;
      r, state := InspectCanonical(legacy, scoped, projects, now, OriginProjects(o));
      if Promoted(env, old(disk), o, m) {
        AdoptionAside(env, old(disk), disk, o, m);
      }
      if !r.Completed? {
        Concludes(r, o, m, true, scoped);
        return;
      }
      if state.Complete? {
        r := Finalize(o, m);
        Concludes(r, o, m, true, scoped);
        return;
      }
      r := ClearAndRebuild(legacy, scoped, projects, now, o, m);
    }

    lemma Concludes(r: Step, o: Origin, m: Marker, restorable: bool, scoped: Option<Snapshot>)
      requires UnderWay(env, disk, o) && !r.CorruptFound?
      requires r.Completed? ==> restorable && Ended(o, true)
      requires r.Refused? ==> restorable && Ended(o, false)
      ensures Outcome(r, o, m, restorable, scoped)
    {
    }

    // ------------------------------------------------------- start and resume

    /** createRecoveryMarker: no quarantine name may be taken; the binding is
        written before the marker that makes it count. */
    method CreateMarker(base: string, present: bool, binding: Binding, ghost o: Origin) returns (r: Step, m: Marker)
      requires OriginOK(env, o) && Untouched(disk, o) && present == o.legacy.Some?
      requires binding == Binding(base, o.projects.Some?, ProjectsCopy(o))
      modifies this`disk, this`budget
      ensures old(budget) < 0 ==> budget < 0 && !r.Interrupted?
      ensures disk.(binding := old(disk).binding, marker := old(disk).marker) == old(disk)
      ensures r.Completed? || r.Interrupted? ==>
                && (base, Main) !in disk.quarantine && (base, Wal) !in disk.quarantine &&
                   (base, Shm) !in disk.quarantine
      ensures r.Completed? ==> m.base == base && Moving(env, disk, o, m) && disk.binding.Some?
      ensures r.Interrupted? ==> Untouched(disk, o)
      ensures r.Refused? ==> disk == old(disk) && exists s :: (base, s) in disk.quarantine
      ensures !r.CorruptFound?
    {
      hide RestoredLegacy, Keyed, Valid, Build, KeyedTable, Listed, BuildLegacy, LegacyValid;
      m := Marker(base, present);
      var suffixes := [Main, Wal, Shm];
      for i := 0 to |suffixes|
        invariant forall j :: 0 <= j < i ==> (base, suffixes[j]) !in disk.quarantine
        invariant disk == old(disk) && budget == old(budget)
      {
        if (base, suffixes[i]) in disk.quarantine {
          return Refused, m;
        }
      }
      forall s: Suffix ensures (base, s) !in disk.quarantine {
        assert s == suffixes[0] || s == suffixes[1] || s == suffixes[2];
      }
      r := Commit(disk.(binding := Some(binding)));
      if r.Completed? {
        r := Commit(disk.(marker := Some(m)));
      }
    }

    /** openRecovering once the database was found corrupt. */
    method Start(base: string, now: string, ghost o: Origin) returns (r: Step)
      requires OriginOK(env, o) && GoodProjector(project) && Untouched(disk, o)
      modifies this`disk, this`budget
      ensures old(budget) < 0 ==> budget < 0 && !r.Interrupted?
      ensures UnderWay(env, disk, o) && MovesForward(old(disk).quarantine, disk.quarantine) && !r.CorruptFound?
      ensures r.Completed? ==> Ended(o, true)
      ensures r.Refused? && CanFinish(env, project, old(disk), o, base, now) ==> Ended(o, false)
      ensures r.Completed? ==> CanFinish(env, project, old(disk), o, base, now)
      ensures r.Refused? && !CanFinish(env, project, old(disk), o, base, now) ==> !Concluded(env, disk, o)
    {
      hide RestoredLegacy, Keyed, Valid, Build, KeyedTable, Listed, BuildLegacy, LegacyValid, Restorable, GoodProjector,
           Finished, FilesKept, SidecarsKept, Promoted, Window, Acceptable, OriginOK;
      UntouchedNotConcluded(env, disk, o);
      var legacy, scoped, projects := disk.home.legacy, disk.home.scoped, disk.home.projects;
      if projects.Some? && !disk.home.adopted {
        r := Commit(disk.(home := disk.home.(adopted := true)));
        if !r.Completed? {
          return;
        }
        UntouchedNotConcluded(env, disk, o);
      }
      if disk.home.adopted && projects.None? {
        return Refused;
      }
      var m;
      r, m := CreateMarker(base, legacy.Some?, Binding(base, disk.home.adopted, projects), o);
      if !r.Completed? {
        if r.Refused? {
          NameTaken(disk, base);
        }
        return;
      }
      NotBoth(env, disk, o, m);
      r := ResumeWith(legacy, scoped, projects, now, o, m);
      if disk.marker.Some? {
        ConcludedUnmarked(env, disk, o);
      }
    }

    /** resumeRecovery: the sidecars must be what they were. */
    method Resume(now: string, ghost o: Origin) returns (r: Step)
      requires OriginOK(env, o) && GoodProjector(project) && disk.marker.Some?
      requires UnderWay(env, disk, o) || Changed(disk) || Stranded(disk)
      modifies this`disk, this`budget
      ensures old(budget) < 0 ==> budget < 0 && !r.Interrupted?
      ensures Changed(old(disk)) || Stranded(old(disk)) ==> r.Refused? && disk == old(disk)
      ensures UnderWay(env, old(disk), o) && !Changed(old(disk)) ==>
                UnderWay(env, disk, o) && MovesForward(old(disk).quarantine, disk.quarantine) && !r.CorruptFound?
      ensures r.Completed? ==> Ended(o, true)
      ensures !Changed(old(disk)) && r.Refused? && CanFinish(env, project, old(disk), o, "", now) ==> Ended(o, false)
      ensures r.Completed? ==> CanFinish(env, project, old(disk), o, "", now)
      ensures r.Refused? && !CanFinish(env, project, old(disk), o, "", now) ==> disk.marker.Some?
    {
      hide RestoredLegacy, Keyed, Valid, Build, KeyedTable, Listed, BuildLegacy, LegacyValid, Restorable, GoodProjector,
           Finished, FilesKept, SidecarsKept, Acceptable, OriginOK, Quarantined, Installed;
      var m := disk.marker.value;
      var legacy, scoped, projects := disk.home.legacy, disk.home.scoped, disk.home.projects;
      if m.snapshotPresent != legacy.Some? {
        return Refused;
      }
      if disk.binding.None? {
        if disk.home.adopted || projects.Some? {
          return Refused;
        }
        r := Commit(disk.(binding := Some(Binding(m.base, false, None))));
        BindingAdded(env, old(disk), disk, o, m);
        NotBoth(env, disk, o, m);
        if !r.Completed? {
          return;
        }
      }
      if !Verified(disk.binding.value, projects) {
        return Refused;
      }
      r := ResumeWith(legacy, scoped, projects, now, o, m);
    }

    /** OpenRecovering: an ordinary open, the start of a recovery, or its resumption. */
    method OpenRecovering(base: string, now: string, ghost o: Origin) returns (r: Step)
      requires OriginOK(env, o) && GoodProjector(project)
      requires UnderWay(env, disk, o) || Changed(disk) || Stranded(disk)
      modifies this`disk, this`budget
      ensures old(budget) < 0 ==> budget < 0 && !r.Interrupted?
      ensures Changed(old(disk)) || Stranded(old(disk)) ==> r.Refused? && disk == old(disk)
      ensures UnderWay(env, old(disk), o) ==>
                && UnderWay(env, disk, o) && MovesForward(old(disk).quarantine, disk.quarantine) && !r.CorruptFound?
                && (r.Completed? ==> CanFinish(env, project, old(disk), o, base, now) && Ended(o, true))
                && (r.Refused? ==> if CanFinish(env, project, old(disk), o, base, now) then Ended(o, false)
                                   else !Concluded(env, disk, o))
    {
      hide RestoredLegacy, Keyed, Valid, Build, KeyedTable, Listed, BuildLegacy, LegacyValid, Restorable, GoodProjector,
           Acceptable, OriginOK, Finished, Moving, Promoted, Window;
      if disk.marker.Some? {
        if UnderWay(env, disk, o) {
          SidecarsUnchanged(env, disk, o);
        }
        r := Resume(now, o);
        if disk.marker.Some? {
          ConcludedUnmarked(env, disk, o);
        }
        return;
      }
      r := Open(now, o);
      if r.CorruptFound? {
        UntouchedNotConcluded(env, disk, o);
        r := Start(base, now, o);
      }
    }

    /** Open with no marker in the way: the database is corrupt, or it is opened
        and both sidecars are written again. */
    method Open(now: string, ghost o: Origin) returns (r: Step)
      requires OriginOK(env, o) && disk.marker.None? && UnderWay(env, disk, o)
      modifies this`disk, this`budget
      ensures old(budget) < 0 ==> budget < 0 && !r.Interrupted?
      ensures Untouched(old(disk), o) ==> r.CorruptFound? && disk == old(disk)
      ensures Concluded(env, old(disk), o) ==>
                && UnderWay(env, disk, o) && disk.quarantine == old(disk).quarantine && !r.CorruptFound?
                && (r.Completed? ==> Ended(o, true)) && (r.Refused? ==> Ended(o, false))
    {
      OriginLegacyKeyed(env, o);
      hide RestoredLegacy, Keyed, Valid, Build, KeyedTable, Listed, BuildLegacy, LegacyValid, Acceptable, ParentsExist,
           LegacyKeyed, Finished, OriginOK, Ordered;
      ghost var m := Marker("", false);
      if Concluded(env, disk, o) {
        m :| Finished(env, disk, o, m);
        FinishedReadable(env, disk, o, m);
      } else {
        UntouchedReadable(env, disk, o);
      }
      r := OpenStore(true, now, OriginProjects(o));
      if Concluded(env, old(disk), o) {
        FinishedSidecars(env, old(disk), disk, o, m);
      }
      if r.Completed? {
        r := WriteSidecars();
        FinishedSidecars(env, old(disk), disk, o, m);
      }
    }

    /** Any number of runs that die somewhere or end, and then one that is not
        interrupted. before is the disk that run found. */
    method RecoverAfterCrashes(attempts: seq<Attempt>, base: string, now: string, ghost o: Origin)
      returns (r: Step, ghost before: Disk)
      requires OriginOK(env, o) && GoodProjector(project) && UnderWay(env, disk, o)
      modifies this`disk, this`budget
      ensures UnderWay(env, before, o) && UnderWay(env, disk, o)
      ensures MovesForward(old(disk).quarantine, disk.quarantine)
      ensures Concluded(env, disk, o) <==> CanFinish(env, project, before, o, base, now)
      ensures (r.Completed? || r.Refused?) && (r.Completed? <==> Ended(o, true))
      ensures Stranded(before) ==> r.Refused? && disk == before
      ensures !Stranded(before) && (before.marker.None? ==> CanStart(before, base)) &&
              Restorable(env, project, OriginLegacy(o), ScopedCopy(o), OriginProjects(o), now) ==>
                Concluded(env, disk, o)
    {
      hide RestoredLegacy, Keyed, Valid, Build, KeyedTable, Listed, BuildLegacy, LegacyValid, Restorable, GoodProjector,
           Acceptable, OriginOK, Finished, Moving, Promoted, Window, UnderWay, Concluded;
      for i := 0 to |attempts|
        invariant UnderWay(env, disk, o) && MovesForward(old(disk).quarantine, disk.quarantine)
      {
        budget := attempts[i].steps;
        r := OpenRecovering(attempts[i].base, attempts[i].now, o);
      }
      budget := -1;
      before := disk;
      FinishesFrom(env, project, before, o, base, now);
      r := OpenRecovering(base, now, o);
    }
  }

  lemma EndedConcludes(machine: Machine, o: Origin)
    ensures machine.Ended(o, true) ==> Concluded(machine.env, machine.disk, o)
  {
  }

  lemma UntouchedNotConcluded(env: Env, d: Disk, o: Origin)
    requires Untouched(d, o)
    ensures !Concluded(env, d, o)
  {
  }

  lemma NameTaken(d: Disk, base: string)
    requires exists s :: (base, s) in d.quarantine
    ensures !CanStart(d, base)
  {
    var s :| (base, s) in d.quarantine;
    assert s == Main || s == Wal || s == Shm;
  }

  /** A recovery begun without a binding gets one that says there were no connections. */
  lemma BindingAdded(env: Env, was: Disk, d: Disk, o: Origin, m: Marker)
    requires was.marker == Some(m) && was.binding.None? && was.home.projects.None? && UnderWay(env, was, o)
    requires d == was.(binding := Some(Binding(m.base, false, None))) || d == was
    ensures UnderWay(env, d, o) && Moving(env, d, o, m) && !Promoted(env, was, o, m)
  {
    hide Recovered, Listed, Build, Keyed;
  }

  lemma ConcludedUnmarked(env: Env, d: Disk, o: Origin)
    requires d.marker.Some?
    ensures !Concluded(env, d, o)
  {
  }

  /** One run that is cut off after some number of file steps. */
  datatype Attempt = Attempt(steps: nat, base: string, now: string)

  /** Nothing recovery itself does makes its own checks fail. */
  lemma SidecarsUnchanged(env: Env, d: Disk, o: Origin)
    requires OriginOK(env, o) && UnderWay(env, d, o)
    ensures !Changed(d)
  {
    NothingListed();
    hide Reconciled, Build, BuildLegacy, LegacyValid, Listed, Valid, ParentsExist, Keyed, KeyedTable, RestoredLegacy;
  }

  lemma UntouchedReadable(env: Env, d: Disk, o: Origin)
    requires OriginOK(env, o) && Untouched(d, o)
    ensures OpensCleanly(d.home, OriginProjects(o))
  {
    hide Valid, Build, BuildLegacy, LegacyValid, Listed, Ordered, Keyed;
    if o.scoped.Some? {
      BuildRows(o.scoped.value);
    }
  }

  lemma FinishedReadable(env: Env, d: Disk, o: Origin, m: Marker)
    requires OriginOK(env, o) && Finished(env, d, o, m)
    ensures Main in d.home.files && !Corrupt(d.home) && d.home.files[Main].Intact?
    ensures OpensCleanly(d.home, OriginProjects(o))
    ensures LegacyKeyed(d.home.files[Main].store.legacy) && Keyed(d.home.files[Main].store.scoped)
    ensures d.home.projects == Some(Listed(d.home.files[Main].store.connections))
  {
    hide Valid, Build, BuildLegacy, LegacyValid, Listed, Ordered, ParentsExist;
    BuildRows(d.home.files[Main].store.scoped);
    OriginLegacyKeyed(env, o);
  }

  /** Reopening a recovered database rewrites what its sidecars already say. */
  lemma FinishedSidecars(env: Env, was: Disk, d: Disk, o: Origin, m: Marker)
    requires Finished(env, was, o, m)
    requires d.(home := was.home) == was
    requires d.home.(legacy := was.home.legacy, scoped := was.home.scoped, adopted := was.home.adopted) == was.home
    requires d.home.legacy == was.home.legacy || d.home.legacy == Some(BuildLegacy(was.home.files[Main].store.legacy))
    requires d.home.scoped == was.home.scoped || d.home.scoped == Some(Build(was.home.files[Main].store.scoped))
    ensures Finished(env, d, o, m) && UnderWay(env, d, o) && Concluded(env, d, o)
    ensures Main in d.home.files && d.home.files[Main].Intact? && d.marker.None?
  {
    hide Build, BuildLegacy, LegacyValid, Listed, Valid, ParentsExist, Keyed;
  }

  /** Once a reconciled sidecar is on disk, rebuilding no longer projects anything. */
  lemma ReconciledRestorable(env: Env, f: Projector, d: Disk, o: Origin, now: string)
    requires Reconciled(env, d.home.scoped, o)
    ensures Restorable(env, f, OriginLegacy(o), d.home.scoped, OriginProjects(o), now)
  {
    hide Valid, Build, Listed, ParentsExist, Keyed;
    var u :| Keyed(u) && d.home.scoped.value == Build(u) && Valid(env, Build(u)) &&
             ParentsExist(u, Listed(OriginProjects(o)));
    assert StageOpens(f, d.home.scoped, now, u) && StageEnds(f, OriginLegacy(o), d.home.scoped, now, u, u);
  }

  /** If the origin can be restored, no interruption outside the window costs that. */
  lemma FinishesFrom(env: Env, f: Projector, d: Disk, o: Origin, base: string, now: string)
    requires OriginOK(env, o) && UnderWay(env, d, o)
    ensures !Stranded(d) && (d.marker.None? ==> CanStart(d, base)) &&
            Restorable(env, f, OriginLegacy(o), ScopedCopy(o), OriginProjects(o), now) ==>
              CanFinish(env, f, d, o, base, now)
  {
    hide Recovered, Build, BuildLegacy, LegacyValid, Listed, Restorable, Reconciled, Corrupt;
    if Reconciled(env, d.home.scoped, o) {
      ReconciledRestorable(env, f, d, o, now);
    }
  }

  /** Only the gap between the two removals of finalisation strands a recovery,
      and there the recovered database is already in place. */
  lemma StrandedIffWindow(env: Env, d: Disk, o: Origin)
    requires OriginOK(env, o) && UnderWay(env, d, o)
    ensures Stranded(d) <==> d.marker.Some? && Window(env, d, o, d.marker.value)
  {
    hide Recovered, Build, BuildLegacy, LegacyValid, Listed, Reconciled;
  }

  /** With a scoped sidecar, recovery is possible exactly when every connection's
      lens and agent are listed in it. */
  lemma RestorableFromSidecar(env: Env, f: Projector, o: Origin, now: string)
    requires OriginOK(env, o) && o.scoped.Some?
    ensures Restorable(env, f, OriginLegacy(o), ScopedCopy(o), OriginProjects(o), now) <==>
            ParentsExist(o.scoped.value, Listed(OriginProjects(o)))
  {
    var t := o.scoped.value;
    hide Valid, Build, Listed, Keyed;
    if ParentsExist(t, Listed(OriginProjects(o))) {
      RestorableIff(env, f, OriginLegacy(o), ScopedCopy(o), OriginProjects(o), now, t, t);
    }
    forall u | StageOpens(f, ScopedCopy(o), now, u) && ParentsExist(u, Listed(OriginProjects(o)))
      ensures ParentsExist(t, Listed(OriginProjects(o)))
    {
      SameOpening(f, ScopedCopy(o), now, t, u, OriginProjects(o));
    }
  }

  lemma NotBoth(env: Env, d: Disk, o: Origin, m: Marker)
    requires OriginOK(env, o)
    ensures !(Moving(env, d, o, m) && Promoted(env, d, o, m))
  {
  }

  /** The adoption marker is the only thing an open of a promoted database writes. */
  lemma AdoptionAside(env: Env, was: Disk, d: Disk, o: Origin, m: Marker)
    requires Promoted(env, was, o, m) && d == was.(home := was.home.(adopted := d.home.adopted))
    ensures Promoted(env, d, o, m) && UnderWay(env, d, o)
  {
    hide Recovered, Listed, Build;
  }

  lemma StageAside(env: Env, was: Disk, d: Disk, o: Origin, m: Marker)
    requires Moving(env, was, o, m) && d == was.(stage := d.stage)
    ensures Moving(env, d, o, m) && UnderWay(env, d, o) && d.marker == Some(m)
  {
  }

  lemma StillMoving(env: Env, d: Disk, o: Origin, m: Marker)
    requires Moving(env, d, o, m)
    ensures UnderWay(env, d, o)
  {
  }

  /** What InspectCanonical needs to know about a disk whose recovery is under way. */
  lemma SidecarsReadable(env: Env, d: Disk, o: Origin, m: Marker)
    requires OriginOK(env, o) && (Moving(env, d, o, m) || Promoted(env, d, o, m))
    ensures Main in d.home.files ==> OpensCleanly(d.home, OriginProjects(o))
    ensures d.home.scoped.Some? ==> Ordered(d.home.scoped.value)
    ensures CopyOf(d.home.projects, OriginProjects(o))
    ensures LegacyCopyOf(env, d.home.legacy, OriginLegacy(o))
    ensures Main in d.home.files && !Corrupt(d.home) ==>
              LegacyKeyed(d.home.files[Main].store.legacy) && Keyed(d.home.files[Main].store.scoped)
    ensures Promoted(env, d, o, m) ==>
              && Main in d.home.files && !Corrupt(d.home)
              && Matches(env, d.home.files[Main].store, d.home.legacy, d.home.scoped, d.home.projects)
  {
    hide Valid, Build, Ordered, Listed, Keyed, BuildLegacy, LegacyValid, ParentsExist, KeyedTable, LegacyKeyed;
    NothingListed();
    NothingBuilt();
    OriginLegacyKeyed(env, o);
    if Promoted(env, d, o, m) {
      BuildRows(d.home.files[Main].store.scoped);
    } else {
      ScopedCopyOrdered(env, d, o);
    }
  }

  lemma ScopedCopyOrdered(env: Env, d: Disk, o: Origin)
    requires OriginOK(env, o) && SidecarsKept(env, d, o)
    ensures d.home.scoped.Some? ==> Ordered(d.home.scoped.value)
  {
    hide Valid, Build, Ordered, Listed, Keyed, BuildLegacy, LegacyValid, ParentsExist, KeyedTable, LegacyKeyed,
         RestoredLegacy;
    if o.scoped.Some? {
      BuildRows(o.scoped.value);
    } else if d.home.scoped.Some? {
      var u :| Keyed(u) && d.home.scoped.value == Build(u);
      BuildRows(u);
    }
  }

  lemma NothingBuilt()
    ensures BuildLegacy(NO_LEGACY) == EMPTY_LEGACY
  {
    assert NO_LEGACY.lenses.Values == {} && NO_LEGACY.verdicts.Values == {};
  }

  /** The three comparisons recovery makes with the snapshots it read. */
  ghost predicate Matches(env: Env, s: Store, legacy: Option<LegacySnapshot>, scoped: Option<Snapshot>,
                          projects: Option<seq<Connection>>) {
    && LegacyValid(env, env.legacyID, s.legacy)
    && BuildLegacy(s.legacy) == (if legacy.Some? then legacy.value else EMPTY_LEGACY)
    && (scoped.Some? ==> Valid(env, Build(s.scoped)) && Build(s.scoped) == scoped.value)
    && Listed(s.connections) == (if projects.Some? then projects.value else [])
  }

  lemma OriginLegacyKeyed(env: Env, o: Origin)
    requires OriginOK(env, o)
    ensures RestoredLegacy(OriginLegacy(o)) && LegacyKeyed(OriginLegacy(o))
    ensures LegacyValid(env, env.legacyID, OriginLegacy(o))
    ensures LegacyCopyOf(env, LegacyCopy(o), OriginLegacy(o))
    ensures KeyedTable(OriginProjects(o)) && CopyOf(ProjectsCopy(o), OriginProjects(o))
  {
  }

  ghost predicate LegacyCopyOf(env: Env, legacy: Option<LegacySnapshot>, l: LegacyTables) {
    if legacy.Some? then RestoredLegacy(l) && LegacyValid(env, env.legacyID, l) && legacy.value == BuildLegacy(l)
    else l == NO_LEGACY
  }

  lemma LegacyCopyRestores(env: Env, l: LegacyTables)
    requires RestoredLegacy(l) && LegacyValid(env, env.legacyID, l)
    ensures var s := BuildLegacy(l);
            Ascending(LegacyLensLess, s.lenses) && Ascending(VerdictLess, s.verdicts) &&
              SnapshotOK(env, env.legacyID, s)
  {
    LegacyListed(l);
    SnapshotOKIff(env, env.legacyID, l);
  }

  lemma RestoredLegacyUnique(a: LegacyTables, b: LegacyTables)
    requires RestoredLegacy(a) && RestoredLegacy(b) && BuildLegacy(a) == BuildLegacy(b)
    ensures a == b
  {
    LegacyBuildInjective(a, b);
  }

  /** What a good projector promises of one projection. */
  lemma GoodOnce(f: Projector, l: LegacyTables, t: Tables, now: string)
    requires GoodProjector(f) && RestoredLegacy(l) && Unprojected(t) && f(l, t, now).Some?
    ensures var u := f(l, t, now).value;
            && Keyed(u) && t.lenses.Keys <= u.lenses.Keys && t.actors.Keys <= u.actors.Keys
            && (l == NO_LEGACY ==> Unprojected(u))
  {
    hide Keyed, Unprojected, RestoredLegacy;
  }

  lemma NothingProjects()
    ensures RestoredLegacy(NO_LEGACY) && Unprojected(EMPTY)
  {
  }

  lemma MoreParents(t: Tables, u: Tables, s: seq<Connection>)
    requires ParentsExist(t, s) && t.lenses.Keys <= u.lenses.Keys && t.actors.Keys <= u.actors.Keys
    ensures ParentsExist(u, s)
  {
  }

  lemma CopyRestored(env: Env, legacy: Option<LegacySnapshot>, l: LegacyTables)
    requires LegacyCopyOf(env, legacy, l)
    ensures RestoredLegacy(l)
  {
    hide BuildLegacy, LegacyValid;
  }

  lemma OpensWith(f: Projector, scoped: Option<Snapshot>, now: string, t: Tables)
    requires StageOpens(f, scoped, now, t)
    ensures if scoped.Some? then Keyed(t) else f(NO_LEGACY, EMPTY, now) == Some(t)
  {
    hide Keyed, Build;
  }

  lemma StageKeyed(env: Env, f: Projector, l: LegacyTables, legacy: Option<LegacySnapshot>, scoped: Option<Snapshot>,
                   now: string, t: Tables, c: Table)
    requires GoodProjector(f) && StageOpens(f, scoped, now, t) && ParentsExist(t, Listed(c)) &&
             LegacyCopyOf(env, legacy, l)
    ensures Keyed(t)
    ensures scoped.None? && f(l, t, now).Some? ==>
              Keyed(f(l, t, now).value) && ParentsExist(f(l, t, now).value, Listed(c))
  {
    hide *;
    NothingProjects();
    CopyRestored(env, legacy, l);
    OpensWith(f, scoped, now, t);
    if scoped.None? {
      GoodOnce(f, NO_LEGACY, EMPTY, now);
      if f(l, t, now).Some? {
        GoodOnce(f, l, t, now);
        MoreParents(t, f(l, t, now).value, Listed(c));
      }
    }
  }

  lemma StageEnding(f: Projector, l: LegacyTables, scoped: Option<Snapshot>, now: string, t: Tables, u: Tables,
                    c: Table)
    requires Keyed(t) && ParentsExist(t, Listed(c))
    requires scoped.None? && f(l, t, now).Some? ==>
               Keyed(f(l, t, now).value) && ParentsExist(f(l, t, now).value, Listed(c))
    requires if scoped.Some? then u == t else f(l, t, now) == Some(u)
    ensures StageEnds(f, l, scoped, now, t, u) && Keyed(u) && ParentsExist(u, Listed(c))
  {
    hide Keyed, ParentsExist, Listed;
  }

  lemma NotRestorable(env: Env, f: Projector, l: LegacyTables, scoped: Option<Snapshot>, c: Table, now: string)
    requires forall t :: StageOpens(f, scoped, now, t) && ParentsExist(t, Listed(c)) ==>
                           scoped.Some? && !Valid(env, scoped.value)
    ensures !Restorable(env, f, l, scoped, c, now)
  {
    hide Valid, Listed, ParentsExist, Keyed, Build;
  }

  /** The stage has no choices, so what it comes to decides whether it can be built. */
  lemma RestorableIff(env: Env, f: Projector, l: LegacyTables, scoped: Option<Snapshot>, c: Table, now: string,
                      t: Tables, u: Tables)
    requires StageOpens(f, scoped, now, t) && ParentsExist(t, Listed(c)) && StageEnds(f, l, scoped, now, t, u)
    ensures Restorable(env, f, l, scoped, c, now) <==> Valid(env, Build(u))
  {
    hide Valid, Listed, ParentsExist, Keyed, Build;
  }

  lemma ProjectionRefused(env: Env, f: Projector, l: LegacyTables, scoped: Option<Snapshot>, c: Table, now: string,
                          t: Tables)
    requires StageOpens(f, scoped, now, t) && scoped.None? && f(l, t, now).None?
    ensures !Restorable(env, f, l, scoped, c, now)
  {
    hide Valid, Listed, ParentsExist, Keyed, Build;
  }

  lemma StageRecovered(env: Env, f: Projector, l: LegacyTables, scoped: Option<Snapshot>, c: Table, now: string,
                       t: Tables, s: Store)
    requires StageOpens(f, scoped, now, t) && StageEnds(f, l, scoped, now, t, s.scoped)
    requires s == Store(l, s.scoped, true, c, true) && Keyed(s.scoped) && ParentsExist(s.scoped, Listed(c))
    ensures Valid(env, Build(s.scoped)) ==> Recovered(env, s, l, scoped, c)
  {
    hide Valid, Listed, ParentsExist, Keyed, Build;
  }

  /** The sidecar that lists a table, or none for an empty one. */
  ghost predicate CopyOf(sidecar: Option<seq<Connection>>, c: Table) {
    if sidecar.Some? then sidecar.value == Listed(c) else c == map[]
  }

  /** An open of an initialised database: corruption reported and nothing touched,
      or at most the adoption marker written. */
  ghost predicate ConnectionsChecked(was: Site, site: Site, r: Step)
    requires Main in was.files && was.files[Main].Intact?
  {
    if was.projects == Some(Listed(was.files[Main].store.connections)) then
      && (r.Completed? || r.Interrupted?)
      && site.(adopted := was.adopted) == was && (r.Completed? ==> site.adopted)
    else
      r.CorruptFound? && site == was
  }

  /** A database recovery may open: initialised, or not there at all. */
  ghost predicate OpensCleanly(site: Site, c: Table) {
    && KeyedTable(c) && (site.scoped.Some? ==> Ordered(site.scoped.value))
    && (if Main in site.files then
          site.files[Main].Intact? ==>
            var s := site.files[Main].store; s.scopedMarked && s.connectionsMarked && KeyedTable(s.connections)
        else site.files == map[] && CopyOf(site.projects, c))
  }

  lemma NothingListed()
    ensures Listed(map[]) == []
  {
    var t: Table := map[];
    assert t.Values == {};
  }

  method InsertConnections(t: Tables, rows: seq<Connection>, ghost c: Table) returns (ok: bool, table: Table)
    requires KeyedTable(c) && rows == Listed(c)
    ensures ok <==> ParentsExist(t, rows)
    ensures ok ==> table == c
  {
    ok, table := InsertRows((r: Connection) => (r.scopeID, r.lensID) in t.lenses && r.agentID in t.actors,
                            ConnectionKey, rows);
    ConnectionOrder(c);
    ListedRows(ConnectionLess, ConnectionKey, c);
    ListingAscending(ConnectionLess, c.Values);
    hide ConnectionLess;
    if ok {
      KeyedMapsEqual(table, c, ConnectionKey);
    }
  }

  /** The sidecar of keyed tables lists its runs' parents. */
  lemma OpeningParents(f: Projector, s: Snapshot, now: string, t: Tables)
    requires StageOpens(f, Some(s), now, t)
    ensures ParentsListed(s)
  {
    BuiltParents(t);
  }

  /** A stage can open one way only, as far as the connections' parents go. */
  lemma SameOpening(f: Projector, scoped: Option<Snapshot>, now: string, t: Tables, u: Tables, c: Table)
    requires StageOpens(f, scoped, now, t) && StageOpens(f, scoped, now, u)
    ensures t.(sources := u.sources) == u
    ensures ParentsExist(t, Listed(c)) <==> ParentsExist(u, Listed(c))
  {
    if scoped.Some? {
      BuildInjective(t, u);
    }
  }

  /** A file that is still in place has not been quarantined. */
  lemma NameFree(env: Env, d: Disk, o: Origin, m: Marker, s: Suffix)
    requires Moving(env, d, o, m) && s in d.home.files
    ensures (m.base, s) !in d.quarantine
  {
    hide SidecarsKept, RecoveryDisk.Bound, Corrupt;
  }

  lemma AllAside(env: Env, d: Disk, o: Origin, m: Marker)
    requires Moving(env, d, o, m) && d.home.files == map[]
    ensures Quarantined(d, o, m)
  {
    hide SidecarsKept, RecoveryDisk.Bound, Corrupt;
  }

  lemma MovedStays(env: Env, d: Disk, next: Disk, o: Origin, m: Marker, s: Suffix)
    requires Moving(env, d, o, m) && s in d.home.files && (m.base, s) !in d.quarantine
    requires next == d.(home := d.home.(files := d.home.files - {s}),
                        quarantine := d.quarantine[(m.base, s) := d.home.files[s]])
    requires s == Main || Main !in d.home.files
    ensures Moving(env, next, o, m)
  {
    hide Reconciled, LegacyCopy, ScopedCopy, ProjectsCopy;
  }
}
