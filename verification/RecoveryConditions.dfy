/** When the projection the stage needs is the one the store performs. */
module RecoveryConditions {
  import opened Ordering
  import opened ScopedModel
  import opened LegacyModel
  import opened LegacyProjection
  import opened ProjectConnections
  import opened RecoveryDisk
  import opened Recovery

  /** The eight statements commit together unless the candidate copy breaks a unique key. */
  ghost predicate Performs(f: Projector) {
    forall l, t, now :: f(l, t, now) ==
      if CopyFits(l, Projected(l, t, now)) then Some(Projected(l, t, now)) else None
  }

  /** Projecting no legacy rows leaves only the reserved ones. */
  lemma NothingProjected(t: Tables, now: string)
    requires Unprojected(t)
    ensures var u := Projected(NO_LEGACY, t, now);
            && Unprojected(u) && CopyFits(NO_LEGACY, u) && u.lenses == map[]
            && u.scopes == Seeded(t, now).scopes && u.actors == Seeded(t, now).actors
  {
    hide Projected, Seeded, RootLens, HeaderOf, RebuiltHeader, FilledOut, Grouped, Scoped;
    ProjectedShape(NO_LEGACY, t, now);
    SeededReserved(t, now);
    var u := Projected(NO_LEGACY, t, now);
    assert JudgedRuns(NO_LEGACY) == {};
    forall k ensures k !in u.lenses && k.1 !in u.runs && k.1 !in u.candidates && k.1 !in u.judgments {
    }
    forall k: string ensures k !in u.runs && k !in u.candidates && k !in u.judgments {
      assert (k, k).1 !in u.runs;
    }
  }

  lemma PerformsWell(f: Projector)
    requires Performs(f)
    ensures GoodProjector(f)
  {
    hide Projected, Shaped, CopyFits, Keyed, Seeded;
    forall l, t, now | RestoredLegacy(l) && Unprojected(t) && f(l, t, now).Some?
      ensures var u := f(l, t, now).value;
              && Keyed(u) && t.lenses.Keys <= u.lenses.Keys && t.actors.Keys <= u.actors.Keys
              && (l == NO_LEGACY ==> Unprojected(u))
    {
      PerformedKeyed(l, t, now);
      if l == NO_LEGACY {
        NothingProjected(t, now);
      }
    }
  }

  lemma PerformedKeyed(l: LegacyTables, t: Tables, now: string)
    requires RestoredLegacy(l) && Unprojected(t)
    ensures var u := Projected(l, t, now);
            && (CopyFits(l, u) ==> Keyed(u)) && t.lenses.Keys <= u.lenses.Keys && t.actors.Keys <= u.actors.Keys
  {
    hide Projected, CopyFits, Keyed, Seeded;
    SeededReserved(t, now);
    ProjectedShape(l, t, now);
    ShapedKeyed(l, Seeded(t, now), Projected(l, t, now));
    hide FilledOut, RebuiltHeader, HeaderOf, RootLens, Grouped;
  }

  lemma NoneListed(c: Table)
    requires KeyedTable(c)
    ensures Listed(c) == [] <==> c == map[]
  {
    ConnectionOrder(c);
    ListingAscending(ConnectionLess, c.Values);
    RowsEmpty(Listed(c));
    if c != map[] {
      var d :| d in c;
      assert c[d] in c.Values;
    }
  }

  lemma NoParents(t: Tables, s: seq<Connection>)
    requires t.lenses == map[]
    ensures ParentsExist(t, s) <==> s == []
  {
    if s != [] {
      assert (s[0].scopeID, s[0].lensID) !in t.lenses;
    }
  }

  /** Without a scoped sidecar, recovery is possible exactly when no connection
      was acknowledged and the legacy state can be projected: every judgment's
      lens was kept, each judged run has one lens, and its records fit. */
  lemma RestorableFromLegacy(env: Env, id: string -> string, f: Projector, o: Origin, now: string)
    requires OriginOK(env, o) && Performs(f) && o.scoped.None?
    requires Sound(env, id, OriginLegacy(o)) && Reserved(env, Seeded(EMPTY, now))
    ensures Restorable(env, f, OriginLegacy(o), ScopedCopy(o), OriginProjects(o), now) <==>
            var l := OriginLegacy(o);
            OriginProjects(o) == map[] && LensesExist(l) && OneLens(l) && RanksFit(l)
  {
    var l, c := OriginLegacy(o), OriginProjects(o);
    var t := Projected(NO_LEGACY, EMPTY, now);
    var u := Projected(l, t, now);
    hide Projected, Sound, Valid, Build, Reserved, LensesExist, OneLens, RanksFit, Listed, CopyFits;
    NothingProjected(EMPTY, now);
    NoneListed(c);
    NoParents(t, Listed(c));
    SeededTwice(env, t, now);
    ProjectionAccepted(env, id, l, t, now);
    assert StageOpens(f, None, now, t);
    if c == map[] && LensesExist(l) && OneLens(l) && RanksFit(l) {
      assert StageEnds(f, l, None, now, t, u) && ParentsExist(t, Listed(c));
    }
    forall t', u' | StageOpens(f, None, now, t') && ParentsExist(t', Listed(c)) &&
                    StageEnds(f, l, None, now, t', u') && Valid(env, Build(u'))
      ensures Listed(c) == [] && t' == t && u' == u && CopyFits(l, u)
    {
    }
  }

  lemma SeededTwice(env: Env, t: Tables, now: string)
    requires Reserved(env, Seeded(EMPTY, now)) && Unprojected(t)
    requires t.scopes == Seeded(EMPTY, now).scopes && t.actors == Seeded(EMPTY, now).actors
    ensures Reserved(env, Seeded(t, now))
  {
    hide ScopeOK, ActorOK;
    assert Seeded(t, now).scopes == t.scopes && Seeded(t, now).actors == t.actors;
  }

  /** What callers were answered about connections survives recovery: the sidecar
      carries it, and the recovered table is what the sidecar lists. */
  lemma AnsweredSurvives(env: Env, d: Disk, o: Origin, answered: Table)
    requires OriginOK(env, o) && Concluded(env, d, o)
    requires o.projects.Some? && Carries(answered, o.projects.value)
    ensures Main in d.home.files && d.home.files[Main].Intact?
    ensures Carries(answered, d.home.files[Main].store.connections)
    ensures d.home.projects == Some(Listed(d.home.files[Main].store.connections))
  {
    hide Carries, Listed, Build, BuildLegacy, Valid, ParentsExist, Keyed, RestoredLegacy, LegacyValid, Quarantined;
  }

  /** The same digest for the same scope, lens and agent since the same time; and the
      very same row, if it was archived. */
  predicate StillAs(answered: Connection, c: Connection) {
    && (c.digest, c.scopeID, c.lensID, c.agentID, c.createdAt) ==
       (answered.digest, answered.scopeID, answered.lensID, answered.agentID, answered.createdAt)
    && (answered.status == Archived ==> c == answered)
  }

  lemma AllStillAs(answered: Table, stored: Table)
    requires Carries(answered, stored)
    ensures forall d :: d in answered ==> d in stored && StillAs(answered[d], stored[d])
  {
  }

  /** Every acknowledged connection is back after any number of crashes, once recovery
      is over, and is still bound as it was answered: also where the finished recovery
      reports an error because the scoped snapshot is over its limit. */
  method RecoverAnswered(links: Connections, machine: Machine, attempts: seq<Attempt>, base: string, now: string,
                         ghost o: Origin)
    returns (r: Step)
    requires links.Valid() && o.projects == Some(links.mirror)
    requires OriginOK(machine.env, o) && GoodProjector(machine.project) && UnderWay(machine.env, machine.disk, o)
    modifies machine
    ensures r.Completed? ==> Concluded(machine.env, machine.disk, o)
    ensures Concluded(machine.env, machine.disk, o) ==>
              && Main in machine.disk.home.files && machine.disk.home.files[Main].Intact?
              && var stored := machine.disk.home.files[Main].store.connections;
                 forall d :: d in links.answered ==> d in stored && StillAs(links.answered[d], stored[d])
  {
    AnsweredMirrored(links);
    hide *;
    ghost var before;
    r, before := machine.RecoverAfterCrashes(attempts, base, now, o);
    EndedConcludes(machine, o);
    if Concluded(machine.env, machine.disk, o) {
      AnsweredSurvives(machine.env, machine.disk, o, links.answered);
      AllStillAs(links.answered, machine.disk.home.files[Main].store.connections);
    }
  }

  lemma AnsweredMirrored(links: Connections)
    requires links.Valid()
    ensures Carries(links.answered, links.mirror)
  {
    hide KeyedTable, Listed, Carries, Encodable;
  }

  /** Recovery never goes on from another connection sidecar than the one it started
      from: whatever else is on the disk, every open is refused and changes nothing. */
  method ReplacedRefused(machine: Machine, base: string, now: string, ghost o: Origin) returns (r: Step)
    requires OriginOK(machine.env, o) && GoodProjector(machine.project)
    requires machine.disk.marker.Some? && machine.disk.binding.Some?
    requires var b, sidecar := machine.disk.binding.value, machine.disk.home.projects;
             if b.adopted then sidecar.None? || b.projects != sidecar else sidecar.Some? && sidecar.value != []
    modifies machine
    ensures r.Refused? && machine.disk == old(machine.disk)
  {
    hide OriginOK, GoodProjector, UnderWay;
    r := machine.OpenRecovering(base, now, o);
  }

  /** The same for an unscoped sidecar that appeared or went away. */
  method PresenceRefused(machine: Machine, base: string, now: string, ghost o: Origin) returns (r: Step)
    requires OriginOK(machine.env, o) && GoodProjector(machine.project)
    requires machine.disk.marker.Some? && machine.disk.marker.value.snapshotPresent != machine.disk.home.legacy.Some?
    modifies machine
    ensures r.Refused? && machine.disk == old(machine.disk)
  {
    hide OriginOK, GoodProjector, UnderWay;
    r := machine.OpenRecovering(base, now, o);
  }

  /** Nor does it go on without a binding once connections were initialised, or from a
      connection sidecar that no binding names. */
  method UnboundRefused(machine: Machine, base: string, now: string, ghost o: Origin) returns (r: Step)
    requires OriginOK(machine.env, o) && GoodProjector(machine.project)
    requires machine.disk.marker.Some? && machine.disk.binding.None?
    requires machine.disk.home.adopted || machine.disk.home.projects.Some?
    modifies machine
    ensures r.Refused? && machine.disk == old(machine.disk)
  {
    hide OriginOK, GoodProjector, UnderWay;
    r := machine.OpenRecovering(base, now, o);
  }
}
