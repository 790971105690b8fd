/** What recovery starts from and what it leaves, written out file by file. */
module RecoveryLaws {
  import opened Ordering
  import opened ScopedModel
  import opened LegacyModel
  import opened ProjectConnections
  import opened RecoveryDisk
  import opened Recovery

  /** One complete database at the canonical path, with the unscoped rows and the
      connections there were, and each connection's lens and agent. */
  ghost predicate Whole(o: Origin, d: Disk) {
    && d.home.files.Keys == {Main} && d.home.files[Main].Intact?
    && var s := d.home.files[Main].store;
       && s.legacy == (if o.legacy.Some? then o.legacy.value else NO_LEGACY)
       && s.connections == (if o.projects.Some? then o.projects.value else map[])
       && s.scopedMarked && s.connectionsMarked && Backed(s.scoped, s.connections)
       && d.home.scoped == Some(Build(s.scoped)) && d.home.projects == Some(Listed(s.connections))
  }

  /** Every connection is to a stored lens and a stored agent. */
  ghost predicate Backed(t: Tables, connections: Table) {
    forall k :: k in connections ==>
      (connections[k].scopeID, connections[k].lensID) in t.lenses && connections[k].agentID in t.actors
  }

  /** If there was a scoped sidecar, every row it listed is stored again. */
  ghost predicate ScopedBack(o: Origin, d: Disk)
    requires Whole(o, d)
  {
    o.scoped.Some? ==>
      var s, was := d.home.files[Main].store.scoped, o.scoped.value;
      && s.scopes == was.scopes && s.lenses == was.lenses && s.actors == was.actors && s.runs == was.runs
      && s.candidates == was.candidates && s.judgments == was.judgments
  }

  /** Every file there was is kept under the quarantine name. */
  ghost predicate Aside(o: Origin, d: Disk, name: string) {
    forall s :: s in o.files ==> (name, s) in d.quarantine && d.quarantine[(name, s)] == o.files[s]
  }

  lemma ParentsIff(t: Tables, connections: Table)
    requires KeyedTable(connections)
    ensures ParentsExist(t, Listed(connections)) <==> Backed(t, connections)
  {
    ConnectionOrder(connections);
    ListingAscending(ConnectionLess, connections.Values);
    assert Rows(Listed(connections)) == connections.Values;
    hide KeyedTable, Listed;
    if ParentsExist(t, Listed(connections)) {
      forall k | k in connections
        ensures (connections[k].scopeID, connections[k].lensID) in t.lenses && connections[k].agentID in t.actors
      {
        assert connections[k] in Rows(Listed(connections));
      }
    }
    if Backed(t, connections) {
      forall c | c in Listed(connections) ensures (c.scopeID, c.lensID) in t.lenses && c.agentID in t.actors {
        assert c in connections.Values;
        var k :| k in connections && connections[k] == c;
      }
    }
  }

  /** What a concluded recovery has left. */
  lemma ConcludedSays(env: Env, d: Disk, o: Origin) returns (name: string)
    requires OriginOK(env, o) && Concluded(env, d, o)
    ensures d.marker.None? && d.binding.None?
    ensures Whole(o, d) && ScopedBack(o, d) && Aside(o, d, name)
  {
    var m :| Finished(env, d, o, m);
    name := m.base;
    var s := d.home.files[Main].store;
    assert KeyedTable(s.connections);
    ParentsIff(s.scoped, s.connections);
    if o.scoped.Some? {
      BuildInjective(s.scoped, o.scoped.value);
    }
    hide Build, Listed, Valid, Keyed, ParentsExist, Backed, BuildLegacy, LegacyValid, RestoredLegacy, KeyedTable;
  }

  /** A disk a run can go on from: with a marker, one whose binding is there or that
      never had a connection; without, one whose quarantine name is free. */
  ghost predicate Startable(d: Disk, base: string) {
    if d.marker.Some? then
      d.binding.Some? || (!d.home.adopted && d.home.projects.None?)
    else
      (d.home.adopted ==> d.home.projects.Some?) && forall s :: (base, s) !in d.quarantine
  }

  /** Any number of attempts die at any file step, and one more runs through. If it
      concludes, everything that was acknowledged is there again and everything that
      was on the path is kept; and if there was a scoped sidecar that lists each
      connection's lens and agent, it does conclude. */
  method RecoverWhole(machine: Machine, attempts: seq<Attempt>, base: string, now: string, ghost o: Origin)
    returns (r: Step, ghost before: Disk, ghost over: bool, ghost name: string)
    requires OriginOK(machine.env, o) && GoodProjector(machine.project) && UnderWay(machine.env, machine.disk, o)
    modifies machine
    ensures r.Completed? ==> over
    ensures over ==>
              && machine.disk.marker.None? && machine.disk.binding.None?
              && Whole(o, machine.disk) && ScopedBack(o, machine.disk) && Aside(o, machine.disk, name)
    ensures var connections := if o.projects.Some? then o.projects.value else map[];
            o.scoped.Some? && Startable(before, base) && Backed(o.scoped.value, connections) ==> over
    ensures before.marker.Some? && !Startable(before, base) ==> !over && machine.disk == before
  {
    hide *;
    r, before := machine.RecoverAfterCrashes(attempts, base, now, o);
    over, name := Concluded(machine.env, machine.disk, o), "";
    EndedConcludes(machine, o);
    if over {
      name := ConcludedSays(machine.env, machine.disk, o);
    }
    StartableIff(before, base);
    if Stranded(before) {
      StrandedMarked(machine.env, before, o);
    }
    if o.scoped.Some? {
      RestorableIfBacked(machine.env, machine.project, o, now);
    }
  }

  lemma StartableIff(d: Disk, base: string)
    ensures Startable(d, base) <==> !Stranded(d) && (d.marker.None? ==> CanStart(d, base))
    ensures d.marker.Some? ==> (Startable(d, base) <==> !Stranded(d))
  {
    if CanStart(d, base) {
      forall s: Suffix ensures (base, s) !in d.quarantine {
        match s case Main => case Wal => case Shm =>
      }
    }
  }

  lemma StrandedMarked(env: Env, d: Disk, o: Origin)
    requires Stranded(d)
    ensures !Concluded(env, d, o)
  {
    hide Quarantined, Installed;
  }

  lemma RestorableIfBacked(env: Env, f: Projector, o: Origin, now: string)
    requires OriginOK(env, o) && o.scoped.Some?
    ensures var connections := if o.projects.Some? then o.projects.value else map[];
            Backed(o.scoped.value, connections) ==>
              Restorable(env, f, OriginLegacy(o), ScopedCopy(o), OriginProjects(o), now)
  {
    RestorableFromSidecar(env, f, o, now);
    ParentsIff(o.scoped.value, OriginProjects(o));
    hide Restorable, Backed, ParentsExist, Listed, Build, Valid, Keyed, LegacyValid, RestoredLegacy;
  }
}
