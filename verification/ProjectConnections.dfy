/** Project connections: a table, the sidecar that recovery trusts, and the
    pending mutation that blocks everything else while the two may differ. */
module ProjectConnections {
  import opened Text
  import opened Ordering
  import opened ScopedModel
  import opened ScopedRecovery
  import opened ScopedStore
  import opened Feedback

  const MAXIMUM := 256
  const BYTE_LIMIT := 262144

  datatype Connection = Connection(digest: string, scopeID: string, lensID: string, agentID: string,
                                   status: Status, createdAt: string, updatedAt: string)

  /** The secret scanner, the timestamp syntax and the encoder, left opaque. */
  datatype Rules = Rules(secretLike: string -> bool, timeOK: string -> bool, encodedSize: seq<Connection> -> nat)

  function ConnectionKey(c: Connection): string { c.digest }
  predicate ConnectionLess(a: Connection, b: Connection) { Before(a.digest, b.digest) }

  type Table = map<string, Connection>

  ghost predicate KeyedTable(t: Table) {
    forall d :: d in t ==> ConnectionKey(t[d]) == d
  }

  ghost function Listed(t: Table): seq<Connection> {
    Listing(ConnectionLess, t.Values)
  }

  lemma ConnectionOrder(t: Table)
    ensures StrictOrder(ConnectionLess)
    ensures KeyedTable(t) ==> Comparable(ConnectionLess, t.Values)
  {
    BeforeIsOrder();
  }

  lemma ListedInjective(t: Table, u: Table)
    requires KeyedTable(t) && KeyedTable(u) && Listed(t) == Listed(u)
    ensures t == u
  {
    ConnectionOrder(t);
    ConnectionOrder(u);
    ListingAscending(ConnectionLess, t.Values);
    ListingAscending(ConnectionLess, u.Values);
    KeyedMapsEqual(t, u, ConnectionKey);
  }

  predicate FineConnection(r: Rules, c: Connection) {
    && HexDigest(c.digest)
    && Bounded(c.scopeID, 256) && Bounded(c.lensID, 256) && Bounded(c.agentID, 256)
    && ValidStatus(c.status) && r.timeOK(c.createdAt) && r.timeOK(c.updatedAt)
    && !r.secretLike(c.scopeID) && !r.secretLike(c.lensID) && !r.secretLike(c.agentID)
    && !r.secretLike(c.createdAt) && !r.secretLike(c.updatedAt)
  }

  /** validateProjectConnectionRecoverySnapshot and the byte limit of its encoding. */
  predicate Encodable(r: Rules, s: seq<Connection>) {
    && |s| <= MAXIMUM && (forall i :: 0 <= i < |s| ==> FineConnection(r, s[i]))
    && (forall i, j :: 0 <= i < j < |s| ==> s[i].digest != s[j].digest)
    && r.encodedSize(s) <= BYTE_LIMIT
  }

  method CanEncode(r: Rules, s: seq<Connection>) returns (ok: bool)
    ensures ok <==> Encodable(r, s)
  {
    if |s| > MAXIMUM {
      return false;
    }
    var digests;
    ok, digests := ScanRows((c: Connection) => FineConnection(r, c), ConnectionKey, ConnectionKey, s);
    hide FineConnection;
    assert (forall i, j :: 0 <= i < j < |s| ==> s[i].digest != s[j].digest) <==>
           (forall i, j :: 0 <= i < j < |s| ==> ConnectionKey(s[i]) != ConnectionKey(s[j]));
    ok := ok && r.encodedSize(s) <= BYTE_LIMIT;
  }

  method SelectConnections(t: Table) returns (s: seq<Connection>)
    requires KeyedTable(t)
    ensures s == Listed(t)
  {
    ConnectionOrder(t);
    s := SelectOrdered(ConnectionLess, t.Values);
  }

  /** The row a proposal becomes: an existing row keeps its creation time. */
  function Proposed(t: Table, c: Connection): Connection {
    if c.digest in t then c.(createdAt := t[c.digest].createdAt) else c
  }

  lemma SplicedConnections(t: Table, k: nat, c: Connection)
    requires KeyedTable(t) && k <= |Listed(t)|
    requires k < |Listed(t)| ==> ConnectionKey(Listed(t)[k]) == c.digest
    requires forall i :: 0 <= i < k ==> ConnectionKey(Listed(t)[i]) != c.digest
    ensures k < |Listed(t)| <==> c.digest in t
    ensures k < |Listed(t)| ==> Listed(t)[k] == t[c.digest]
    ensures forall row: Connection :: row.digest == c.digest ==>
              Sorted(ConnectionLess, Spliced(Listed(t), k, row)) == Listed(t[c.digest := row])
  {
    var s := Listed(t);
    ConnectionOrder(t);
    ListedRows(ConnectionLess, ConnectionKey, t);
    if c.digest in t {
      var i :| 0 <= i < |s| && s[i] == t[c.digest];
    }
    forall row: Connection | row.digest == c.digest
      ensures Sorted(ConnectionLess, Spliced(s, k, row)) == Listed(t[c.digest := row])
    {
      ConnectionOrder(t[c.digest := row]);
      SplicedListing(ConnectionLess, ConnectionKey, s, t, k, row);
    }
  }

  /** projectConnectionSnapshotWith, over the snapshot the table gives: the result
      is the snapshot of the table after the row is written. */
  method SnapshotWith(t: Table, c: Connection) returns (s: seq<Connection>)
    requires KeyedTable(t)
    ensures s == Listed(t[c.digest := Proposed(t, c)])
  {
    s := SelectConnections(t);
    var k := IndexOf(ConnectionKey, s, c.digest);
    SplicedConnections(t, k, c);
    var row := if k < |s| then c.(createdAt := s[k].createdAt) else c;
    s := Sorted(ConnectionLess, Spliced(s, k, row));
  }

  // ---------------------------------------------------- what must never change

  /** Same binding, and an archived connection stays archived. */
  predicate Continues(before: Connection, after: Connection) {
    && after.digest == before.digest && after.scopeID == before.scopeID && after.lensID == before.lensID
    && after.agentID == before.agentID && after.createdAt == before.createdAt
    && (before.status.Archived? ==> after == before)
  }

  ghost predicate Carries(before: Table, after: Table) {
    forall d :: d in before ==> d in after && Continues(before[d], after[d])
  }

  lemma CarriesThrough(a: Table, b: Table, c: Table)
    requires Carries(a, b) && Carries(b, c)
    ensures Carries(a, c)
  {
  }

  lemma CarriesAnswer(answered: Table, table: Table, c: Connection)
    requires Carries(answered, table) && c.digest in table && table[c.digest] == c
    ensures Carries(answered[c.digest := c], table) && Carries(answered, answered[c.digest := c])
  {
  }

  /** Writing one row that continues the old one, or a new one, carries the table. */
  lemma CarriesWrite(mirror: Table, table: Table, c: Connection)
    requires Carries(mirror, table) && (c.digest in table ==> Continues(table[c.digest], c))
    ensures Carries(mirror, table[c.digest := c]) && Carries(table, table[c.digest := c])
  {
  }

  lemma WriteKept(t: Table, c: Connection)
    requires KeyedTable(t)
    ensures KeyedTable(t[c.digest := c]) && SameExcept(t, t[c.digest := c], c.digest)
  {
  }

  lemma SameAsItself(t: Table, digest: string)
    ensures SameExcept(t, t, digest)
  {
  }

  lemma AnsweredKeyed(t: Table, c: Connection)
    requires KeyedTable(t)
    ensures KeyedTable(t[c.digest := c])
  {
  }

  ghost predicate SameExcept(t: Table, u: Table, digest: string) {
    forall d :: d != digest ==> (d in t <==> d in u) && (d in t ==> t[d] == u[d])
  }

  datatype Operation = Bind | Archive
  datatype Pending = Pending(operation: Operation, connection: Connection)
  datatype Answer = Done(connection: Connection, replayed: bool) | NotFound | Conflict | ArchivedAlready
                  | OutcomeUnknown | Invalid

  /** The call repeats the mutation whose outcome is unknown. */
  predicate Repeats(p: Pending, operation: Operation, digest: string) {
    && p.operation == operation && p.connection.digest == digest
    && (if operation.Bind? then p.connection.status.Active? else p.connection.status.Archived?)
  }

  function BoundTo(c: Connection): Context {
    Context(c.scopeID, c.lensID, c.agentID)
  }

  /** The row a mutation writes, if it writes one: a digest not bound before, or
      an active one that is archived, when the listing still fits. */
  ghost function Written(r: Rules, t: Table, c: Connection): Option<Connection> {
    if Encodable(r, Listed(t[c.digest := c])) then Some(c) else None
  }

  ghost function BindAnswer(r: Rules, t: Table, pending: Option<Pending>, digest: string, context: Option<Context>,
                            now: string, clean: bool): Answer
  {
    if !HexDigest(digest) || context.None? then Invalid
    else if pending.Some? then
      if Repeats(pending.value, Bind, digest) && BoundTo(pending.value.connection) == context.value && clean
      then Done(pending.value.connection, true) else OutcomeUnknown
    else if digest in t then
      if t[digest].status.Archived? then ArchivedAlready
      else if BoundTo(t[digest]) != context.value then Conflict
      else if clean then Done(t[digest], true) else OutcomeUnknown
    else if Written(r, t, Bound(digest, context.value, now)).None? then Invalid
    else if clean then Done(Bound(digest, context.value, now), false) else OutcomeUnknown
  }

  function Bound(digest: string, b: Context, now: string): Connection {
    Connection(digest, b.scopeID, b.lensID, b.agentID, Active, now, now)
  }

  ghost function ArchiveAnswer(r: Rules, t: Table, pending: Option<Pending>, digest: string, now: string,
                               clean: bool): Answer {
    if !HexDigest(digest) then Invalid
    else if pending.Some? then
      if Repeats(pending.value, Archive, digest) && clean then Done(pending.value.connection, true) else OutcomeUnknown
    else if digest !in t then NotFound
    else if t[digest].status.Archived? then
      if clean then Done(t[digest], true) else OutcomeUnknown
    else
      var c := t[digest].(status := Archived, updatedAt := now);
      if Written(r, t, c).None? then Invalid
      else if clean then Done(c, false) else OutcomeUnknown
  }

  class Connections {
    const rules: Rules
    var table: Table
    var sidecar: seq<Connection>
    var pending: Option<Pending>
    /** The table the sidecar lists. */
    ghost var mirror: Table
    /** The last answer each digest's callers were given: returned by Bind or
        Archive as done, or returned by Resolve. */
    ghost var answered: Table

    ghost predicate Valid()
      reads this
    {
      && KeyedTable(table) && KeyedTable(mirror) && KeyedTable(answered) && sidecar == Listed(mirror)
      && Encodable(rules, Listed(table)) && Encodable(rules, sidecar)
      && (pending.None? ==> mirror == table)
      && (pending.Some? ==>
            var c := pending.value.connection;
            && SameExcept(mirror, table, c.digest) && c.digest in table && table[c.digest] == c
            && (pending.value.operation.Archive? <==> c.status.Archived?))
      && Carries(mirror, table) && Carries(answered, mirror)
    }

    /** An empty, adopted store. */
    constructor (rules: Rules)
      requires rules.encodedSize([]) <= BYTE_LIMIT
      ensures Valid() && this.rules == rules && table == map[] && answered == map[] && pending == None
    {
      this.rules := rules;
      table, sidecar, pending, mirror, answered := map[], [], None, map[], map[];
      new;
      assert table.Values == {};
    }

    /** writeProjectConnectionRecoverySnapshot: the table's listing is encoded and written. */
    method WriteSidecar(fault: Fault) returns (ok: bool)
      requires KeyedTable(table)
      modifies this`sidecar, this`mirror
      ensures ok <==> fault.Clean? && Encodable(rules, Listed(table))
      ensures ok ==> sidecar == Listed(table) && mirror == table
      ensures !ok ==> (sidecar == old(sidecar) && mirror == old(mirror)) ||
                      (Encodable(rules, Listed(table)) && sidecar == Listed(table) && mirror == table)
    {
      var s := SelectConnections(table);
      ok := CanEncode(rules, s);
      if !ok || fault.FailedBefore? {
        return false;
      }
      sidecar, mirror := s, table;
      ok := fault.Clean?;
    }

    /** The write after a mutation: done, or its outcome stays pending. */
    method Settle(operation: Operation, c: Connection, replayed: bool, fault: Fault) returns (answer: Answer)
      requires KeyedTable(table) && KeyedTable(mirror) && KeyedTable(answered) && sidecar == Listed(mirror)
      requires Encodable(rules, Listed(table)) && Encodable(rules, sidecar)
      requires SameExcept(mirror, table, c.digest) && c.digest in table && table[c.digest] == c
      requires operation.Archive? <==> c.status.Archived?
      requires Carries(mirror, table) && Carries(answered, mirror)
      modifies this
      ensures Valid() && table == old(table) && Carries(old(answered), answered)
      ensures fault.Clean? ==> answer == Done(c, replayed) && pending.None? && sidecar == Listed(table) &&
                               answered == old(answered)[c.digest := c]
      ensures !fault.Clean? ==>
                answer == OutcomeUnknown && pending == Some(Pending(operation, c)) && answered == old(answered)
    {
      CarriesThrough(answered, mirror, table);
      CarriesAnswer(answered, table, c);
      Reflexive(answered);
      Reflexive(table);
      AnsweredKeyed(answered, c);
      hide *;
      var ok := WriteSidecar(fault);
      if !ok {
        pending := Some(Pending(operation, c));
        PendingValid(operation, c);
        return OutcomeUnknown;
      }
      pending := None;
      answered := answered[c.digest := c];
      ClearValid();
      answer := Done(c, replayed);
    }

    /** Sidecar and table list the same rows, and nothing is pending. */
    lemma ClearValid()
      requires KeyedTable(table) && KeyedTable(answered) && mirror == table && sidecar == Listed(table) && pending.None?
      requires Encodable(rules, Listed(table)) && Carries(answered, table)
      ensures Valid()
    {
      Reflexive(table);
      hide Carries, Encodable, KeyedTable, Listed;
    }

    /** Sidecar and table differ at most in the row whose write is pending. */
    lemma PendingValid(operation: Operation, c: Connection)
      requires KeyedTable(table) && KeyedTable(mirror) && KeyedTable(answered) && sidecar == Listed(mirror)
      requires Encodable(rules, Listed(table)) && Encodable(rules, sidecar)
      requires pending == Some(Pending(operation, c)) && (operation.Archive? <==> c.status.Archived?)
      requires (SameExcept(mirror, table, c.digest) && Carries(mirror, table) && Carries(answered, mirror)) ||
               (mirror == table && Carries(answered, table))
      requires c.digest in table && table[c.digest] == c
      ensures Valid()
    {
      Reflexive(table);
      SameAsItself(table, c.digest);
      hide Carries, Encodable, KeyedTable, Listed, SameExcept;
    }

    /** INSERT or UPDATE of one row that passed its preflight, then the write. */
    method Store(operation: Operation, c: Connection, fault: Fault) returns (stored: bool, answer: Answer)
      requires Valid() && pending.None?
      requires c.digest in table ==> Continues(table[c.digest], c)
      requires operation.Archive? <==> c.status.Archived?
      modifies this
      ensures Valid() && Carries(old(answered), answered) && Carries(old(table), table)
      ensures !stored ==> table == old(table) && sidecar == old(sidecar) && pending.None? && answered == old(answered)
      ensures stored ==> table == old(table)[c.digest := c]
      ensures stored && fault.Clean? ==> answer == Done(c, false) && pending.None? && sidecar == Listed(table) &&
                                         answered == old(answered)[c.digest := c]
      ensures stored && !fault.Clean? ==> answer == OutcomeUnknown && answered == old(answered)
      ensures !stored ==> answer == Invalid
      ensures stored <==> Encodable(rules, Listed(old(table)[c.digest := c]))
    {
      assert mirror == table;
      assert Proposed(table, c) == c;
      Reflexive(table);
      Reflexive(answered);
      CarriesWrite(mirror, table, c);
      WriteKept(table, c);
      hide Carries, Encodable, Continues, KeyedTable, Listed, Proposed, SameExcept;
      var after := SnapshotWith(table, c);
      stored := CanEncode(rules, after);
      if !stored {
        return false, Invalid;
      }
      table := table[c.digest := c];
      answer := Settle(operation, c, false, fault);
    }

    /** BindProjectConnection; context is the binding after scoped resolution, if it resolved. */
    method BindConnection(digest: string, context: Option<Context>, now: string, fault: Fault) returns (answer: Answer)
      requires Valid()
      modifies this
      ensures Valid() && Carries(old(table), table) && Carries(old(answered), answered)
      ensures answer.Done? ==>
                && context.Some? && pending.None? && sidecar == Listed(table)
                && digest in table && digest in answered && answer.connection == table[digest] == answered[digest]
                && !table[digest].status.Archived?
                && Context(table[digest].scopeID, table[digest].lensID, table[digest].agentID) == context.value
      ensures answer == BindAnswer(rules, old(table), old(pending), digest, context, now, fault.Clean?)
      ensures table == old(table) ||
              (digest !in old(table) && context.Some? &&
               table == old(table)[digest := Bound(digest, context.value, now)])
      ensures !answer.Done? ==> answered == old(answered)
    {
      Reflexive(table);
      Reflexive(answered);
      ListedCount(table);
      hide Encodable, HexDigest, Carries, Listed, FineConnection;
      if !HexDigest(digest) || context.None? {
        return Invalid;
      }
      var b := context.value;
      if pending.Some? {
        var c := pending.value.connection;
        if !pending.value.operation.Bind? || c.digest != digest || !c.status.Active? ||
           Context(c.scopeID, c.lensID, c.agentID) != b {
          return OutcomeUnknown;
        }
        answer := Settle(Bind, c, true, fault);
        return;
      }
      if digest in table {
        var c := table[digest];
        if c.status.Archived? {
          return ArchivedAlready;
        }
        if Context(c.scopeID, c.lensID, c.agentID) != b {
          return Conflict;
        }
        answer := Settle(Bind, c, true, fault);
        return;
      }
      if |table| >= MAXIMUM {
        OverCapacity(rules, table, Bound(digest, b, now));
        return Invalid;
      }
      var stored;
      stored, answer := Store(Bind, Connection(digest, b.scopeID, b.lensID, b.agentID, Active, now, now), fault);
    }

    /** ArchiveProjectConnection */
    method ArchiveConnection(digest: string, now: string, fault: Fault) returns (answer: Answer)
      requires Valid()
      modifies this
      ensures Valid() && Carries(old(table), table) && Carries(old(answered), answered)
      ensures answer.Done? ==>
                && pending.None? && sidecar == Listed(table)
                && digest in old(table) && digest in table && digest in answered && table[digest].status.Archived?
                && answer.connection == table[digest] == answered[digest]
      ensures answer == ArchiveAnswer(rules, old(table), old(pending), digest, now, fault.Clean?)
      ensures table == old(table) ||
              (digest in old(table) &&
               table == old(table)[digest := old(table)[digest].(status := Archived, updatedAt := now)])
      ensures !answer.Done? ==> answered == old(answered)
    {
      Reflexive(table);
      Reflexive(answered);
      hide Encodable, HexDigest, Carries, Listed, FineConnection;
      if !HexDigest(digest) {
        return Invalid;
      }
      if pending.Some? {
        var c := pending.value.connection;
        if !pending.value.operation.Archive? || c.digest != digest || !c.status.Archived? {
          return OutcomeUnknown;
        }
        answer := Settle(Archive, c, true, fault);
        return;
      }
      if digest !in table {
        return NotFound;
      }
      var c := table[digest];
      if c.status.Archived? {
        answer := Settle(Archive, c, true, fault);
        return;
      }
      var stored;
      stored, answer := Store(Archive, c.(status := Archived, updatedAt := now), fault);
    }

    /** ResolveProjectConnection; live says whether the bound context is still active. */
    method ResolveConnection(digest: string, live: Context -> bool) returns (answer: Answer)
      requires Valid()
      modifies this`answered
      ensures Valid() && Carries(old(answered), answered)
      ensures answer.Done? ==>
                && pending.None? && digest in table && digest in answered && table[digest].status.Active?
                && answer.connection == table[digest] == answered[digest] && sidecar == Listed(table)
                && live(Context(table[digest].scopeID, table[digest].lensID, table[digest].agentID))
      ensures answer.Done? <==>
                && HexDigest(digest) && pending.None? && digest in table && table[digest].status.Active?
                && live(BoundTo(table[digest]))
      ensures !answer.Done? ==> answered == old(answered)
      ensures HexDigest(digest) ==>
                (answer.OutcomeUnknown? <==> pending.Some?) &&
                (pending.None? ==> (answer.NotFound? <==> digest !in table)) &&
                (pending.None? ==> (answer.ArchivedAlready? <==> digest in table && !table[digest].status.Active?))
    {
      if !HexDigest(digest) {
        return Invalid;
      }
      if pending.Some? {
        return OutcomeUnknown;
      }
      if digest !in table {
        return NotFound;
      }
      var c := table[digest];
      if !c.status.Active? {
        return ArchivedAlready;
      }
      if !live(Context(c.scopeID, c.lensID, c.agentID)) {
        return Invalid;
      }
      assert mirror == table;
      CarriesAnswer(answered, table, c);
      answered := answered[digest := c];
      answer := Done(c, false);
    }

    /** The process dies and the database is opened again: a table that no longer
        matches the sidecar is rebuilt from it. Nothing answered is lost. */
    method CrashAndReopen()
      requires Valid()
      modifies this
      ensures Valid() && pending.None? && answered == old(answered) && sidecar == old(sidecar)
      ensures Carries(answered, table) && Listed(table) == sidecar
      ensures old(pending).None? ==> table == old(table)
    {
      Reflexive(mirror);
      hide Carries, Encodable;
      pending := None;
      var s := SelectConnections(table);
      if s == sidecar {
        ListedInjective(table, mirror);
      } else {
        table := RestoreConnections(sidecar, mirror);
      }
      assert table == mirror;
    }
  }

  lemma ListedCount(t: Table)
    requires KeyedTable(t)
    ensures |Listed(t)| == |t|
  {
    ConnectionOrder(t);
    ListingAscending(ConnectionLess, t.Values);
    ValuesCount(t, ConnectionKey);
  }

  /** A full table has no room for a digest it does not hold. */
  lemma OverCapacity(r: Rules, t: Table, c: Connection)
    requires KeyedTable(t) && |t| >= MAXIMUM && c.digest !in t
    ensures !Encodable(r, Listed(t[c.digest := c]))
  {
    hide FineConnection, HexDigest, Listed;
    ListedCount(t[c.digest := c]);
    assert |t[c.digest := c]| == |t| + 1;
  }

  lemma Reflexive(t: Table)
    ensures Carries(t, t)
  {
  }

  /** Inserting a listing into an empty table gives the table it lists. */
  method RestoreConnections(s: seq<Connection>, ghost t: Table) returns (table: Table)
    requires KeyedTable(t) && s == Listed(t)
    ensures table == t
  {
    var ok;
    ok, table := InsertRows((c: Connection) => true, ConnectionKey, s);
    ConnectionOrder(t);
    ListedRows(ConnectionLess, ConnectionKey, t);
    assert ok;
    ListingAscending(ConnectionLess, t.Values);
    KeyedMapsEqual(table, t, ConnectionKey);
  }
}
