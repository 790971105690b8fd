/** A project connection from its binding to its archive, in its callers' terms. */
module ConnectionLaws {
  import opened Text
  import opened ScopedModel
  import opened Feedback
  import Ordering
  import opened ScopedStore
  import opened ProjectConnections

  /** Sixty-four lower-case hexadecimal digits. */
  predicate Digest(s: string) {
    |s| == 64 && forall i :: 0 <= i < 64 ==> s[i] in "0123456789abcdef"
  }

  /** A digest, bounded ids, one of two statuses, two times, and no secrets. */
  ghost predicate FineRow(r: Rules, c: Connection) {
    && Digest(c.digest) && Bounded(c.scopeID, 256) && Bounded(c.lensID, 256) && Bounded(c.agentID, 256)
    && (c.status.Active? || c.status.Archived?) && r.timeOK(c.createdAt) && r.timeOK(c.updatedAt)
    && !r.secretLike(c.scopeID) && !r.secretLike(c.lensID) && !r.secretLike(c.agentID)
    && !r.secretLike(c.createdAt) && !r.secretLike(c.updatedAt)
  }

  lemma FineIs(r: Rules, c: Connection)
    ensures FineConnection(r, c) <==> FineRow(r, c)
  {
    DigestIs(c.digest);
    hide Bounded, Digest, HexDigest;
  }

  lemma LimitsOf(r: Rules, s: seq<Connection>)
    ensures Encodable(r, s) <==>
              && |s| <= 256 && r.encodedSize(s) <= 262144 && (forall c :: c in s ==> FineRow(r, c))
              && (forall i, j :: 0 <= i < j < |s| ==> s[i].digest != s[j].digest)
  {
    forall c ensures FineConnection(r, c) <==> FineRow(r, c) {
      FineIs(r, c);
    }
    hide FineConnection, FineRow;
  }

  /** Whatever was called before, the sidecar lists at most 256 fine rows with digests of
      their own, within the byte limit. */
  lemma SidecarWithinLimits(links: Connections)
    requires links.Valid()
    ensures |links.sidecar| <= 256 && links.rules.encodedSize(links.sidecar) <= 262144
    ensures forall c :: c in links.sidecar ==> FineRow(links.rules, c)
    ensures forall i, j :: 0 <= i < j < |links.sidecar| ==> links.sidecar[i].digest != links.sidecar[j].digest
    ensures forall d :: d in links.table ==> links.table[d].status.Active? || links.table[d].status.Archived?
  {
    LimitsOf(links.rules, links.sidecar);
    LimitsOf(links.rules, Listed(links.table));
    TableListed(links);
    hide KeyedTable, Listed, Carries, SameExcept, Encodable;
  }

  lemma TableListed(links: Connections)
    requires links.Valid()
    ensures forall d :: d in links.table ==> links.table[d] in Listed(links.table)
  {
    ConnectionOrder(links.table);
    Ordering.ListingAscending(ConnectionLess, links.table.Values);
    hide Encodable, Carries;
    forall d | d in links.table ensures links.table[d] in Listed(links.table) {
      assert links.table[d] in Ordering.Rows(Listed(links.table));
    }
  }

  /** A digest that is bound resolves to its context while that is live, refuses every
      other context, is archived with its row kept, and then neither resolves nor binds. */
  method Lifetime(links: Connections, digest: string, context: Context, other: Context, now: string, later: string,
                  live: Context -> bool)
    returns (bound: Answer, found: Answer, clash: Answer, archived: Answer, gone: Answer, again: Answer)
    requires links.Valid() && links.pending.None? && other != context
    modifies links
    ensures links.Valid()
    ensures bound.Done? && !bound.replayed ==>
              bound.connection == Connection(digest, context.scopeID, context.lensID, context.agentID, Active, now, now)
    ensures bound.Done? ==>
              && bound.connection.scopeID == context.scopeID && bound.connection.lensID == context.lensID
              && bound.connection.agentID == context.agentID && bound.connection.digest == digest
              && (found.Done? <==> live(context)) && (found.Done? ==> found.connection == bound.connection)
              && clash.Conflict?
    ensures bound.Done? && archived.Done? ==>
              && archived.connection == bound.connection.(status := Archived, updatedAt := later)
              && gone.ArchivedAlready? && again.ArchivedAlready?
  {
    hide Listed, Encodable, Carries, HexDigest, FineConnection;
    clash, archived, gone, again, found := NotFound, NotFound, NotFound, NotFound, NotFound;
    bound := links.BindConnection(digest, Some(context), now, Clean);
    SidecarWithinLimits(links);
    if bound.Done? {
      found := links.ResolveConnection(digest, live);
      clash := links.BindConnection(digest, Some(other), now, Clean);
      archived := links.ArchiveConnection(digest, later, Clean);
      if archived.Done? {
        gone := links.ResolveConnection(digest, live);
        again := links.BindConnection(digest, Some(context), later, Clean);
      }
    }
  }

  /** While an outcome is unknown, a binding of anything but the pending row's own digest
      and context is told so, and so is an archive of anything but the pending one. */
  method BindWaits(links: Connections, digest: string, context: Context, now: string, fault: Fault)
    returns (bound: Answer)
    requires links.Valid() && links.pending.Some? && Digest(digest)
    requires var p := links.pending.value;
             p.operation.Archive? || p.connection.digest != digest || p.connection.scopeID != context.scopeID ||
             p.connection.lensID != context.lensID || p.connection.agentID != context.agentID
    modifies links
    ensures bound.OutcomeUnknown? && links.answered == old(links.answered)
  {
    DigestIs(digest);
    hide Listed, Encodable, Carries, FineConnection, HexDigest;
    bound := links.BindConnection(digest, Some(context), now, fault);
  }

  method ArchiveWaits(links: Connections, digest: string, now: string, fault: Fault) returns (archived: Answer)
    requires links.Valid() && links.pending.Some? && Digest(digest)
    requires links.pending.value.operation.Bind? || links.pending.value.connection.digest != digest
    modifies links
    ensures archived.OutcomeUnknown? && links.answered == old(links.answered)
  {
    DigestIs(digest);
    hide Listed, Encodable, Carries, FineConnection, HexDigest;
    archived := links.ArchiveConnection(digest, now, fault);
  }

  lemma DigestIs(s: string)
    ensures Digest(s) <==> ScopedStore.HexDigest(s)
  {
    assert "0123456789abcdef" == ['0', '1', '2', '3', '4', '5', '6', '7', '8', '9', 'a', 'b', 'c', 'd', 'e', 'f'];
  }
}
