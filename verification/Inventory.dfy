/** Source inventories: every URL occurrence is entered twice, once under its
    source record and once under its canonical item, and strata count the items. */
module Inventory {
  import opened Text
  import opened Ordering
  import opened ScopedModel
  import opened ScopedRecovery

  const MAXIMUM_RECORDS := 100000
  const MAXIMUM_OCCURRENCES := 250000
  const MAXIMUM_ITEMS := 250000

  datatype Access = Public | Redacted | OtherAccess(text: string)
  datatype Sanitization = Unchanged | RedactedURL | ComponentsRemoved | OtherSanitization(text: string)

  /** details stands for the fields no total depends on. */
  datatype SourceRecord = SourceRecord(id: string, occurrenceIDs: seq<string>, details: string)
  datatype Item = Item(id: string, url: string, kind: string, occurrenceIDs: seq<string>, strategy: string,
                       format: string, access: Access)
  datatype Occurrence = Occurrence(id: string, recordID: string, ordinal: int, url: string, itemID: string,
                                   sanitization: Sanitization)
  datatype Stratum = Stratum(strategy: string, format: string, count: int)
  datatype Completeness = Completeness(check: string, statusKnown: bool, count: int)

  datatype Snapshot = Snapshot(identity: string, watermark: string, occurrenceCount: int, canonicalCount: int,
                               records: seq<SourceRecord>, occurrences: seq<Occurrence>, items: seq<Item>,
                               strata: seq<Stratum>, checks: seq<Completeness>, fingerprint: string)

  /** The URL parser, the record's other checks, and the hash, left opaque. */
  datatype Rules = Rules(web: string -> Option<string>, recordFine: string -> bool, hash: Snapshot -> string)

  predicate ValidID(s: string) {
    Trim(s) != "" && ByteLength(Trim(s)) <= 256 && Trim(s) == s
  }

  // ------------------------------------------------------------ identifier lists

  /** hasEmptyOrDuplicate is false. */
  predicate CleanIDs(ids: seq<string>) {
    && (forall i :: 0 <= i < |ids| ==> ValidID(ids[i]))
    && (forall i, j :: 0 <= i < j < |ids| ==> ids[i] != ids[j])
  }

  method HasEmptyOrDuplicate(ids: seq<string>) returns (found: bool)
    ensures found <==> !CleanIDs(ids)
  {
    hide ValidID;
    var seen: set<string> := {};
    for i := 0 to |ids|
      invariant seen == set k | 0 <= k < i :: ids[k]
      invariant forall k :: 0 <= k < i ==> ValidID(ids[k])
      invariant forall k, l :: 0 <= k < l < i ==> ids[k] != ids[l]
    {
      if !ValidID(ids[i]) || ids[i] in seen {
        return true;
      }
      seen := seen + {ids[i]};
    }
    found := false;
  }

  // ----------------------------------------------------------- one side's entries

  /** A record or an item, with the occurrences it lists. */
  datatype Entry = Entry(owner: string, ids: seq<string>)

  ghost predicate DistinctOwners(entries: seq<Entry>) {
    forall i, j :: 0 <= i < j < |entries| ==> entries[i].owner != entries[j].owner
  }

  ghost predicate CleanEntries(entries: seq<Entry>) {
    forall i :: 0 <= i < |entries| ==> CleanIDs(entries[i].ids)
  }

  ghost predicate ListedBy(entries: seq<Entry>, n: nat, id: string)
    requires n <= |entries|
  {
    exists i :: 0 <= i < n && id in entries[i].ids
  }

  /** The first n entries list only occurrences that name them. */
  ghost predicate Owned(entries: seq<Entry>, n: nat, owners: map<string, string>)
    requires n <= |entries|
  {
    forall i, id :: 0 <= i < n && id in entries[i].ids ==> id in owners && owners[id] == entries[i].owner
  }

  /** Every listed occurrence names its lister, and every occurrence is listed.
      owners gives each occurrence's owner. */
  ghost predicate Accounts(entries: seq<Entry>, owners: map<string, string>) {
    Owned(entries, |entries|, owners) && forall id :: id in owners ==> ListedBy(entries, |entries|, id)
  }

  ghost function Length(entries: seq<Entry>): nat {
    if entries == [] then 0 else Length(entries[..|entries| - 1]) + |entries[|entries| - 1].ids|
  }

  /** The loop over one side's lists: an occurrence must exist, be this owner's,
      and not have been seen; in the end all must have been. */
  method CheckSide(entries: seq<Entry>, owners: map<string, string>) returns (ok: bool)
    requires DistinctOwners(entries) && CleanEntries(entries)
    ensures ok <==> Accounts(entries, owners)
  {
    var seen: set<string> := {};
    for n := 0 to |entries|
      invariant forall id :: id in seen <==> ListedBy(entries, n, id)
      invariant Owned(entries, n, owners)
    {
      ghost var before := seen;
      ok, seen := CheckEntry(entries, n, owners, seen);
      if !ok {
        return;
      }
      ListedNext(entries, n, before);
    }
    AllSeen(entries, owners, seen);
    ok := |seen| == |owners|;
  }

  method CheckEntry(entries: seq<Entry>, n: nat, owners: map<string, string>, before: set<string>)
    returns (ok: bool, seen: set<string>)
    requires DistinctOwners(entries) && CleanEntries(entries) && n < |entries|
    requires (forall id :: id in before <==> ListedBy(entries, n, id)) && Owned(entries, n, owners)
    ensures ok <==> Owned(entries, n + 1, owners)
    ensures ok ==> seen == before + Rows(entries[n].ids)
  {
    seen := before;
    var e := entries[n];
    for k := 0 to |e.ids|
      invariant seen == before + Rows(e.ids[..k])
      invariant forall j :: 0 <= j < k ==> e.ids[j] in owners && owners[e.ids[j]] == e.owner
    {
      var id := e.ids[k];
      assert e.ids[..k + 1] == e.ids[..k] + [id];
      if id !in owners || owners[id] != e.owner || id in seen {
        if id in owners && owners[id] == e.owner {
          SeenOnce(entries, owners, n, k, before);
        }
        assert id in entries[n].ids;
        return false, seen;
      }
      seen := seen + {id};
    }
    assert e.ids[..|e.ids|] == e.ids;
    ok := true;
  }

  lemma ListedNext(entries: seq<Entry>, n: nat, before: set<string>)
    requires n < |entries| && forall id :: id in before <==> ListedBy(entries, n, id)
    ensures forall id :: id in before + Rows(entries[n].ids) <==> ListedBy(entries, n + 1, id)
  {
    forall id ensures id in before + Rows(entries[n].ids) <==> ListedBy(entries, n + 1, id) {
      if id in before {
        var i :| 0 <= i < n && id in entries[i].ids;
      }
    }
  }

  /** With distinct owners and clean lists nothing is met twice. */
  lemma SeenOnce(entries: seq<Entry>, owners: map<string, string>, n: nat, k: nat, before: set<string>)
    requires DistinctOwners(entries) && CleanEntries(entries) && n < |entries| && k < |entries[n].ids|
    requires (forall id :: id in before <==> ListedBy(entries, n, id)) && Owned(entries, n, owners)
    requires entries[n].ids[k] in owners && owners[entries[n].ids[k]] == entries[n].owner
    ensures entries[n].ids[k] !in before && entries[n].ids[k] !in Rows(entries[n].ids[..k])
  {
    assert CleanIDs(entries[n].ids);
    hide ValidID;
    var id := entries[n].ids[k];
    forall i | 0 <= i < n ensures id !in entries[i].ids {
    }
  }

  lemma AllSeen(entries: seq<Entry>, owners: map<string, string>, seen: set<string>)
    requires (forall id :: id in seen <==> ListedBy(entries, |entries|, id)) && Owned(entries, |entries|, owners)
    ensures |seen| == |owners| <==> Accounts(entries, owners)
  {
    forall id | id in seen ensures id in owners.Keys {
      var i :| 0 <= i < |entries| && id in entries[i].ids;
    }
    if |seen| == |owners| {
      SubsetCount(seen, owners.Keys);
    }
    if Accounts(entries, owners) {
      assert seen == owners.Keys;
    }
  }

  /** One entry lists the occurrence, and it is its owner's. */
  ghost predicate EnteredOnce(entries: seq<Entry>, id: string, owner: string) {
    exists i :: 0 <= i < |entries| && entries[i].owner == owner &&
      forall j :: 0 <= j < |entries| ==> (id in entries[j].ids <==> j == i)
  }

  /** Each occurrence is listed by exactly one entry, the one it names. */
  lemma ListedOnce(entries: seq<Entry>, owners: map<string, string>, id: string)
    requires DistinctOwners(entries) && Accounts(entries, owners) && id in owners
    ensures EnteredOnce(entries, id, owners[id])
  {
    assert ListedBy(entries, |entries|, id);
    var i :| 0 <= i < |entries| && id in entries[i].ids;
    forall j | 0 <= j < |entries| ensures id in entries[j].ids <==> j == i {
    }
  }

  /** Double entry: each side's lists are together as long as there are occurrences. */
  lemma LengthIsCount(entries: seq<Entry>, owners: map<string, string>)
    requires DistinctOwners(entries) && CleanEntries(entries) && Accounts(entries, owners)
    ensures Length(entries) == |owners|
  {
    ListedCount(entries, owners);
    hide *;
    forall id ensures id in ListedIDs(entries) <==> id in owners.Keys {
      ListedMembers(entries, id);
      ListedIffOwned(entries, owners, id);
    }
    assert ListedIDs(entries) == owners.Keys;
  }

  lemma ListedIffOwned(entries: seq<Entry>, owners: map<string, string>, id: string)
    requires Accounts(entries, owners)
    ensures ListedBy(entries, |entries|, id) <==> id in owners
  {
    if ListedBy(entries, |entries|, id) {
      var i :| 0 <= i < |entries| && id in entries[i].ids;
    }
  }

  ghost function ListedIDs(entries: seq<Entry>): set<string> {
    if entries == [] then {} else ListedIDs(entries[..|entries| - 1]) + Rows(entries[|entries| - 1].ids)
  }

  lemma {:induction false} ListedMembers(entries: seq<Entry>, id: string)
    ensures id in ListedIDs(entries) <==> ListedBy(entries, |entries|, id)
  {
    if entries != [] {
      var front := entries[..|entries| - 1];
      ListedMembers(front, id);
      if ListedBy(front, |front|, id) {
        var i :| 0 <= i < |front| && id in front[i].ids;
        assert entries[i] == front[i];
      }
      if ListedBy(entries, |entries|, id) {
        var i :| 0 <= i < |entries| && id in entries[i].ids;
        if i < |front| {
          assert front[i] == entries[i];
        }
      }
    }
  }

  lemma {:induction false} ListedCount(entries: seq<Entry>, owners: map<string, string>)
    requires DistinctOwners(entries) && CleanEntries(entries) && Owned(entries, |entries|, owners)
    ensures |ListedIDs(entries)| == Length(entries)
  {
    if entries != [] {
      var n := |entries| - 1;
      var front := entries[..n];
      assert forall i :: 0 <= i < n ==> front[i] == entries[i];
      LastApart(entries, owners);
      assert CleanIDs(entries[n].ids);
      DistinctSize(entries[n].ids);
      ListedCount(front, owners);
    }
  }

  lemma LastApart(entries: seq<Entry>, owners: map<string, string>)
    requires entries != [] && DistinctOwners(entries) && Owned(entries, |entries|, owners)
    ensures ListedIDs(entries[..|entries| - 1]) * Rows(entries[|entries| - 1].ids) == {}
  {
    var n := |entries| - 1;
    var front := entries[..n];
    hide ListedIDs;
    forall id | id in Rows(entries[n].ids) ensures id !in ListedIDs(front) {
      ListedMembers(front, id);
      assert id in entries[n].ids && owners[id] == entries[n].owner;
      forall i | 0 <= i < n ensures id !in front[i].ids {
        assert id in entries[i].ids <==> id in front[i].ids;
        assert front[i] == entries[i] && entries[i].owner != entries[n].owner;
      }
    }
  }

  lemma {:induction false} DistinctSize(ids: seq<string>)
    requires forall i, j :: 0 <= i < j < |ids| ==> ids[i] != ids[j]
    ensures |Rows(ids)| == |ids|
  {
    if ids != [] {
      var front, last := ids[..|ids| - 1], ids[|ids| - 1];
      DistinctSize(front);
      assert ids == front + [last];
      assert last !in front;
      assert Rows(ids) == Rows(front) + {last};
    }
  }

  // ---------------------------------------------------------------------- strata

  function Key(strategy: string, format: string): string {
    strategy + "\0" + format
  }

  function ItemKey(i: Item): string { Key(i.strategy, i.format) }
  function StratumKey(s: Stratum): string { Key(s.strategy, s.format) }

  ghost function CountOf(items: seq<Item>, key: string): nat {
    if items == [] then 0
    else CountOf(items[..|items| - 1], key) + if ItemKey(items[|items| - 1]) == key then 1 else 0
  }

  lemma {:induction false} CountedKeys(items: seq<Item>, key: string)
    ensures CountOf(items, key) > 0 <==> exists i :: 0 <= i < |items| && ItemKey(items[i]) == key
  {
    hide ItemKey;
    if items != [] {
      var n := |items| - 1;
      var front := items[..n];
      CountedKeys(front, key);
      assert forall i :: 0 <= i < n ==> front[i] == items[i];
      if ItemKey(items[n]) != key && exists i :: 0 <= i < |items| && ItemKey(items[i]) == key {
        var i :| 0 <= i < |items| && ItemKey(items[i]) == key;
        assert ItemKey(front[i]) == key;
      }
      if CountOf(front, key) > 0 {
        var i :| 0 <= i < n && ItemKey(front[i]) == key;
        assert ItemKey(items[i]) == key;
      }
    }
  }

  predicate StratumFine(s: Stratum) {
    !Blank(s.strategy) && !Blank(s.format) && s.count > 0
  }

  /** Some stratum has the key. */
  ghost predicate HasStratum(strata: seq<Stratum>, key: string) {
    exists k :: 0 <= k < |strata| && StratumKey(strata[k]) == key
  }

  /** Every stratum is named, counts its items exactly, and no items are left out. */
  ghost predicate StrataOK(items: seq<Item>, strata: seq<Stratum>) {
    && (forall i :: 0 <= i < |strata| ==>
        StratumFine(strata[i]) && CountOf(items, StratumKey(strata[i])) == strata[i].count)
    && (forall i, j :: 0 <= i < j < |strata| ==> StratumKey(strata[i]) != StratumKey(strata[j]))
    && (forall i :: 0 <= i < |items| ==> HasStratum(strata, ItemKey(items[i])))
  }

  method CountKeys(items: seq<Item>) returns (counts: map<string, nat>)
    ensures forall key :: key in counts <==> CountOf(items, key) > 0
    ensures forall key :: key in counts ==> counts[key] == CountOf(items, key)
  {
    hide ItemKey;
    counts := map[];
    for n := 0 to |items|
      invariant forall key :: key in counts <==> CountOf(items[..n], key) > 0
      invariant forall key :: key in counts ==> counts[key] == CountOf(items[..n], key)
    {
      assert items[..n + 1][..n] == items[..n];
      var key := ItemKey(items[n]);
      counts := counts[key := (if key in counts then counts[key] else 0) + 1];
    }
    assert items[..|items|] == items;
  }

  /** Each item's key with the number of items that have it. */
  ghost predicate Tallied(items: seq<Item>, expected: map<string, nat>) {
    && (forall key :: key in expected <==> CountOf(items, key) > 0)
    && (forall key :: key in expected ==> expected[key] == CountOf(items, key))
  }

  /** Each stratum's key with its count; strata in order and none repeating a key. */
  ghost predicate Registered(strata: seq<Stratum>, observed: map<string, int>) {
    && (forall i :: 0 <= i < |strata| ==> StratumFine(strata[i]) && StratumKey(strata[i]) in observed &&
                                          observed[StratumKey(strata[i])] == strata[i].count)
    && (forall i, j :: 0 <= i < j < |strata| ==> StratumKey(strata[i]) != StratumKey(strata[j]))
    && (forall key :: key in observed ==> HasStratum(strata, key))
  }

  lemma RegisterNext(strata: seq<Stratum>, n: nat, observed: map<string, int>)
    requires n < |strata| && Registered(strata[..n], observed)
    requires StratumFine(strata[n]) && StratumKey(strata[n]) !in observed
    ensures Registered(strata[..n + 1], observed[StratumKey(strata[n]) := strata[n].count])
  {
    hide StratumKey, StratumFine;
    var before, after := strata[..n], strata[..n + 1];
    assert forall i :: 0 <= i < n ==> before[i] == after[i];
    var more := observed[StratumKey(strata[n]) := strata[n].count];
    forall key | key in more ensures HasStratum(after, key) {
      if key in observed {
        var i :| 0 <= i < n && StratumKey(before[i]) == key;
        assert StratumKey(after[i]) == key;
      } else {
        assert StratumKey(after[n]) == key;
      }
    }
  }

  lemma RegisterRefused(items: seq<Item>, strata: seq<Stratum>, n: nat, observed: map<string, int>)
    requires n < |strata| && Registered(strata[..n], observed)
    requires !StratumFine(strata[n]) || StratumKey(strata[n]) in observed
    ensures !StrataOK(items, strata)
  {
    hide StratumKey, StratumFine, CountOf, ItemKey;
    if StratumKey(strata[n]) in observed {
      var before := strata[..n];
      assert HasStratum(before, StratumKey(strata[n]));
      var i :| 0 <= i < n && StratumKey(before[i]) == StratumKey(strata[n]);
      assert strata[i] == before[i];
    }
  }

  /** validateStrata */
  method ValidateStrata(items: seq<Item>, strata: seq<Stratum>) returns (ok: bool)
    ensures ok <==> StrataOK(items, strata)
  {
    hide ItemKey, StratumKey, StratumFine, StrataOK, Registered, Tallied, CountOf;
    var expected := TallyKeys(items);
    var observed: map<string, int> := map[];
    NoneRegistered();
    for n := 0 to |strata|
      invariant Registered(strata[..n], observed)
    {
      var key := StratumKey(strata[n]);
      if !StratumFine(strata[n]) || key in observed {
        RegisterRefused(items, strata, n, observed);
        return false;
      }
      RegisterNext(strata, n, observed);
      observed := observed[key := strata[n].count];
    }
    assert strata[..|strata|] == strata;
    ok := SameCounts(expected, observed);
    StrataCompared(items, strata, expected, observed);
  }

  method TallyKeys(items: seq<Item>) returns (expected: map<string, nat>)
    ensures Tallied(items, expected)
  {
    expected := CountKeys(items);
  }

  lemma NoneRegistered()
    ensures Registered([], map[])
  {
  }

  /** The comparison of the two maps, in any order. */
  method SameCounts(expected: map<string, nat>, observed: map<string, int>) returns (ok: bool)
    ensures ok <==> |observed| == |expected| && forall key :: key in expected ==>
              key in observed && observed[key] == expected[key]
  {
    var todo := expected.Keys;
    ok := |observed| == |expected|;
    while ok && todo != {}
      invariant todo <= expected.Keys
      invariant ok ==> |observed| == |expected| &&
                       forall key :: key in expected && key !in todo ==>
                         key in observed && observed[key] == expected[key]
      invariant !ok ==> |observed| != |expected| ||
                        exists key :: key in expected && !(key in observed && observed[key] == expected[key])
      decreases todo, ok
    {
      var key :| key in todo;
      todo := todo - {key};
      ok := key in observed && observed[key] == expected[key];
    }
  }

  lemma StrataCompared(items: seq<Item>, strata: seq<Stratum>, expected: map<string, nat>, observed: map<string, int>)
    requires Tallied(items, expected) && Registered(strata, observed)
    ensures StrataOK(items, strata) <==>
            |observed| == |expected| && forall key :: key in expected ==>
              key in observed && observed[key] == expected[key]
  {
    hide StrataOK, Tallied, Registered;
    if StrataOK(items, strata) {
      AcceptedAgree(items, strata, expected, observed);
      assert expected.Keys == observed.Keys;
      assert |observed| == |observed.Keys| && |expected| == |expected.Keys|;
    }
    if |observed| == |expected| && forall key :: key in expected ==> key in observed && observed[key] == expected[key] {
      assert expected.Keys <= observed.Keys;
      SubsetCount(expected.Keys, observed.Keys);
      AgreeingAccepted(items, strata, expected, observed);
    }
  }

  lemma AcceptedAgree(items: seq<Item>, strata: seq<Stratum>, expected: map<string, nat>, observed: map<string, int>)
    requires Tallied(items, expected) && Registered(strata, observed) && StrataOK(items, strata)
    ensures forall key :: key in expected.Keys <==> key in observed.Keys
    ensures forall key :: key in expected ==> key in observed && observed[key] == expected[key]
  {
    hide ItemKey, StratumKey, StratumFine, CountOf;
    forall key ensures key in expected ==> key in observed && observed[key] == expected[key]
      ensures key in observed ==> key in expected
    {
      if key in observed {
        var i :| 0 <= i < |strata| && StratumKey(strata[i]) == key;
        FineCount(strata[i]);
      }
      if key in expected {
        CountedKeys(items, key);
        var i :| 0 <= i < |items| && ItemKey(items[i]) == key;
        var k :| 0 <= k < |strata| && StratumKey(strata[k]) == ItemKey(items[i]);
      }
    }
  }

  lemma AgreeingAccepted(items: seq<Item>, strata: seq<Stratum>, expected: map<string, nat>, observed: map<string, int>)
    requires Tallied(items, expected) && Registered(strata, observed) && expected.Keys == observed.Keys
    requires forall key :: key in expected ==> key in observed && observed[key] == expected[key]
    ensures StrataOK(items, strata)
  {
    hide ItemKey, StratumKey, StratumFine, CountOf;
    assert forall i :: 0 <= i < |strata| ==>
             StratumFine(strata[i]) && CountOf(items, StratumKey(strata[i])) == strata[i].count by {
      forall i | 0 <= i < |strata| ensures CountOf(items, StratumKey(strata[i])) == strata[i].count {
        assert StratumKey(strata[i]) in expected.Keys;
      }
    }
    assert forall i :: 0 <= i < |items| ==> HasStratum(strata, ItemKey(items[i])) by {
      forall i | 0 <= i < |items| ensures HasStratum(strata, ItemKey(items[i])) {
        CountedKeys(items, ItemKey(items[i]));
        assert ItemKey(items[i]) in expected.Keys;
      }
    }
  }

  lemma FineCount(s: Stratum)
    requires StratumFine(s)
    ensures s.count > 0
  {
  }

  /** Strata by ascending key, one for each key, each with its items' count. */
  ghost predicate Lists(items: seq<Item>, strata: seq<Stratum>) {
    && (forall i, j :: 0 <= i < j < |strata| ==> Before(StratumKey(strata[i]), StratumKey(strata[j])))
    && (forall i :: 0 <= i < |strata| ==> strata[i].count == CountOf(items, StratumKey(strata[i])) > 0)
    && (forall key :: CountOf(items, key) > 0 ==> HasStratum(strata, key))
  }

  ghost predicate Named(items: seq<Item>, s: Stratum) {
    exists i :: i in items && i.strategy == s.strategy && i.format == s.format
  }

  ghost predicate Counted(items: seq<Item>, n: nat, counts: map<string, Stratum>)
    requires n <= |items|
  {
    && (forall key :: key in counts <==> CountOf(items[..n], key) > 0)
    && (forall key :: key in counts ==> counts[key].count == CountOf(items[..n], key) && StratumKey(counts[key]) == key)
    && (forall key :: key in counts ==> Named(items, counts[key]))
  }

  lemma CountedNext(items: seq<Item>, n: nat, counts: map<string, Stratum>)
    requires n < |items| && Counted(items, n, counts)
    ensures var i, key := items[n], ItemKey(items[n]);
            Counted(items, n + 1,
                    counts[key := Stratum(i.strategy, i.format, (if key in counts then counts[key].count else 0) + 1)])
  {
    hide Key;
    assert items[..n + 1][..n] == items[..n];
    assert items[n] in items;
  }

  /** BuildStrata */
  method BuildStrata(items: seq<Item>) returns (strata: seq<Stratum>)
    ensures Lists(items, strata)
    ensures forall s :: s in strata ==> Named(items, s)
  {
    var counts: map<string, Stratum> := map[];
    assert Counted(items, 0, counts);
    hide Key, Counted, StratumKey;
    for n := 0 to |items|
      invariant Counted(items, n, counts)
    {
      CountedNext(items, n, counts);
      var i := items[n];
      var key := ItemKey(i);
      counts := counts[key := Stratum(i.strategy, i.format, (if key in counts then counts[key].count else 0) + 1)];
    }
    strata := ByKey(items, counts);
  }

  method ByKey(items: seq<Item>, counts: map<string, Stratum>) returns (strata: seq<Stratum>)
    requires Counted(items, |items|, counts)
    ensures Lists(items, strata) && forall s :: s in strata ==> Named(items, s)
  {
    TextsInOrder(counts.Keys);
    hide *;
    var keys := SelectOrdered(Before, counts.Keys);
    strata := [];
    for n := 0 to |keys|
      invariant |strata| == n && forall k :: 0 <= k < n ==> keys[k] in counts && strata[k] == counts[keys[k]]
    {
      InRows(keys, n);
      strata := strata + [counts[keys[n]]];
    }
    ListsByKey(items, counts, keys, strata);
  }

  lemma InRows<T>(s: seq<T>, i: nat)
    requires i < |s|
    ensures s[i] in Rows(s)
  {
  }

  lemma ListsByKey(items: seq<Item>, counts: map<string, Stratum>, keys: seq<string>, strata: seq<Stratum>)
    requires Counted(items, |items|, counts) && Ascending(Before, keys) && Rows(keys) == counts.Keys
    requires |strata| == |keys| && forall k :: 0 <= k < |keys| ==> keys[k] in counts && strata[k] == counts[keys[k]]
    ensures Lists(items, strata) && forall s :: s in strata ==> Named(items, s)
  {
    assert items[..|items|] == items;
    hide Before, CountOf, StratumKey, Named;
    forall key | CountOf(items, key) > 0 ensures HasStratum(strata, key) {
      assert key in Rows(keys);
      var i :| 0 <= i < |keys| && keys[i] == key;
      assert strata[i] == counts[key];
    }
  }

  lemma ListedFine(items: seq<Item>, strata: seq<Stratum>, i: nat)
    requires Lists(items, strata) && i < |strata| && !Blank(strata[i].strategy) && !Blank(strata[i].format)
    ensures StratumFine(strata[i]) && CountOf(items, StratumKey(strata[i])) == strata[i].count
  {
    hide StratumKey, CountOf, Blank, Before;
  }

  lemma ListedApart(items: seq<Item>, strata: seq<Stratum>, i: nat, j: nat)
    requires Lists(items, strata) && i < j < |strata|
    ensures StratumKey(strata[i]) != StratumKey(strata[j])
  {
    hide StratumKey, CountOf;
    BeforeIrreflexive(StratumKey(strata[i]));
    hide Before;
  }

  lemma ItemListed(items: seq<Item>, strata: seq<Stratum>, i: nat)
    requires Lists(items, strata) && i < |items|
    ensures HasStratum(strata, ItemKey(items[i]))
  {
    hide StratumKey, CountOf, Before, ItemKey;
    CountedKeys(items, ItemKey(items[i]));
  }

  /** What BuildStrata builds is always accepted, whatever the names contain. */
  lemma BuiltAccepted(items: seq<Item>, strata: seq<Stratum>)
    requires Lists(items, strata) && forall i :: 0 <= i < |strata| ==>
               !Blank(strata[i].strategy) && !Blank(strata[i].format)
    ensures StrataOK(items, strata)
  {
    hide Lists, StratumKey, ItemKey, CountOf, Blank, StratumFine;
    assert forall i :: 0 <= i < |strata| ==>
             StratumFine(strata[i]) && CountOf(items, StratumKey(strata[i])) == strata[i].count by {
      forall i | 0 <= i < |strata| { ListedFine(items, strata, i); }
    }
    assert forall i, j :: 0 <= i < j < |strata| ==> StratumKey(strata[i]) != StratumKey(strata[j]) by {
      forall i, j | 0 <= i < j < |strata| { ListedApart(items, strata, i, j); }
    }
    assert forall i :: 0 <= i < |items| ==> HasStratum(strata, ItemKey(items[i])) by {
      forall i | 0 <= i < |items| { ItemListed(items, strata, i); }
    }
  }

  ghost predicate NulFree(items: seq<Item>) {
    forall i :: 0 <= i < |items| ==> '\0' !in items[i].strategy && '\0' !in items[i].format
  }

  lemma KeySplits(a: string, b: string, c: string, d: string)
    requires Key(a, b) == Key(c, d) && '\0' !in a && '\0' !in b
    ensures a == c && b == d
  {
    var k := Key(a, b);
    assert k[|a|] == '\0' && k[..|a|] == a && k[|a| + 1..] == b;
    assert k[|c|] == '\0' && k[..|c|] == c && k[|c| + 1..] == d;
    forall j | 0 <= j < |k| && j != |a| ensures k[j] != '\0' {
      if j < |a| {
        assert k[j] == a[j];
      } else {
        assert k[j] == b[j - |a| - 1];
      }
    }
  }

  /** The item's key can be cut at a NUL into two names in one way only. */
  ghost predicate OneReading(i: Item) {
    forall strategy, format :: !Blank(strategy) && !Blank(format) && Key(strategy, format) == ItemKey(i) ==>
      strategy == i.strategy && format == i.format
  }

  ghost predicate ReadOneWay(items: seq<Item>) {
    forall i :: i in items ==> OneReading(i)
  }

  lemma NulFreeReadsOneWay(items: seq<Item>)
    requires NulFree(items)
    ensures ReadOneWay(items)
  {
    forall i, strategy, format | i in items && Key(strategy, format) == ItemKey(i)
      ensures strategy == i.strategy && format == i.format
    {
      KeySplits(i.strategy, i.format, strategy, format);
    }
  }

  lemma StratumOfKey(items: seq<Item>, s: Stratum, t: Stratum)
    requires ReadOneWay(items) && CountOf(items, StratumKey(s)) > 0 && StratumKey(s) == StratumKey(t)
    requires StratumFine(s) && StratumFine(t)
    ensures s.strategy == t.strategy && s.format == t.format
  {
    hide Key, Blank;
    CountedKeys(items, StratumKey(s));
    var i :| 0 <= i < |items| && ItemKey(items[i]) == StratumKey(s);
    assert OneReading(items[i]);
  }

  /** Accepted strata hold the same rows, once each: any two are permutations. */
  lemma AcceptedIsPermutation(items: seq<Item>, s: seq<Stratum>, t: seq<Stratum>)
    requires ReadOneWay(items) && StrataOK(items, s) && StrataOK(items, t)
    ensures multiset(s) == multiset(t)
  {
    RowsIncluded(items, s, t);
    RowsIncluded(items, t, s);
    hide StrataOK, ReadOneWay;
    forall r ensures multiset(s)[r] == multiset(t)[r] {
      assert r in multiset(s) <==> r in s;
      assert r in multiset(t) <==> r in t;
    }
  }

  lemma RowsIncluded(items: seq<Item>, s: seq<Stratum>, t: seq<Stratum>)
    requires ReadOneWay(items) && StrataOK(items, s) && StrataOK(items, t)
    ensures forall r :: r in s ==> r in t && multiset(s)[r] == 1
  {
    NoRowTwice(items, s);
    hide ReadOneWay, StrataOK;
    forall r | r in s ensures r in t && multiset(s)[r] == 1 {
      var i :| 0 <= i < |s| && s[i] == r;
      RowIncluded(items, s, t, i);
      OccursOnce(s, i);
    }
  }

  lemma NoRowTwice(items: seq<Item>, s: seq<Stratum>)
    requires StrataOK(items, s)
    ensures forall i, j :: 0 <= i < j < |s| ==> s[i] != s[j]
  {
    hide StratumKey, ItemKey, CountOf, HasStratum;
  }

  lemma RowIncluded(items: seq<Item>, s: seq<Stratum>, t: seq<Stratum>, i: nat)
    requires ReadOneWay(items) && StrataOK(items, s) && StrataOK(items, t) && i < |s|
    ensures s[i] in t
  {
    hide StratumKey, ItemKey, ReadOneWay, CountOf;
    FineCount(s[i]);
    CountedKeys(items, StratumKey(s[i]));
    var n :| 0 <= n < |items| && ItemKey(items[n]) == StratumKey(s[i]);
    assert HasStratum(t, ItemKey(items[n]));
    var k :| 0 <= k < |t| && StratumKey(t[k]) == ItemKey(items[n]);
    StratumOfKey(items, s[i], t[k]);
  }

  /** Some accepted strata: one for each key, named like one of its items. */
  lemma SomeAccepted(items: seq<Item>) returns (strata: seq<Stratum>)
    requires forall i :: i in items ==> !Blank(i.strategy) && !Blank(i.format)
    ensures StrataOK(items, strata)
  {
    var counts := CountedSomehow(items, |items|);
    TextsInOrder(counts.Keys);
    ListingAscending(Before, counts.Keys);
    var keys := Listing(Before, counts.Keys);
    hide *;
    forall k | 0 <= k < |keys| ensures keys[k] in counts {
      InRows(keys, k);
    }
    strata := seq(|keys|, k requires 0 <= k < |keys| => counts[keys[k]]);
    ListsByKey(items, counts, keys, strata);
    NamedFine(items, strata);
    BuiltAccepted(items, strata);
  }

  lemma NamedFine(items: seq<Item>, strata: seq<Stratum>)
    requires forall s :: s in strata ==> Named(items, s)
    requires forall i :: i in items ==> !Blank(i.strategy) && !Blank(i.format)
    ensures forall i :: 0 <= i < |strata| ==> !Blank(strata[i].strategy) && !Blank(strata[i].format)
  {
    hide Blank;
    forall i | 0 <= i < |strata| ensures !Blank(strata[i].strategy) && !Blank(strata[i].format) {
      assert Named(items, strata[i]);
    }
  }

  lemma {:induction false} CountedSomehow(items: seq<Item>, n: nat) returns (counts: map<string, Stratum>)
    requires n <= |items|
    ensures Counted(items, n, counts)
  {
    if n == 0 {
      counts := map[];
    } else {
      var before := CountedSomehow(items, n - 1);
      CountedNext(items, n - 1, before);
      var i, key := items[n - 1], ItemKey(items[n - 1]);
      counts := before[key := Stratum(i.strategy, i.format, (if key in before then before[key].count else 0) + 1)];
    }
  }

  /** A stratum renamed without changing its key stays acceptable, and is another row. */
  lemma Renamed(items: seq<Item>, s: seq<Stratum>, k: nat, strategy: string, format: string)
    requires StrataOK(items, s) && k < |s| && !Blank(strategy) && !Blank(format)
    requires Key(strategy, format) == StratumKey(s[k]) && (strategy != s[k].strategy || format != s[k].format)
    ensures var t := s[k := Stratum(strategy, format, s[k].count)];
            StrataOK(items, t) && multiset(s) != multiset(t)
  {
    hide Blank, CountOf, Key, ItemKey;
    var t := s[k := Stratum(strategy, format, s[k].count)];
    assert forall i :: 0 <= i < |s| ==> StratumKey(t[i]) == StratumKey(s[i]);
    forall key | HasStratum(s, key) ensures HasStratum(t, key) {
      var i :| 0 <= i < |s| && StratumKey(s[i]) == key;
      assert StratumKey(t[i]) == key;
    }
    NoRowTwice(items, s);
    hide StrataOK;
    assert s[k] in multiset(s) && s[k] !in t;
  }

  /** Every two accepted lists of strata are permutations of each other. */
  ghost predicate StrataDetermined(items: seq<Item>) {
    forall s, t :: StrataOK(items, s) && StrataOK(items, t) ==> multiset(s) == multiset(t)
  }

  /** Named items determine their strata exactly when no key reads two ways. */
  lemma DeterminedIff(items: seq<Item>)
    requires forall i :: i in items ==> !Blank(i.strategy) && !Blank(i.format)
    ensures StrataDetermined(items) <==> ReadOneWay(items)
  {
    hide StrataOK, OneReading, Blank;
    if ReadOneWay(items) {
      forall s, t | StrataOK(items, s) && StrataOK(items, t) ensures multiset(s) == multiset(t) {
        AcceptedIsPermutation(items, s, t);
      }
    } else {
      var i :| i in items && !OneReading(i);
      ReadsTwice(items, i);
    }
  }

  lemma AnotherReading(i: Item) returns (strategy: string, format: string)
    requires !OneReading(i)
    ensures !Blank(strategy) && !Blank(format) && Key(strategy, format) == ItemKey(i)
    ensures strategy != i.strategy || format != i.format
  {
    hide Blank, Key;
    strategy, format :| !Blank(strategy) && !Blank(format) && Key(strategy, format) == ItemKey(i) &&
                        (strategy != i.strategy || format != i.format);
  }

  lemma StratumFor(items: seq<Item>, s: seq<Stratum>, i: Item) returns (k: nat)
    requires StrataOK(items, s) && i in items
    ensures k < |s| && StratumKey(s[k]) == ItemKey(i)
  {
    hide StratumFine, CountOf, StratumKey, ItemKey;
    var n :| 0 <= n < |items| && items[n] == i;
    assert HasStratum(s, ItemKey(items[n]));
    k :| 0 <= k < |s| && StratumKey(s[k]) == ItemKey(i);
  }

  lemma ReadsTwice(items: seq<Item>, i: Item)
    requires forall i :: i in items ==> !Blank(i.strategy) && !Blank(i.format)
    requires i in items && !OneReading(i)
    ensures !StrataDetermined(items)
  {
    assert ItemKey(i) == Key(i.strategy, i.format);
    hide *;
    var a, b := AnotherReading(i);
    var s := SomeAccepted(items);
    var k := StratumFor(items, s, i);
    if s[k].strategy != a || s[k].format != b {
      Renamed(items, s, k, a, b);
      NotDetermined(items, s, s[k := Stratum(a, b, s[k].count)]);
    } else {
      Renamed(items, s, k, i.strategy, i.format);
      NotDetermined(items, s, s[k := Stratum(i.strategy, i.format, s[k].count)]);
    }
  }

  lemma OneStratum(i: Item, s: Stratum)
    requires StratumKey(s) == ItemKey(i) && StratumFine(s) && s.count == 1
    ensures StrataOK([i], [s])
  {
    hide StratumKey, ItemKey, StratumFine;
    assert [i][..0] == [];
    assert CountOf([], ItemKey(i)) == 0 && CountOf([i], ItemKey(i)) == 1;
    assert StratumKey([s][0]) == ItemKey([i][0]);
    hide CountOf;
  }

  /** One item, whose key reads two ways: both readings are accepted. */
  lemma TwoReadings(i: Item)
    requires i.strategy == "a\0b" && i.format == "c"
    ensures StrataOK([i], [Stratum("a\0b", "c", 1)]) && StrataOK([i], [Stratum("a", "b\0c", 1)])
    ensures !StrataDetermined([i])
  {
    var s, t := Stratum("a\0b", "c", 1), Stratum("a", "b\0c", 1);
    assert Key("a\0b", "c") == Key("a", "b\0c");
    assert |s.strategy| != |t.strategy|;
    TightIsBounded("a\0b", 3);
    TightIsBounded("c", 1);
    TightIsBounded("a", 1);
    TightIsBounded("b\0c", 3);
    hide Blank, Key;
    OneStratum(i, s);
    OneStratum(i, t);
    hide *;
    assert s in multiset([s]) && s !in multiset([t]);
    NotDetermined([i], [s], [t]);
  }

  lemma NotDetermined(items: seq<Item>, s: seq<Stratum>, t: seq<Stratum>)
    requires StrataOK(items, s) && StrataOK(items, t) && multiset(s) != multiset(t)
    ensures !StrataDetermined(items)
  {
    hide StrataOK;
  }

  lemma OccursOnce(s: seq<Stratum>, i: nat)
    requires i < |s| && forall j, k :: 0 <= j < k < |s| ==> s[j] != s[k]
    ensures multiset(s)[s[i]] == 1
  {
    var before, after := s[..i], s[i + 1..];
    assert s == before + [s[i]] + after;
    assert s[i] !in before && s[i] !in after;
    assert multiset(s) == multiset(before) + multiset{s[i]} + multiset(after);
  }

  // ------------------------------------------------------------- whole inventories

  function RecordEntry(r: SourceRecord): Entry { Entry(r.id, r.occurrenceIDs) }
  function ItemEntry(i: Item): Entry { Entry(i.id, i.occurrenceIDs) }
  function OwningRecord(o: Occurrence): string { o.recordID }
  function OwningItem(o: Occurrence): string { o.itemID }

  function Entries<R>(rows: seq<R>, entry: R -> Entry): (es: seq<Entry>)
    ensures |es| == |rows| && forall i :: 0 <= i < |rows| ==> es[i] == entry(rows[i])
  {
    seq(|rows|, i requires 0 <= i < |rows| => entry(rows[i]))
  }

  function Owners(occurrences: seq<Occurrence>, owner: Occurrence -> string): map<string, string> {
    if occurrences == [] then map[]
    else
      var last := occurrences[|occurrences| - 1];
      Owners(occurrences[..|occurrences| - 1], owner)[last.id := owner(last)]
  }

  ghost predicate DistinctOccurrences(occurrences: seq<Occurrence>) {
    forall i, j :: 0 <= i < j < |occurrences| ==> occurrences[i].id != occurrences[j].id
  }

  lemma {:induction false} OwnersOf(occurrences: seq<Occurrence>, owner: Occurrence -> string, id: string)
    ensures id in Owners(occurrences, owner) <==> exists i :: 0 <= i < |occurrences| && occurrences[i].id == id
    ensures DistinctOccurrences(occurrences) ==> forall i :: 0 <= i < |occurrences| && occurrences[i].id == id ==>
              Owners(occurrences, owner)[id] == owner(occurrences[i])
  {
    if occurrences != [] {
      var n := |occurrences| - 1;
      var front := occurrences[..n];
      OwnersOf(front, owner, id);
      assert forall i :: 0 <= i < n ==> front[i] == occurrences[i];
      if i :| 0 <= i < |occurrences| && occurrences[i].id == id && i < n {
        assert front[i].id == id;
      }
    }
  }

  lemma {:induction false} OwnersCount(occurrences: seq<Occurrence>, owner: Occurrence -> string)
    requires DistinctOccurrences(occurrences)
    ensures |Owners(occurrences, owner)| == |occurrences|
  {
    if occurrences != [] {
      var n := |occurrences| - 1;
      var front := occurrences[..n];
      assert forall i :: 0 <= i < n ==> front[i] == occurrences[i];
      OwnersCount(front, owner);
      OwnersOf(front, owner, occurrences[n].id);
      assert occurrences[n].id !in Owners(front, owner);
    }
  }

  predicate RecordFine(rules: Rules, r: SourceRecord) {
    ValidID(r.id) && rules.recordFine(r.details)
  }

  predicate ItemFine(rules: Rules, i: Item) {
    && ValidID(i.id) && !Blank(i.kind) && !Blank(i.strategy) && !Blank(i.format)
    && match i.access
       case Redacted => i.url == "" && i.kind == "unknown_sensitive" && i.strategy == "manual_support" &&
         i.format == "sensitive_redacted"
       case Public => rules.web(i.url).Some?
       case OtherAccess(_) => false
  }

  /** Public items have URLs of their own; a redacted one has none to compare. */
  function ItemAddress(rules: Rules, i: Item): (bool, string) {
    if i.access.Public? && rules.web(i.url).Some? then (true, rules.web(i.url).value) else (false, i.id)
  }

  /** An occurrence on its own, given the records there are and its item, if any. */
  predicate OccurrenceFine(rules: Rules, o: Occurrence, recordKnown: bool, item: Option<Item>) {
    && o.ordinal >= 0 && ValidID(o.id) && recordKnown && item.Some?
    && !o.sanitization.OtherSanitization? && (o.sanitization.RedactedURL? <==> item.value.access.Redacted?)
    && (if o.sanitization.RedactedURL? then o.url == "" else rules.web(o.url).Some?)
  }

  ghost predicate HasRecord(s: Snapshot, id: string) {
    exists r :: r in s.records && r.id == id
  }

  ghost predicate RecordsValid(rules: Rules, s: Snapshot) {
    && (forall i :: 0 <= i < |s.records| ==> RecordFine(rules, s.records[i]) && CleanIDs(s.records[i].occurrenceIDs))
    && (forall i, j :: 0 <= i < j < |s.records| ==> s.records[i].id != s.records[j].id)
  }

  ghost predicate ItemsValid(rules: Rules, s: Snapshot) {
    && (forall i :: 0 <= i < |s.items| ==> ItemFine(rules, s.items[i]) && CleanIDs(s.items[i].occurrenceIDs))
    && (forall i, j :: 0 <= i < j < |s.items| ==>
          s.items[i].id != s.items[j].id && ItemAddress(rules, s.items[i]) != ItemAddress(rules, s.items[j]))
  }

  ghost predicate OccurrencesValid(rules: Rules, s: Snapshot) {
    && (forall i :: 0 <= i < |s.occurrences| ==> OccurrenceValid(rules, s, s.occurrences[i]))
    && (forall i, j :: 0 <= i < j < |s.occurrences| ==>
          s.occurrences[i].id != s.occurrences[j].id && Place(s.occurrences[i]) != Place(s.occurrences[j]))
  }

  ghost predicate OccurrenceValid(rules: Rules, s: Snapshot, o: Occurrence) {
    HasRecord(s, o.recordID) && exists i :: i in s.items && i.id == o.itemID && OccurrenceFine(rules, o, true, Some(i))
  }

  /** An ordinal is digits only, so record and ordinal can be told apart in the key. */
  function Place(o: Occurrence): (string, int) { (o.recordID, o.ordinal) }
  function OccurrenceID(o: Occurrence): string { o.id }
  function RecordID(r: SourceRecord): string { r.id }
  function ItemID(i: Item): string { i.id }

  predicate ChecksFine(checks: seq<Completeness>) {
    forall i :: 0 <= i < |checks| ==> !Blank(checks[i].check) && checks[i].count >= 0 && checks[i].statusKnown
  }

  predicate HeaderFine(rules: Rules, s: Snapshot) {
    && !Blank(s.identity) && !Blank(s.watermark)
    && s.occurrenceCount == |s.occurrences| && s.canonicalCount == |s.items|
    && |s.records| <= MAXIMUM_RECORDS && |s.occurrences| <= MAXIMUM_OCCURRENCES && |s.items| <= MAXIMUM_ITEMS
    && s.fingerprint != "" && s.fingerprint == rules.hash(s.(fingerprint := ""))
  }

  /** What an accepted inventory is. */
  ghost predicate Valid(rules: Rules, s: Snapshot) {
    && HeaderFine(rules, s) && RecordsValid(rules, s) && ItemsValid(rules, s) && OccurrencesValid(rules, s)
    && Accounts(Entries(s.records, RecordEntry), Owners(s.occurrences, OwningRecord))
    && Accounts(Entries(s.items, ItemEntry), Owners(s.occurrences, OwningItem))
    && StrataOK(s.items, s.strata) && ChecksFine(s.checks)
  }

  method RowsClean<R>(rows: seq<R>, ids: R -> seq<string>) returns (ok: bool)
    ensures ok <==> forall i :: 0 <= i < |rows| ==> CleanIDs(ids(rows[i]))
  {
    hide CleanIDs;
    for n := 0 to |rows|
      invariant forall i :: 0 <= i < n ==> CleanIDs(ids(rows[i]))
    {
      var found := HasEmptyOrDuplicate(ids(rows[n]));
      if found {
        return false;
      }
    }
    ok := true;
  }

  method ValidateRecords(rules: Rules, s: Snapshot) returns (ok: bool, known: set<string>)
    ensures ok <==> RecordsValid(rules, s)
    ensures ok ==> forall id :: id in known <==> HasRecord(s, id)
  {
    hide RecordFine, CleanIDs;
    ok, known := ScanRows((r: SourceRecord) => RecordFine(rules, r), RecordID, RecordID, s.records);
    if ok {
      ok := RowsClean(s.records, (r: SourceRecord) => r.occurrenceIDs);
    }
  }

  /** The items by id; a lookup finds the item there is. */
  ghost predicate Indexed(items: seq<Item>, table: map<string, Item>) {
    && (forall i :: 0 <= i < |items| ==> items[i].id in table && table[items[i].id] == items[i])
    && (forall id :: id in table ==> table[id] in items && table[id].id == id)
  }

  method ValidateItems(rules: Rules, s: Snapshot) returns (ok: bool, table: map<string, Item>)
    ensures ok <==> ItemsValid(rules, s)
    ensures ok ==> Indexed(s.items, table)
  {
    hide ItemFine, CleanIDs, ItemAddress;
    var ids;
    table := map[];
    ok, ids := ScanRows((i: Item) => ItemFine(rules, i), ItemID, (i: Item) => ItemAddress(rules, i), s.items);
    if ok {
      ok := RowsClean(s.items, (i: Item) => i.occurrenceIDs);
    }
    if ok {
      table := IndexItems(s.items);
    }
  }

  method IndexItems(items: seq<Item>) returns (table: map<string, Item>)
    requires forall i, j :: 0 <= i < j < |items| ==> items[i].id != items[j].id
    ensures Indexed(items, table)
  {
    var inserted;
    inserted, table := InsertRows((i: Item) => true, ItemID, items);
    forall i | 0 <= i < |items| ensures items[i].id in table && table[items[i].id] == items[i] {
      assert items[i] in Rows(items);
    }
    forall id | id in table ensures table[id] in items {
      assert table[id] in table.Values;
    }
  }

  function Find(table: map<string, Item>, id: string): Option<Item> {
    if id in table then Some(table[id]) else None
  }

  lemma FoundIff(rules: Rules, s: Snapshot, known: set<string>, table: map<string, Item>, o: Occurrence)
    requires Indexed(s.items, table) && forall id :: id in known <==> HasRecord(s, id)
    ensures OccurrenceFine(rules, o, o.recordID in known, Find(table, o.itemID)) <==> OccurrenceValid(rules, s, o)
  {
    hide ValidID, HasRecord;
    if o.itemID in table {
      assert table[o.itemID] in s.items;
    }
    if i :| i in s.items && i.id == o.itemID {
      var n :| 0 <= n < |s.items| && s.items[n] == i;
      assert table[o.itemID] == i;
    }
  }

  method ValidateOccurrences(rules: Rules, s: Snapshot, known: set<string>, table: map<string, Item>) returns (ok: bool)
    requires Indexed(s.items, table) && forall id :: id in known <==> HasRecord(s, id)
    ensures ok <==> OccurrencesValid(rules, s)
  {
    forall o: Occurrence ensures OccurrenceFine(rules, o, o.recordID in known, Find(table, o.itemID)) <==>
      OccurrenceValid(rules, s, o)
    {
      FoundIff(rules, s, known, table, o);
    }
    hide OccurrenceFine, OccurrenceValid, Find, Indexed, HasRecord;
    var ids;
    ok, ids := ScanRows((o: Occurrence) => OccurrenceFine(rules, o, o.recordID in known, Find(table, o.itemID)),
                        OccurrenceID, Place, s.occurrences);
    hide Place;
  }

  method CollectOwners(occurrences: seq<Occurrence>, owner: Occurrence -> string) returns (owners: map<string, string>)
    ensures owners == Owners(occurrences, owner)
  {
    owners := map[];
    for n := 0 to |occurrences|
      invariant owners == Owners(occurrences[..n], owner)
    {
      assert occurrences[..n + 1][..n] == occurrences[..n];
      owners := owners[occurrences[n].id := owner(occurrences[n])];
    }
    assert occurrences[..|occurrences|] == occurrences;
  }

  /** ValidateInventory */
  method ValidateInventory(rules: Rules, s: Snapshot) returns (ok: bool)
    ensures ok <==> Valid(rules, s)
  {
    hide OccurrencesValid, Accounts, StrataOK, ChecksFine, ItemFine, RecordFine, CleanIDs, ItemAddress, HasRecord;
    if !HeaderFine(rules, s) {
      return false;
    }
    hide HeaderFine;
    var known, table;
    ok, known := ValidateRecords(rules, s);
    if !ok {
      return;
    }
    ok, table := ValidateItems(rules, s);
    if !ok {
      return;
    }
    ok := ValidateOccurrences(rules, s, known, table);
    if !ok {
      return;
    }
    var owners := CollectOwners(s.occurrences, OwningRecord);
    ok := CheckSide(Entries(s.records, RecordEntry), owners);
    if !ok {
      return;
    }
    owners := CollectOwners(s.occurrences, OwningItem);
    ok := CheckSide(Entries(s.items, ItemEntry), owners);
    if !ok {
      return;
    }
    ok := ValidateStrata(s.items, s.strata);
    ok := ok && ChecksFine(s.checks);
  }

  /** Both sides of an accepted inventory add up to the declared occurrence count,
      and each occurrence is entered once on either side. */
  lemma DoubleEntry(rules: Rules, s: Snapshot)
    requires Valid(rules, s)
    ensures Length(Entries(s.records, RecordEntry)) == Length(Entries(s.items, ItemEntry)) == s.occurrenceCount
    ensures forall k :: 0 <= k < |s.occurrences| ==>
              && EnteredOnce(Entries(s.records, RecordEntry), s.occurrences[k].id, s.occurrences[k].recordID)
              && EnteredOnce(Entries(s.items, ItemEntry), s.occurrences[k].id, s.occurrences[k].itemID)
  {
    SidesClean(rules, s);
    hide *;
    OwnersCount(s.occurrences, OwningRecord);
    OwnersCount(s.occurrences, OwningItem);
    LengthIsCount(Entries(s.records, RecordEntry), Owners(s.occurrences, OwningRecord));
    LengthIsCount(Entries(s.items, ItemEntry), Owners(s.occurrences, OwningItem));
    forall k | 0 <= k < |s.occurrences|
      ensures EnteredOnce(Entries(s.records, RecordEntry), s.occurrences[k].id, s.occurrences[k].recordID)
      ensures EnteredOnce(Entries(s.items, ItemEntry), s.occurrences[k].id, s.occurrences[k].itemID)
    {
      EnteredBy(Entries(s.records, RecordEntry), s.occurrences, OwningRecord, k);
      EnteredBy(Entries(s.items, ItemEntry), s.occurrences, OwningItem, k);
      OwnerIs(s.occurrences[k]);
    }
  }

  lemma EnteredBy(entries: seq<Entry>, occurrences: seq<Occurrence>, owner: Occurrence -> string, k: nat)
    requires k < |occurrences| && DistinctOccurrences(occurrences)
    requires DistinctOwners(entries) && Accounts(entries, Owners(occurrences, owner))
    ensures EnteredOnce(entries, occurrences[k].id, owner(occurrences[k]))
  {
    hide *;
    OwnersOf(occurrences, owner, occurrences[k].id);
    ListedOnce(entries, Owners(occurrences, owner), occurrences[k].id);
  }

  lemma OwnerIs(o: Occurrence)
    ensures OwningRecord(o) == o.recordID && OwningItem(o) == o.itemID
  {
  }

  lemma SidesClean(rules: Rules, s: Snapshot)
    requires Valid(rules, s)
    ensures DistinctOccurrences(s.occurrences) && s.occurrenceCount == |s.occurrences|
    ensures DistinctOwners(Entries(s.records, RecordEntry)) && CleanEntries(Entries(s.records, RecordEntry))
    ensures DistinctOwners(Entries(s.items, ItemEntry)) && CleanEntries(Entries(s.items, ItemEntry))
    ensures Accounts(Entries(s.records, RecordEntry), Owners(s.occurrences, OwningRecord))
    ensures Accounts(Entries(s.items, ItemEntry), Owners(s.occurrences, OwningItem))
  {
    hide Accounts, StrataOK, ItemFine, RecordFine, OccurrenceValid, CleanIDs, Owners, Place, ItemAddress;
  }
}
