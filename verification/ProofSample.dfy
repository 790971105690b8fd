/** The inventory a proof run works on: a valid inventory cut down to selected
    items keeps its books balanced; and the queue that tracks its review. */
module ProofSample {
  import opened Text
  import opened Ordering
  import opened Inventory
  import ScopedModel

  // ------------------------------------------------------------------- filtering

  function Kept<T>(s: seq<T>, p: T -> bool): seq<T> {
    if s == [] then []
    else Kept(s[..|s| - 1], p) + if p(s[|s| - 1]) then [s[|s| - 1]] else []
  }

  lemma {:induction false} KeptMembers<T>(s: seq<T>, p: T -> bool, x: T)
    ensures x in Kept(s, p) <==> x in s && p(x)
  {
    if s != [] {
      var front, last := s[..|s| - 1], s[|s| - 1];
      assert s == front + [last];
      KeptMembers(front, p, x);
    }
  }

  /** What holds of every pair, in order, holds of every pair that is kept. */
  lemma {:induction false} KeptPairs<T>(s: seq<T>, p: T -> bool, apart: (T, T) -> bool)
    requires forall i, j :: 0 <= i < j < |s| ==> apart(s[i], s[j])
    ensures forall i, j :: 0 <= i < j < |Kept(s, p)| ==> apart(Kept(s, p)[i], Kept(s, p)[j])
  {
    if s != [] {
      var front, last := s[..|s| - 1], s[|s| - 1];
      assert forall i :: 0 <= i < |front| ==> front[i] == s[i];
      KeptPairs(front, p, apart);
      var kept := Kept(front, p);
      forall i | 0 <= i < |kept| ensures apart(kept[i], last) {
        KeptMembers(front, p, kept[i]);
        var k :| 0 <= k < |front| && front[k] == kept[i];
        assert apart(s[k], s[|s| - 1]);
      }
    }
  }

  lemma {:induction false} KeptLength<T>(s: seq<T>, p: T -> bool)
    ensures |Kept(s, p)| <= |s|
  {
    if s != [] {
      KeptLength(s[..|s| - 1], p);
    }
  }

  lemma KeptNext<T>(s: seq<T>, p: T -> bool, n: nat)
    requires n < |s|
    ensures Kept(s[..n + 1], p) == Kept(s[..n], p) + if p(s[n]) then [s[n]] else []
  {
    assert s[..n + 1][..n] == s[..n];
  }

  method Filter<T>(s: seq<T>, p: T -> bool) returns (kept: seq<T>)
    ensures kept == Kept(s, p)
  {
    kept := [];
    for n := 0 to |s|
      invariant kept == Kept(s[..n], p)
    {
      KeptNext(s, p, n);
      if p(s[n]) {
        kept := kept + [s[n]];
      }
    }
    assert s[..|s|] == s;
  }

  function Selects(ids: set<string>): Item -> bool { (i: Item) => i.id in ids }
  function Shows(ids: set<string>): Occurrence -> bool { (o: Occurrence) => o.id in ids }
  function Within(ids: set<string>): string -> bool { (id: string) => id in ids }
  function HasAny(): SourceRecord -> bool { (r: SourceRecord) => r.occurrenceIDs != [] }

  function Cut(r: SourceRecord, ids: set<string>): SourceRecord {
    r.(occurrenceIDs := Kept(r.occurrenceIDs, Within(ids)))
  }

  function CutAll(records: seq<SourceRecord>, ids: set<string>): (cut: seq<SourceRecord>)
    ensures |cut| == |records| && forall i :: 0 <= i < |records| ==> cut[i] == Cut(records[i], ids)
  {
    seq(|records|, i requires 0 <= i < |records| => Cut(records[i], ids))
  }

  ghost function ShownBy(items: seq<Item>): set<string> {
    set i, id | i in items && id in i.occurrenceIDs :: id
  }

  /** The first separator of a key splits it, as SplitN with two parts does. */
  function Split(key: string): (string, string)
    requires '\0' in key
  {
    if key[0] == '\0' then ("", key[1..])
    else
      assert '\0' in key[1..];
      var rest := Split(key[1..]);
      ([key[0]] + rest.0, rest.1)
  }

  lemma {:induction false} SplitJoins(key: string)
    requires '\0' in key
    ensures Key(Split(key).0, Split(key).1) == key && '\0' !in Split(key).0
  {
    if key[0] != '\0' {
      assert '\0' in key[1..];
      SplitJoins(key[1..]);
      var rest := Split(key[1..]);
      assert key == [key[0]] + key[1..];
      assert [key[0]] + rest.0 + "\0" + rest.1 == [key[0]] + (rest.0 + "\0" + rest.1);
    }
  }

  lemma KeyHasSeparator(a: string, b: string)
    ensures '\0' in Key(a, b)
  {
    assert Key(a, b)[|a|] == '\0';
  }

  /** Splitting gives back a name without separators. */
  lemma SplitOfKey(a: string, b: string)
    requires '\0' !in a && '\0' !in b
    ensures '\0' in Key(a, b) && Split(Key(a, b)) == (a, b)
  {
    KeyHasSeparator(a, b);
    SplitJoins(Key(a, b));
    KeySplits(a, b, Split(Key(a, b)).0, Split(Key(a, b)).1);
  }

  /** Each item's names, joined and split again at the first separator, are not blank. */
  ghost predicate SplitNamed(items: seq<Item>) {
    forall i :: i in items ==> '\0' in ItemKey(i) && !Blank(Split(ItemKey(i)).0) && !Blank(Split(ItemKey(i)).1)
  }

  /** The strata of a sample are named by splitting their keys. */
  ghost predicate SplitByKey(strata: seq<Stratum>) {
    forall i :: 0 <= i < |strata| ==>
      '\0' in StratumKey(strata[i]) && Split(StratumKey(strata[i])) == (strata[i].strategy, strata[i].format)
  }

  /** The loop over counted keys. */
  method SampleStrata(items: seq<Item>) returns (strata: seq<Stratum>)
    ensures Lists(items, strata) && SplitByKey(strata)
  {
    var counts := CountKeys(items);
    CountedHaveSeparator(items, counts);
    TextsInOrder(counts.Keys);
    hide *;
    var keys := SelectOrdered(Before, counts.Keys);
    strata := [];
    for n := 0 to |keys|
      invariant |strata| == n && forall k :: 0 <= k < n ==>
                  keys[k] in counts && '\0' in keys[k] &&
                    strata[k] == Stratum(Split(keys[k]).0, Split(keys[k]).1, counts[keys[k]])
    {
      InRows(keys, n);
      strata := strata + [Stratum(Split(keys[n]).0, Split(keys[n]).1, counts[keys[n]])];
    }
    SplitLists(items, counts, keys, strata);
  }

  lemma CountedHaveSeparator(items: seq<Item>, counts: map<string, nat>)
    requires forall key :: key in counts <==> CountOf(items, key) > 0
    ensures forall key :: key in counts ==> '\0' in key
  {
    forall key | key in counts ensures '\0' in key {
      CountedKeys(items, key);
      var i :| 0 <= i < |items| && ItemKey(items[i]) == key;
      KeyHasSeparator(items[i].strategy, items[i].format);
    }
  }

  lemma SplitLists(items: seq<Item>, counts: map<string, nat>, keys: seq<string>, strata: seq<Stratum>)
    requires forall key :: key in counts <==> CountOf(items, key) > 0
    requires forall key :: key in counts ==> counts[key] == CountOf(items, key)
    requires Ascending(Before, keys) && Rows(keys) == counts.Keys && |strata| == |keys|
    requires forall k :: 0 <= k < |keys| ==>
               keys[k] in counts && '\0' in keys[k] &&
                 strata[k] == Stratum(Split(keys[k]).0, Split(keys[k]).1, counts[keys[k]])
    ensures Lists(items, strata) && SplitByKey(strata)
  {
    hide Before, CountOf, Split;
    forall k | 0 <= k < |keys| ensures StratumKey(strata[k]) == keys[k] {
      SplitJoins(keys[k]);
    }
    hide StratumKey;
    forall key | CountOf(items, key) > 0 ensures HasStratum(strata, key) {
      assert key in Rows(keys);
      var i :| 0 <= i < |keys| && keys[i] == key;
      assert StratumKey(strata[i]) == key;
    }
  }

  /** Sampled strata are accepted exactly when every selected item's names survive the split. */
  lemma SampledAccepted(items: seq<Item>, strata: seq<Stratum>)
    requires Lists(items, strata) && SplitByKey(strata)
    ensures StrataOK(items, strata) <==> SplitNamed(items)
  {
    hide CountOf, StratumKey, ItemKey, Split, Blank, Before;
    if SplitNamed(items) {
      forall i | 0 <= i < |strata| ensures !Blank(strata[i].strategy) && !Blank(strata[i].format) {
        CountedKeys(items, StratumKey(strata[i]));
        var n :| 0 <= n < |items| && ItemKey(items[n]) == StratumKey(strata[i]);
      }
      BuiltAccepted(items, strata);
    }
    if StrataOK(items, strata) {
      forall i | i in items
        ensures '\0' in ItemKey(i) && !Blank(Split(ItemKey(i)).0) && !Blank(Split(ItemKey(i)).1)
      {
        var n :| 0 <= n < |items| && items[n] == i;
        var k :| 0 <= k < |strata| && StratumKey(strata[k]) == ItemKey(items[n]);
        NamedStratum(strata[k]);
      }
    }
  }

  lemma NamedStratum(s: Stratum)
    requires StratumFine(s)
    ensures !Blank(s.strategy) && !Blank(s.format)
  {
  }

  // ------------------------------------------------------------------- the books

  /** Who lists an occurrence owns it. */
  ghost predicate ListersOwn<R>(rows: seq<R>, entry: R -> Entry, occurrences: seq<Occurrence>,
                                owner: Occurrence -> string) {
    forall r, id :: r in rows && id in entry(r).ids ==>
      exists o :: o in occurrences && o.id == id && owner(o) == entry(r).owner
  }

  ghost predicate AllListed<R>(rows: seq<R>, entry: R -> Entry, occurrences: seq<Occurrence>) {
    forall o :: o in occurrences ==> exists r :: r in rows && o.id in entry(r).ids
  }

  /** Accounts, said of rows. */
  ghost predicate Books<R>(rows: seq<R>, entry: R -> Entry, occurrences: seq<Occurrence>, owner: Occurrence -> string) {
    ListersOwn(rows, entry, occurrences, owner) && AllListed(rows, entry, occurrences)
  }

  lemma OwnedOccurrence<R>(rows: seq<R>, entry: R -> Entry, occurrences: seq<Occurrence>, owner: Occurrence -> string,
                           r: R, id: string)
    returns (o: Occurrence)
    requires Books(rows, entry, occurrences, owner) && r in rows && id in entry(r).ids
    ensures o in occurrences && o.id == id && owner(o) == entry(r).owner
  {
    hide AllListed;
    o :| o in occurrences && o.id == id && owner(o) == entry(r).owner;
  }

  lemma Lister<R>(rows: seq<R>, entry: R -> Entry, occurrences: seq<Occurrence>, owner: Occurrence -> string,
                  o: Occurrence)
    returns (r: R)
    requires Books(rows, entry, occurrences, owner) && o in occurrences
    ensures r in rows && o.id in entry(r).ids
  {
    hide ListersOwn;
    r :| r in rows && o.id in entry(r).ids;
  }

  lemma AccountsAreBooks<R>(rows: seq<R>, entry: R -> Entry, occurrences: seq<Occurrence>, owner: Occurrence -> string)
    requires DistinctOccurrences(occurrences) && Accounts(Entries(rows, entry), Owners(occurrences, owner))
    ensures Books(rows, entry, occurrences, owner)
  {
    var entries, owners := Entries(rows, entry), Owners(occurrences, owner);
    hide Owners, DistinctOccurrences;
    forall r, id | r in rows && id in entry(r).ids
      ensures exists o :: o in occurrences && o.id == id && owner(o) == entry(r).owner
    {
      var i :| 0 <= i < |rows| && rows[i] == r;
      assert id in entries[i].ids;
      OwnersOf(occurrences, owner, id);
      var k :| 0 <= k < |occurrences| && occurrences[k].id == id;
      assert occurrences[k] in occurrences;
    }
    forall o | o in occurrences ensures exists r :: r in rows && o.id in entry(r).ids {
      OwnersOf(occurrences, owner, o.id);
      var i :| 0 <= i < |entries| && o.id in entries[i].ids;
      assert rows[i] in rows;
    }
  }

  lemma OwnerFound(occurrences: seq<Occurrence>, owner: Occurrence -> string, o: Occurrence)
    requires DistinctOccurrences(occurrences) && o in occurrences
    ensures o.id in Owners(occurrences, owner) && Owners(occurrences, owner)[o.id] == owner(o)
  {
    hide Owners;
    OwnersOf(occurrences, owner, o.id);
    var k :| 0 <= k < |occurrences| && occurrences[k] == o;
  }

  lemma OwnerNamed(occurrences: seq<Occurrence>, owner: Occurrence -> string, id: string)
    requires id in Owners(occurrences, owner)
    ensures exists o :: o in occurrences && o.id == id
  {
    hide Owners;
    OwnersOf(occurrences, owner, id);
    var k :| 0 <= k < |occurrences| && occurrences[k].id == id;
    assert occurrences[k] in occurrences;
  }

  lemma BooksAreAccounts<R>(rows: seq<R>, entry: R -> Entry, occurrences: seq<Occurrence>, owner: Occurrence -> string)
    requires DistinctOccurrences(occurrences) && Books(rows, entry, occurrences, owner)
    ensures Accounts(Entries(rows, entry), Owners(occurrences, owner))
  {
    var entries, owners := Entries(rows, entry), Owners(occurrences, owner);
    hide Owners, DistinctOccurrences, Books;
    forall i, id | 0 <= i < |entries| && id in entries[i].ids ensures id in owners && owners[id] == entries[i].owner {
      assert rows[i] in rows;
      var o := OwnedOccurrence(rows, entry, occurrences, owner, rows[i], id);
      OwnerFound(occurrences, owner, o);
    }
    forall id | id in owners ensures Inventory.ListedBy(entries, |entries|, id) {
      OwnerNamed(occurrences, owner, id);
      var o :| o in occurrences && o.id == id;
      var r := Lister(rows, entry, occurrences, owner, o);
      var i :| 0 <= i < |rows| && rows[i] == r;
      assert id in entries[i].ids;
    }
  }

  // ------------------------------------------------------------------ the sample

  /** What selectProofInventory builds, before it is sealed. */
  ghost predicate Sampled(s: Snapshot, selected: set<string>, t: Snapshot) {
    && t.identity == s.identity && t.watermark == s.watermark && t.checks == []
    && t.items == Kept(s.items, Selects(selected))
    && t.occurrences == Kept(s.occurrences, Shows(ShownBy(t.items)))
    && t.records == Kept(CutAll(s.records, ShownBy(t.items)), HasAny())
    && Lists(t.items, t.strata) && SplitByKey(t.strata)
    && t.occurrenceCount == |t.occurrences| && t.canonicalCount == |t.items|
  }

  /** The fingerprint is the hash of everything else. */
  predicate Sealed(rules: Rules, t: Snapshot) {
    t.fingerprint == rules.hash(t.(fingerprint := "")) && t.fingerprint != ""
  }

  method CollectShown(items: seq<Item>) returns (ids: set<string>)
    ensures ids == ShownBy(items)
  {
    ids := {};
    for n := 0 to |items|
      invariant forall id :: id in ids <==> exists i :: 0 <= i < n && id in items[i].occurrenceIDs
    {
      ids := ids + set id | id in items[n].occurrenceIDs;
    }
    forall id ensures id in ids <==> id in ShownBy(items) {
      if id in ids {
        var i :| 0 <= i < |items| && id in items[i].occurrenceIDs;
        assert items[i] in items;
      }
      if id in ShownBy(items) {
        var i :| i in items && id in i.occurrenceIDs;
        var k :| 0 <= k < |items| && items[k] == i;
      }
    }
  }

  /** selectProofInventory: cut, count, seal, and validate like any inventory. */
  method SelectProofInventory(rules: Rules, s: Snapshot, selectedIDs: seq<string>) returns (ok: bool, t: Snapshot)
    ensures Sampled(s, Rows(selectedIDs), t) && t.fingerprint == rules.hash(t.(fingerprint := ""))
    ensures ok <==> Inventory.Valid(rules, t)
  {
    var selected := set id | id in selectedIDs;
    assert selected == Rows(selectedIDs);
    var items := Filter(s.items, Selects(selected));
    var shown := CollectShown(items);
    var occurrences := Filter(s.occurrences, Shows(shown));
    var records := Filter(CutAll(s.records, shown), HasAny());
    var strata := SampleStrata(items);
    t := Snapshot(s.identity, s.watermark, |occurrences|, |items|, records, occurrences, items, strata, [], "");
    t := t.(fingerprint := rules.hash(t));
    ok := ValidateInventory(rules, t);
  }

  lemma SampleMembers(s: Snapshot, selected: set<string>, t: Snapshot)
    requires Sampled(s, selected, t)
    ensures forall i :: i in t.items <==> i in s.items && i.id in selected
    ensures forall o :: o in t.occurrences <==> o in s.occurrences && o.id in ShownBy(t.items)
    ensures forall r :: r in t.records <==>
            r.occurrenceIDs != [] && exists q :: q in s.records && r == Cut(q, ShownBy(t.items))
  {
    hide Kept, Cut, ShownBy;
    var shown := ShownBy(t.items);
    forall i { KeptMembers(s.items, Selects(selected), i); }
    forall o { KeptMembers(s.occurrences, Shows(shown), o); }
    forall r ensures r in t.records <==> r.occurrenceIDs != [] && exists q :: q in s.records && r == Cut(q, shown) {
      KeptMembers(CutAll(s.records, shown), HasAny(), r);
      if r in CutAll(s.records, shown) {
        var k :| 0 <= k < |s.records| && CutAll(s.records, shown)[k] == r;
        assert s.records[k] in s.records;
      }
      if q :| q in s.records && r == Cut(q, shown) {
        var k :| 0 <= k < |s.records| && s.records[k] == q;
        assert CutAll(s.records, shown)[k] == r;
      }
    }
  }

  lemma CutMembers(r: SourceRecord, shown: set<string>)
    ensures Cut(r, shown).id == r.id && Cut(r, shown).details == r.details
    ensures forall id :: id in Cut(r, shown).occurrenceIDs <==> id in r.occurrenceIDs && id in shown
    ensures CleanIDs(r.occurrenceIDs) ==> CleanIDs(Cut(r, shown).occurrenceIDs)
  {
    hide ValidID;
    forall id { KeptMembers(r.occurrenceIDs, Within(shown), id); }
    if CleanIDs(r.occurrenceIDs) {
      KeptPairs(r.occurrenceIDs, Within(shown), (a, b) => a != b);
      var ids := Cut(r, shown).occurrenceIDs;
      forall i | 0 <= i < |ids| ensures ValidID(ids[i]) {
        KeptMembers(r.occurrenceIDs, Within(shown), ids[i]);
        var k :| 0 <= k < |r.occurrenceIDs| && r.occurrenceIDs[k] == ids[i];
      }
    }
  }

  // -------------------------------------------------------- the sample is valid

  /** The two sides of the books, as an accepted inventory has them. */
  ghost predicate Balanced(s: Snapshot) {
    && Books(s.records, RecordEntry, s.occurrences, OwningRecord)
    && Books(s.items, ItemEntry, s.occurrences, OwningItem)
  }

  lemma ValidBalanced(rules: Rules, s: Snapshot)
    requires Inventory.Valid(rules, s)
    ensures Balanced(s) && DistinctOccurrences(s.occurrences)
  {
    SidesClean(rules, s);
    hide *;
    AccountsAreBooks(s.records, RecordEntry, s.occurrences, OwningRecord);
    AccountsAreBooks(s.items, ItemEntry, s.occurrences, OwningItem);
    BalancedIs(s);
  }

  lemma BalancedIs(s: Snapshot)
    ensures Balanced(s) <==> Books(s.records, RecordEntry, s.occurrences, OwningRecord) &&
                             Books(s.items, ItemEntry, s.occurrences, OwningItem)
  {
  }

  /** Rows with the same identifier are the same row. */
  ghost predicate Identified(s: Snapshot) {
    && (forall a, b :: a in s.items && b in s.items && a.id == b.id ==> a == b)
    && (forall a, b :: a in s.records && b in s.records && a.id == b.id ==> a == b)
    && (forall a, b :: a in s.occurrences && b in s.occurrences && a.id == b.id ==> a == b)
  }

  lemma ValidIdentified(rules: Rules, s: Snapshot)
    requires RecordsValid(rules, s) && ItemsValid(rules, s) && OccurrencesValid(rules, s)
    ensures Identified(s)
  {
    hide RecordFine, ItemFine, CleanIDs, OccurrenceValid, ItemAddress, Place;
    forall a, b | a in s.items && b in s.items && a.id == b.id ensures a == b {
      var i :| 0 <= i < |s.items| && s.items[i] == a;
      var j :| 0 <= j < |s.items| && s.items[j] == b;
    }
    forall a, b | a in s.records && b in s.records && a.id == b.id ensures a == b {
      var i :| 0 <= i < |s.records| && s.records[i] == a;
      var j :| 0 <= j < |s.records| && s.records[j] == b;
    }
    forall a, b | a in s.occurrences && b in s.occurrences && a.id == b.id ensures a == b {
      var i :| 0 <= i < |s.occurrences| && s.occurrences[i] == a;
      var j :| 0 <= j < |s.occurrences| && s.occurrences[j] == b;
    }
  }

  /** What the sample holds, row by row. */
  ghost predicate CutTo(s: Snapshot, selected: set<string>, t: Snapshot) {
    && (forall i :: i in t.items <==> i in s.items && i.id in selected)
    && (forall o :: o in t.occurrences <==> o in s.occurrences && o.id in ShownBy(t.items))
    && (forall q :: q in s.records && Cut(q, ShownBy(t.items)).occurrenceIDs != [] ==>
        Cut(q, ShownBy(t.items)) in t.records)
    && (forall r :: r in t.records ==> exists q :: q in s.records && r == Cut(q, ShownBy(t.items)))
  }

  lemma CutBalanced(s: Snapshot, selected: set<string>, t: Snapshot)
    requires Balanced(s) && Identified(s) && CutTo(s, selected, t)
    ensures Balanced(t)
  {
    hide Books;
    CutRecordBooks(s, selected, t);
    CutItemBooks(s, selected, t);
  }

  lemma CutRecordBooks(s: Snapshot, selected: set<string>, t: Snapshot)
    requires Balanced(s) && CutTo(s, selected, t)
    ensures Books(t.records, RecordEntry, t.occurrences, OwningRecord)
  {
    var shown := ShownBy(t.items);
    assert Books(s.records, RecordEntry, s.occurrences, OwningRecord);
    hide ShownBy, Balanced;
    assert ListersOwn(t.records, RecordEntry, t.occurrences, OwningRecord) by {
      hide Books;
      forall r, id | r in t.records && id in RecordEntry(r).ids
        ensures exists o :: o in t.occurrences && o.id == id && OwningRecord(o) == RecordEntry(r).owner
      {
        var q :| q in s.records && r == Cut(q, shown);
        CutMembers(q, shown);
        var o := OwnedOccurrence(s.records, RecordEntry, s.occurrences, OwningRecord, q, id);
        assert o in t.occurrences;
      }
    }
    assert AllListed(t.records, RecordEntry, t.occurrences) by {
      hide Books;
      forall o | o in t.occurrences ensures exists r :: r in t.records && o.id in RecordEntry(r).ids {
        var q := Lister(s.records, RecordEntry, s.occurrences, OwningRecord, o);
        CutMembers(q, shown);
        assert o.id in RecordEntry(Cut(q, shown)).ids;
      }
    }
  }

  lemma Shown(items: seq<Item>, i: Item, id: string)
    requires i in items && id in i.occurrenceIDs
    ensures id in ShownBy(items)
  {
  }

  lemma Showing(items: seq<Item>, id: string) returns (i: Item)
    requires id in ShownBy(items)
    ensures i in items && id in i.occurrenceIDs
  {
    i :| i in items && id in i.occurrenceIDs;
  }

  lemma CutItemBooks(s: Snapshot, selected: set<string>, t: Snapshot)
    requires Balanced(s) && CutTo(s, selected, t)
    ensures Books(t.items, ItemEntry, t.occurrences, OwningItem)
  {
    assert Books(s.items, ItemEntry, s.occurrences, OwningItem);
    hide Balanced, ShownBy;
    assert ListersOwn(t.items, ItemEntry, t.occurrences, OwningItem) by {
      hide Books;
      forall i, id | i in t.items && id in ItemEntry(i).ids
        ensures exists o :: o in t.occurrences && o.id == id && OwningItem(o) == ItemEntry(i).owner
      {
        var o := OwnedOccurrence(s.items, ItemEntry, s.occurrences, OwningItem, i, id);
        Shown(t.items, i, id);
        assert o in t.occurrences;
      }
    }
    assert AllListed(t.items, ItemEntry, t.occurrences) by {
      hide Books;
      forall o | o in t.occurrences ensures exists i :: i in t.items && o.id in ItemEntry(i).ids {
        var i := Showing(t.items, o.id);
        assert o.id in ItemEntry(i).ids;
      }
    }
  }

  /** A kept occurrence's record and item are kept. */
  lemma CutOccurrences(rules: Rules, s: Snapshot, selected: set<string>, t: Snapshot, o: Occurrence)
    requires Balanced(s) && Identified(s) && CutTo(s, selected, t)
    requires o in t.occurrences && OccurrenceValid(rules, s, o)
    ensures OccurrenceValid(rules, t, o)
  {
    hide OccurrenceFine, Books;
    var i :| i in s.items && i.id == o.itemID && OccurrenceFine(rules, o, true, ScopedModel.Some(i));
    var k :| k in t.items && o.id in k.occurrenceIDs;
    var p := OwnedOccurrence(s.items, ItemEntry, s.occurrences, OwningItem, k, o.id);
    assert p == o && k == i;
    var q := Lister(s.records, RecordEntry, s.occurrences, OwningRecord, o);
    var w := OwnedOccurrence(s.records, RecordEntry, s.occurrences, OwningRecord, q, o.id);
    assert w == o;
    CutMembers(q, ShownBy(t.items));
    hide ShownBy;
    assert o.id in Cut(q, ShownBy(t.items)).occurrenceIDs;
    assert Cut(q, ShownBy(t.items)) in t.records;
  }

  lemma SampleIsCut(s: Snapshot, selected: set<string>, t: Snapshot)
    requires Sampled(s, selected, t)
    ensures CutTo(s, selected, t)
  {
    SampleMembers(s, selected, t);
    hide Kept, Cut, ShownBy, Lists, SplitByKey;
  }

  lemma SampleHeader(rules: Rules, s: Snapshot, selected: set<string>, t: Snapshot)
    requires HeaderFine(rules, s) && Sampled(s, selected, t) && Sealed(rules, t)
    ensures HeaderFine(rules, t)
  {
    KeptLength(s.items, Selects(selected));
    KeptLength(s.occurrences, Shows(ShownBy(t.items)));
    KeptLength(CutAll(s.records, ShownBy(t.items)), HasAny());
    hide Kept, ShownBy, Lists, SplitByKey, Blank, Cut;
  }

  lemma SampleRecords(rules: Rules, s: Snapshot, selected: set<string>, t: Snapshot)
    requires RecordsValid(rules, s) && Sampled(s, selected, t)
    ensures RecordsValid(rules, t)
  {
    var shown := ShownBy(t.items);
    var cut := CutAll(s.records, shown);
    hide ShownBy, Lists, SplitByKey, CleanIDs, RecordFine, Kept;
    forall i | 0 <= i < |cut| ensures RecordFine(rules, cut[i]) && CleanIDs(cut[i].occurrenceIDs) {
      CutMembers(s.records[i], shown);
      SameFine(rules, s.records[i], cut[i]);
    }
    forall i, j | 0 <= i < j < |cut| ensures cut[i].id != cut[j].id {
      CutMembers(s.records[i], shown);
      CutMembers(s.records[j], shown);
    }
    hide CutAll, Cut;
    KeptPairs(cut, HasAny(), (a: SourceRecord, b: SourceRecord) => a.id != b.id);
    forall i | 0 <= i < |t.records| ensures RecordFine(rules, t.records[i]) && CleanIDs(t.records[i].occurrenceIDs) {
      KeptMembers(cut, HasAny(), t.records[i]);
      var k :| 0 <= k < |cut| && cut[k] == t.records[i];
    }
  }

  lemma SameFine(rules: Rules, r: SourceRecord, q: SourceRecord)
    requires RecordFine(rules, r) && q.id == r.id && q.details == r.details
    ensures RecordFine(rules, q)
  {
  }

  lemma SampleItems(rules: Rules, s: Snapshot, selected: set<string>, t: Snapshot)
    requires ItemsValid(rules, s) && Sampled(s, selected, t)
    ensures ItemsValid(rules, t)
  {
    hide ShownBy, Lists, SplitByKey, CleanIDs, ItemFine, Kept, ItemAddress, CutAll, Shows, HasAny;
    KeptPairs(s.items, Selects(selected),
              (a: Item, b: Item) => a.id != b.id && ItemAddress(rules, a) != ItemAddress(rules, b));
    forall i | 0 <= i < |t.items| ensures ItemFine(rules, t.items[i]) && CleanIDs(t.items[i].occurrenceIDs) {
      KeptMembers(s.items, Selects(selected), t.items[i]);
      var k :| 0 <= k < |s.items| && s.items[k] == t.items[i];
    }
  }

  lemma SampleOccurrences(rules: Rules, s: Snapshot, selected: set<string>, t: Snapshot)
    requires RecordsValid(rules, s) && ItemsValid(rules, s) && OccurrencesValid(rules, s)
    requires Balanced(s) && Sampled(s, selected, t)
    ensures OccurrencesValid(rules, t)
  {
    ValidIdentified(rules, s);
    SampleIsCut(s, selected, t);
    SamplePlaces(rules, s, selected, t);
    hide *;
    forall o | o in t.occurrences ensures OccurrenceValid(rules, t, o) {
      ShownWasValid(rules, s, selected, t, o);
      CutOccurrences(rules, s, selected, t, o);
    }
    OccurrencesAre(rules, t);
  }

  ghost predicate PlacesDiffer(occurrences: seq<Occurrence>) {
    forall i, j :: 0 <= i < j < |occurrences| ==>
      occurrences[i].id != occurrences[j].id && Place(occurrences[i]) != Place(occurrences[j])
  }

  lemma OccurrencesAre(rules: Rules, s: Snapshot)
    ensures OccurrencesValid(rules, s) <==>
            (forall o :: o in s.occurrences ==> OccurrenceValid(rules, s, o)) && PlacesDiffer(s.occurrences)
  {
    hide OccurrenceValid, Place;
  }

  lemma SamplePlaces(rules: Rules, s: Snapshot, selected: set<string>, t: Snapshot)
    requires OccurrencesValid(rules, s) && Sampled(s, selected, t)
    ensures PlacesDiffer(t.occurrences)
  {
    OccurrencesAre(rules, s);
    hide OccurrencesValid, ShownBy, Lists, SplitByKey, CutAll, Selects, HasAny;
    KeptApart(s.occurrences, Shows(ShownBy(t.items)));
  }

  lemma ShownWasValid(rules: Rules, s: Snapshot, selected: set<string>, t: Snapshot, o: Occurrence)
    requires OccurrencesValid(rules, s) && Sampled(s, selected, t) && o in t.occurrences
    ensures OccurrenceValid(rules, s, o)
  {
    OccurrencesAre(rules, s);
    hide OccurrencesValid, ShownBy, Lists, SplitByKey, CutAll, Selects, HasAny, Kept, OccurrenceValid;
    KeptMembers(s.occurrences, Shows(ShownBy(t.items)), o);
  }

  lemma KeptApart(occurrences: seq<Occurrence>, p: Occurrence -> bool)
    requires PlacesDiffer(occurrences)
    ensures PlacesDiffer(Kept(occurrences, p))
  {
    hide Kept, Place;
    KeptPairs(occurrences, p, (a: Occurrence, b: Occurrence) => a.id != b.id && Place(a) != Place(b));
  }

  lemma SampleAccounts(rules: Rules, s: Snapshot, selected: set<string>, t: Snapshot)
    requires RecordsValid(rules, s) && ItemsValid(rules, s) && OccurrencesValid(rules, s)
    requires Balanced(s) && Sampled(s, selected, t) && OccurrencesValid(rules, t)
    ensures Accounts(Entries(t.records, RecordEntry), Owners(t.occurrences, OwningRecord))
    ensures Accounts(Entries(t.items, ItemEntry), Owners(t.occurrences, OwningItem))
  {
    ValidIdentified(rules, s);
    SampleIsCut(s, selected, t);
    assert DistinctOccurrences(t.occurrences) by {
      hide OccurrenceValid, Place, Sampled, Balanced, Identified, CutTo;
    }
    hide *;
    CutBalanced(s, selected, t);
    BalancedIs(t);
    BooksAreAccounts(t.records, RecordEntry, t.occurrences, OwningRecord);
    BooksAreAccounts(t.items, ItemEntry, t.occurrences, OwningItem);
  }

  /** A valid inventory cut down to any selection is valid again, exactly when
      each selected item's stratum can be named from its key. */
  lemma SampleValid(rules: Rules, s: Snapshot, selected: set<string>, t: Snapshot)
    requires Inventory.Valid(rules, s) && Sampled(s, selected, t) && Sealed(rules, t)
    ensures Inventory.Valid(rules, t) <==> SplitNamed(t.items)
  {
    ValidBalanced(rules, s);
    ValidParts(rules, s);
    SampleListed(s, selected, t);
    hide Inventory.Valid, HeaderFine, Sampled, Sealed;
    hide RecordsValid, ItemsValid, OccurrencesValid, Balanced, Accounts, StrataOK, SplitNamed, Lists, SplitByKey;
    SampleHeader(rules, s, selected, t);
    SampleRecords(rules, s, selected, t);
    SampleItems(rules, s, selected, t);
    SampleOccurrences(rules, s, selected, t);
    SampleAccounts(rules, s, selected, t);
    SampledAccepted(t.items, t.strata);
    ValidParts(rules, t);
  }

  lemma SampleListed(s: Snapshot, selected: set<string>, t: Snapshot)
    requires Sampled(s, selected, t)
    ensures Lists(t.items, t.strata) && SplitByKey(t.strata) && t.checks == []
  {
  }

  lemma ValidParts(rules: Rules, s: Snapshot)
    ensures Inventory.Valid(rules, s) <==>
            && HeaderFine(rules, s) && RecordsValid(rules, s) && ItemsValid(rules, s) && OccurrencesValid(rules, s)
            && Accounts(Entries(s.records, RecordEntry), Owners(s.occurrences, OwningRecord))
            && Accounts(Entries(s.items, ItemEntry), Owners(s.occurrences, OwningItem))
            && StrataOK(s.items, s.strata) && ChecksFine(s.checks)
  {
  }

  /** Names without separators survive, so such an inventory is closed under sampling. */
  lemma SampleOfNulFree(rules: Rules, s: Snapshot, selected: set<string>, t: Snapshot)
    requires Inventory.Valid(rules, s) && NulFree(s.items) && Sampled(s, selected, t) && Sealed(rules, t)
    ensures Inventory.Valid(rules, t)
  {
    hide *;
    SampleValid(rules, s, selected, t);
    SampleIsCut(s, selected, t);
    ValidParts(rules, s);
    SplitSurvives(rules, s, selected, t);
  }

  lemma SplitSurvives(rules: Rules, s: Snapshot, selected: set<string>, t: Snapshot)
    requires ItemsValid(rules, s) && NulFree(s.items) && CutTo(s, selected, t)
    ensures SplitNamed(t.items)
  {
    hide ItemFine, Blank, ItemKey, CleanIDs, ItemAddress, Cut, ShownBy;
    forall i | i in t.items ensures '\0' in ItemKey(i) && !Blank(Split(ItemKey(i)).0) && !Blank(Split(ItemKey(i)).1) {
      var k :| 0 <= k < |s.items| && s.items[k] == i;
      NamesSurvive(rules, i);
    }
  }

  lemma NamesSurvive(rules: Rules, i: Item)
    requires ItemFine(rules, i) && '\0' !in i.strategy && '\0' !in i.format
    ensures '\0' in ItemKey(i) && !Blank(Split(ItemKey(i)).0) && !Blank(Split(ItemKey(i)).1)
  {
    SplitOfKey(i.strategy, i.format);
  }

  /** A name that starts with a space and a separator does not survive. */
  lemma SeparatorInName(format: string)
    requires !Blank(format)
    ensures !Blank(" \0x") && Blank(Split(Key(" \0x", format)).0)
  {
    var key := Key(" \0x", format);
    KeyHasSeparator(" \0x", format);
    assert key[0] == ' ' && key[1] == '\0' && key[1..][0] == '\0';
    assert Split(key[1..]).0 == "";
    assert Split(key).0 == " ";
    assert TrimLeft(" ") == TrimLeft(" "[1..]) == "";
    assert TrimLeft(" \0x") == TrimLeft(" \0x"[1..]);
    assert " \0x"[1..] == "\0x";
    assert TrimLeft("\0x") == "\0x";
    assert TrimRight("\0x") == "\0x";
  }

  // ------------------------------------------------- an inventory not sampled

  const PAGE := Item("i", "u", "k", ["o"], " \0x", "f", Public)
  const SEEN := Occurrence("o", "r", 0, "u", "i", Unchanged)
  const LOGGED := SourceRecord("r", ["o"], "d")

  /** One record, one occurrence, one item with such a name. */
  function OnePage(rules: Rules): Snapshot {
    var s := Snapshot("s", "w", 1, 1, [LOGGED], [SEEN], [PAGE], [Stratum(" \0x", "f", 1)], [], "");
    s.(fingerprint := rules.hash(s))
  }

  predicate Lenient(rules: Rules) {
    rules.web("u").Some? && rules.recordFine("d") && rules.hash(OnePage(rules).(fingerprint := "")) != ""
  }

  lemma Words()
    ensures !Blank("s") && !Blank("w") && !Blank("k") && !Blank("f") && !Blank(" \0x")
    ensures ValidID("i") && ValidID("o") && ValidID("r")
  {
    TightIsBounded("s", 1);
    TightIsBounded("w", 1);
    TightIsBounded("k", 1);
    TightIsBounded("f", 1);
    TightIsBounded("i", 1);
    TightIsBounded("o", 1);
    TightIsBounded("r", 1);
    assert ByteLength("i") == ByteLength("o") == ByteLength("r") == 1;
    SeparatorInName("f");
  }

  lemma OnePageRows(rules: Rules, s: Snapshot)
    requires Lenient(rules) && s == OnePage(rules)
    ensures HeaderFine(rules, s) && RecordsValid(rules, s) && ItemsValid(rules, s) && OccurrencesValid(rules, s)
  {
    Words();
    hide Blank, ValidID;
    assert s.records[0] in s.records && s.items[0] in s.items;
  }

  lemma OneOwner(owner: Occurrence -> string)
    ensures Owners([SEEN], owner) == map["o" := owner(SEEN)]
  {
    assert [SEEN][..0] == [];
    assert Owners([], owner) == map[];
  }

  lemma OnePageAccounts(rules: Rules, s: Snapshot)
    requires s == OnePage(rules)
    ensures Accounts(Entries(s.records, RecordEntry), Owners(s.occurrences, OwningRecord))
    ensures Accounts(Entries(s.items, ItemEntry), Owners(s.occurrences, OwningItem))
  {
    OneOwner(OwningRecord);
    OneOwner(OwningItem);
    hide Owners, Accounts;
    OneAccount(Entries(s.records, RecordEntry), Owners(s.occurrences, OwningRecord), "r");
    OneAccount(Entries(s.items, ItemEntry), Owners(s.occurrences, OwningItem), "i");
  }

  lemma OneAccount(entries: seq<Entry>, owners: map<string, string>, owner: string)
    requires entries == [Entry(owner, ["o"])] && owners == map["o" := owner]
    ensures Accounts(entries, owners)
  {
    assert "o" in entries[0].ids;
  }

  lemma OnePageStrata(rules: Rules, s: Snapshot)
    requires s == OnePage(rules)
    ensures StrataOK(s.items, s.strata)
  {
    Words();
    hide Blank, ValidID, Key;
    assert s.items[..0] == [];
    assert CountOf(s.items, ItemKey(PAGE)) == CountOf(s.items[..0], ItemKey(PAGE)) + 1 == 1;
    assert StratumKey(s.strata[0]) == ItemKey(s.items[0]) == ItemKey(PAGE);
  }

  lemma OnePageValid(rules: Rules, s: Snapshot)
    requires Lenient(rules) && s == OnePage(rules)
    ensures Inventory.Valid(rules, s)
  {
    OnePageRows(rules, s);
    OnePageAccounts(rules, s);
    OnePageStrata(rules, s);
    hide HeaderFine, RecordsValid, ItemsValid, OccurrencesValid, Accounts, StrataOK, Owners, Entries;
  }

  /** A valid inventory with such an item, whose sample is refused. */
  method SampleRefused(rules: Rules) returns (s: Snapshot, ok: bool)
    requires Lenient(rules)
    ensures Inventory.Valid(rules, s) && s.items == [PAGE] && !ok
  {
    OnePageValid(rules, OnePage(rules));
    OnePageItems(rules);
    hide *;
    s := OnePage(rules);
    var t;
    ok, t := SelectProofInventory(rules, s, ["i"]);
    if ok {
      PageRefused(rules, s, t);
    }
  }

  lemma OnePageItems(rules: Rules)
    ensures OnePage(rules).items == [PAGE]
  {
  }

  lemma PageRefused(rules: Rules, s: Snapshot, t: Snapshot)
    requires Inventory.Valid(rules, s) && s.items == [PAGE] && Sampled(s, Rows(["i"]), t)
    ensures !Inventory.Valid(rules, t)
  {
    SampleItemsAre(s, Rows(["i"]), t);
    PageKept(t, s);
    ValidSealed(rules, t);
    hide *;
    if Inventory.Valid(rules, t) {
      SampleValid(rules, s, Rows(["i"]), t);
    }
  }

  lemma SampleItemsAre(s: Snapshot, selected: set<string>, t: Snapshot)
    requires Sampled(s, selected, t)
    ensures t.items == Kept(s.items, Selects(selected))
  {
  }

  lemma ValidSealed(rules: Rules, t: Snapshot)
    ensures Inventory.Valid(rules, t) ==> Sealed(rules, t)
  {
    hide RecordsValid, ItemsValid, OccurrencesValid, Accounts, StrataOK, ChecksFine;
  }

  lemma PageKept(t: Snapshot, s: Snapshot)
    requires s.items == [PAGE] && t.items == Kept(s.items, Selects(Rows(["i"])))
    ensures t.items == [PAGE] && !SplitNamed(t.items)
  {
    Words();
    SeparatorInName("f");
    assert "i" in ["i"];
    KeptNext(s.items, Selects(Rows(["i"])), 0);
    assert s.items[..1] == s.items && s.items[..0] == [];
    hide Blank, Split;
    assert PAGE in t.items;
  }
}
