/** What an accepted inventory says, row by row. */
module InventoryLaws {
  import opened Text
  import opened Inventory

  /** A name that needs no trimming, and takes up to 256 bytes. */
  ghost predicate NeatID(s: string) {
    s != "" && Trim(s) == s && ByteLength(s) <= 256
  }

  ghost predicate Apart<R, K>(rows: seq<R>, key: R -> K) {
    forall i, j :: 0 <= i < |rows| && 0 <= j < |rows| && key(rows[i]) == key(rows[j]) ==> i == j
  }

  ghost predicate NeatList(ids: seq<string>) {
    Apart(ids, (id: string) => id) && forall id :: id in ids ==> NeatID(id)
  }

  /** A public item has a web address; a redacted one says nothing but that it is one. */
  ghost predicate FineItem(rules: Rules, i: Item) {
    && NeatID(i.id) && NeatList(i.occurrenceIDs)
    && (i.access == Public || i.access == Redacted)
    && (i.access == Public ==>
          rules.web(i.url).Some? && Trim(i.kind) != "" && Trim(i.strategy) != "" && Trim(i.format) != "")
    && (i.access == Redacted ==>
          (i.url, i.kind, i.strategy, i.format) == ("", "unknown_sensitive", "manual_support", "sensitive_redacted"))
  }

  /** An occurrence is of a listed record and item; its address is withheld exactly when
      the item's is. */
  ghost predicate FineOccurrence(rules: Rules, s: Snapshot, o: Occurrence) {
    && NeatID(o.id) && 0 <= o.ordinal
    && (exists r :: r in s.records && r.id == o.recordID)
    && (o.sanitization == Unchanged || o.sanitization == RedactedURL || o.sanitization == ComponentsRemoved)
    && (o.url == "" || o.sanitization != RedactedURL)
    && (o.sanitization != RedactedURL ==> rules.web(o.url).Some?)
    && exists i :: i in s.items && i.id == o.itemID && (i.access == Redacted <==> o.sanitization == RedactedURL)
  }

  /** The header, its counts, limits and seal, and the checks. */
  ghost predicate FineHeader(rules: Rules, s: Snapshot) {
    && Trim(s.identity) != "" && Trim(s.watermark) != ""
    && s.occurrenceCount == |s.occurrences| <= 250000 && s.canonicalCount == |s.items| <= 250000
    && |s.records| <= 100000
    && s.fingerprint == rules.hash(s.(fingerprint := "")) != ""
    && forall c :: c in s.checks ==> Trim(c.check) != "" && 0 <= c.count && c.statusKnown
  }

  ghost predicate AddressesApart(rules: Rules, items: seq<Item>) {
    forall i, j :: 0 <= i < j < |items| && items[i].access == Public && items[j].access == Public ==>
                     rules.web(items[i].url) != rules.web(items[j].url)
  }

  ghost predicate RecordsSay(rules: Rules, s: Snapshot) {
    && Apart(s.records, (r: SourceRecord) => r.id)
    && forall r :: r in s.records ==> NeatID(r.id) && rules.recordFine(r.details) && NeatList(r.occurrenceIDs)
  }

  /** No two items share a name, and no two public ones an address. */
  ghost predicate ItemsSay(rules: Rules, s: Snapshot) {
    && Apart(s.items, (i: Item) => i.id) && AddressesApart(rules, s.items)
    && forall i :: i in s.items ==> FineItem(rules, i)
  }

  /** No two occurrences share a name or a place. */
  ghost predicate OccurrencesSay(rules: Rules, s: Snapshot) {
    && Apart(s.occurrences, (o: Occurrence) => o.id)
    && Apart(s.occurrences, (o: Occurrence) => (o.recordID, o.ordinal))
    && forall o :: o in s.occurrences ==> FineOccurrence(rules, s, o)
  }

  /** An inventory is accepted exactly when its rows say this, its two sides each account
      for every occurrence, and its strata count its items. */
  lemma AcceptedIff(rules: Rules, s: Snapshot)
    ensures Valid(rules, s) <==>
            && FineHeader(rules, s) && RecordsSay(rules, s) && ItemsSay(rules, s) && OccurrencesSay(rules, s)
            && Accounts(Entries(s.records, RecordEntry), Owners(s.occurrences, OwningRecord))
            && Accounts(Entries(s.items, ItemEntry), Owners(s.occurrences, OwningItem))
            && StrataOK(s.items, s.strata)
  {
    HeaderIff(rules, s);
    RecordsIff(rules, s);
    ItemsIff(rules, s);
    OccurrencesIff(rules, s);
    hide HeaderFine, ChecksFine, FineHeader, RecordsValid, ItemsValid, OccurrencesValid, RecordsSay, ItemsSay,
         OccurrencesSay, Accounts, StrataOK, Entries, Owners;
  }

  lemma HeaderIff(rules: Rules, s: Snapshot)
    ensures HeaderFine(rules, s) && ChecksFine(s.checks) <==> FineHeader(rules, s)
  {
    hide Trim;
  }

  lemma ListIff(ids: seq<string>)
    ensures CleanIDs(ids) <==> NeatList(ids)
  {
    hide ValidID, NeatID;
    forall id | id in ids ensures ValidID(id) <==> NeatID(id) {
      NeatIff(id);
    }
  }

  lemma RecordsIff(rules: Rules, s: Snapshot)
    ensures RecordsValid(rules, s) <==> RecordsSay(rules, s)
  {
    hide CleanIDs, NeatList, Trim, ByteLength;
    forall r | r in s.records ensures CleanIDs(r.occurrenceIDs) <==> NeatList(r.occurrenceIDs) {
      ListIff(r.occurrenceIDs);
    }
    assert Trim("") == "";
  }

  lemma ItemIff(rules: Rules, i: Item)
    ensures ItemFine(rules, i) && CleanIDs(i.occurrenceIDs) <==> FineItem(rules, i)
  {
    ListIff(i.occurrenceIDs);
    NeatIff(i.id);
    TightIsBounded("unknown_sensitive", 20);
    TightIsBounded("manual_support", 20);
    TightIsBounded("sensitive_redacted", 20);
    hide CleanIDs, NeatList, ValidID, NeatID, Trim;
  }

  lemma NeatIff(s: string)
    ensures ValidID(s) <==> NeatID(s)
  {
    assert Trim("") == "";
    hide Trim, ByteLength;
  }

  lemma ItemsIff(rules: Rules, s: Snapshot)
    ensures ItemsValid(rules, s) <==> ItemsSay(rules, s)
  {
    hide CleanIDs, FineItem, ItemFine;
    forall i | i in s.items ensures ItemFine(rules, i) && CleanIDs(i.occurrenceIDs) <==> FineItem(rules, i) {
      ItemIff(rules, i);
    }
    if forall i :: i in s.items ==> FineItem(rules, i) {
      forall i, j | 0 <= i < j < |s.items|
        ensures s.items[i].id != s.items[j].id ==>
                  (ItemAddress(rules, s.items[i]) == ItemAddress(rules, s.items[j]) <==>
                   s.items[i].access == Public && s.items[j].access == Public &&
                   rules.web(s.items[i].url) == rules.web(s.items[j].url))
      {
        if s.items[i].id != s.items[j].id {
          AddressIff(rules, s.items[i], s.items[j]);
        }
      }
    }
    hide ItemAddress;
  }

  lemma AddressIff(rules: Rules, a: Item, b: Item)
    requires FineItem(rules, a) && FineItem(rules, b) && a.id != b.id
    ensures ItemAddress(rules, a) == ItemAddress(rules, b) <==>
            a.access == Public && b.access == Public && rules.web(a.url) == rules.web(b.url)
  {
    hide NeatList, NeatID, Trim;
  }

  lemma OccurrenceIff(rules: Rules, s: Snapshot, o: Occurrence)
    ensures OccurrenceValid(rules, s, o) <==> FineOccurrence(rules, s, o)
  {
    NeatIff(o.id);
    hide ValidID, NeatID;
  }

  lemma OccurrencesIff(rules: Rules, s: Snapshot)
    ensures OccurrencesValid(rules, s) <==> OccurrencesSay(rules, s)
  {
    hide OccurrenceValid, FineOccurrence;
    forall o | o in s.occurrences ensures OccurrenceValid(rules, s, o) <==> FineOccurrence(rules, s, o) {
      OccurrenceIff(rules, s, o);
    }
  }
}
