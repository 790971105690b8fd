/** Listings in order: what SELECT ... ORDER BY returns and what sort.Slice
    leaves behind. A strict order admits one ascending sequence per set of
    rows, so the two agree whenever they hold the same rows. */
module Ordering {
  import opened Text

  ghost predicate StrictOrder<R(!new)>(less: (R, R) -> bool) {
    && (forall a :: !less(a, a))
    && (forall a, b, c :: less(a, b) && less(b, c) ==> less(a, c))
  }

  /** Any two different rows of the set are comparable: their keys differ. */
  ghost predicate Comparable<R(!new)>(less: (R, R) -> bool, rows: set<R>) {
    forall a, b :: a in rows && b in rows ==> a == b || less(a, b) || less(b, a)
  }

  ghost predicate Ascending<R>(less: (R, R) -> bool, s: seq<R>) {
    forall i, j :: 0 <= i < j < |s| ==> less(s[i], s[j])
  }

  lemma TextsInOrder(texts: set<string>)
    ensures StrictOrder(Before) && Comparable(Before, texts)
  {
    BeforeIsOrder();
  }

  ghost function Rows<R>(s: seq<R>): set<R> {
    set r | r in s
  }

  lemma RowsEmpty<R>(s: seq<R>)
    ensures Rows(s) == {} <==> s == []
  {
    if s != [] {
      assert s[0] in Rows(s);
    }
  }

  /** A subset has no more members, and as many only when it is the whole set. */
  lemma {:induction false} SubsetCount<R>(a: set<R>, b: set<R>)
    requires a <= b
    ensures |a| <= |b| && (|a| == |b| <==> a == b)
  {
    if r :| r in a {
      SubsetCount(a - {r}, b - {r});
      assert b == (b - {r}) + {r} && a == (a - {r}) + {r};
    }
  }

  lemma {:induction false} AscendingUnique<R(!new)>(less: (R, R) -> bool, s: seq<R>, t: seq<R>)
    requires StrictOrder(less) && Ascending(less, s) && Ascending(less, t)
    requires Rows(s) == Rows(t)
    ensures s == t
    decreases |s|
  {
    RowsEmpty(s);
    RowsEmpty(t);
    if s != [] {
      assert s[0] in Rows(t) && t[0] in Rows(s);
      assert s[0] == t[0];
      forall r ensures r in Rows(s[1..]) <==> r in Rows(t[1..]) {
        assert r in Rows(s) <==> r == s[0] || r in s[1..];
        assert r in Rows(t) <==> r == t[0] || r in t[1..];
        if r in s[1..] {
          assert less(s[0], r);
        }
        if r in t[1..] {
          assert less(t[0], r);
        }
      }
      AscendingUnique(less, s[1..], t[1..]);
      assert s == [s[0]] + s[1..] && t == [t[0]] + t[1..];
    }
  }

  function Insert<R>(less: (R, R) -> bool, r: R, s: seq<R>): (t: seq<R>)
    ensures |t| == |s| + 1
    ensures multiset(t) == multiset(s) + multiset{r}
  {
    if s == [] || less(r, s[0]) then
      [r] + s
    else
      assert s == [s[0]] + s[1..];
      [s[0]] + Insert(less, r, s[1..])
  }

  lemma {:induction false} InsertAscending<R(!new)>(less: (R, R) -> bool, r: R, s: seq<R>)
    requires StrictOrder(less) && Ascending(less, s)
    requires r !in s && Comparable(less, Rows(s) + {r})
    ensures Ascending(less, Insert(less, r, s))
    ensures Rows(Insert(less, r, s)) == Rows(s) + {r}
  {
    var t := Insert(less, r, s);
    forall x ensures x in t <==> x in s || x == r {
      assert multiset(t)[x] == multiset(s)[x] + multiset{r}[x];
      assert x in t <==> x in multiset(t);
      assert x in s <==> x in multiset(s);
    }
    if s == [] || less(r, s[0]) {
      forall i, j | 0 <= i < j < |t| ensures less(t[i], t[j]) {
        if i == 0 && j > 1 {
          assert less(s[0], s[j - 1]);
        }
      }
    } else {
      assert s[0] in Rows(s) + {r};
      assert less(s[0], r);
      InsertAscending(less, r, s[1..]);
      var u := Insert(less, r, s[1..]);
      assert t == [s[0]] + u;
      forall j | 0 <= j < |u| ensures less(s[0], u[j]) {
        assert u[j] in Rows(u);
      }
    }
  }

  /** What sort.Slice does to a slice: insertion keeps every element. */
  function Sorted<R>(less: (R, R) -> bool, s: seq<R>): (t: seq<R>)
    ensures multiset(t) == multiset(s)
  {
    if s == [] then
      []
    else
      assert s == s[..|s| - 1] + [s[|s| - 1]];
      Insert(less, s[|s| - 1], Sorted(less, s[..|s| - 1]))
  }

  ghost predicate Distinct<R>(s: seq<R>) {
    forall i, j :: 0 <= i < j < |s| ==> s[i] != s[j]
  }

  lemma {:induction false} SortedAscending<R(!new)>(less: (R, R) -> bool, s: seq<R>)
    requires StrictOrder(less) && Distinct(s) && Comparable(less, Rows(s))
    ensures Ascending(less, Sorted(less, s))
    ensures Rows(Sorted(less, s)) == Rows(s)
  {
    if s != [] {
      var front, last := s[..|s| - 1], s[|s| - 1];
      assert s == front + [last];
      assert Rows(s) == Rows(front) + {last};
      SortedAscending(less, front);
      assert last !in Rows(Sorted(less, front));
      InsertAscending(less, last, Sorted(less, front));
    }
  }

  /** The one ascending listing of a set of comparable rows. */
  ghost function Listing<R(!new)>(less: (R, R) -> bool, rows: set<R>): seq<R> {
    if rows == {} then
      []
    else
      var r :| r in rows;
      Insert(less, r, Listing(less, rows - {r}))
  }

  lemma {:induction false} ListingAscending<R(!new)>(less: (R, R) -> bool, rows: set<R>)
    requires StrictOrder(less) && Comparable(less, rows)
    ensures Ascending(less, Listing(less, rows))
    ensures Rows(Listing(less, rows)) == rows
    ensures |Listing(less, rows)| == |rows|
    decreases rows
  {
    if rows != {} {
      var r :| r in rows && Listing(less, rows) == Insert(less, r, Listing(less, rows - {r}));
      FewerComparable(less, rows, rows - {r});
      ListingAscending(less, rows - {r});
      NotListed(Listing(less, rows - {r}), rows - {r}, r);
      assert rows - {r} + {r} == rows;
      hide *;
      InsertAscending(less, r, Listing(less, rows - {r}));
      InsertLength(less, r, Listing(less, rows - {r}));
    }
  }

  lemma FewerComparable<R(!new)>(less: (R, R) -> bool, rows: set<R>, fewer: set<R>)
    requires Comparable(less, rows) && fewer <= rows
    ensures Comparable(less, fewer)
  {
  }

  lemma NotListed<R>(s: seq<R>, rows: set<R>, r: R)
    requires Rows(s) == rows && r !in rows
    ensures r !in s
  {
  }

  lemma InsertLength<R>(less: (R, R) -> bool, r: R, s: seq<R>)
    ensures |Insert(less, r, s)| == |s| + 1
  {
    assert |multiset(Insert(less, r, s))| == |multiset(s)| + 1;
  }

  /** Every ascending sequence is the listing of its own rows. */
  lemma ListingOfAscending<R(!new)>(less: (R, R) -> bool, s: seq<R>)
    requires StrictOrder(less) && Ascending(less, s)
    ensures Listing(less, Rows(s)) == s
  {
    forall a, b | a in Rows(s) && b in Rows(s) ensures a == b || less(a, b) || less(b, a) {
      var i :| 0 <= i < |s| && s[i] == a;
      var j :| 0 <= j < |s| && s[j] == b;
    }
    ListingAscending(less, Rows(s));
    AscendingUnique(less, Listing(less, Rows(s)), s);
  }

  /** Sorting any slice that holds each row once gives the listing. */
  lemma SortedIsListing<R(!new)>(less: (R, R) -> bool, s: seq<R>, rows: set<R>)
    requires StrictOrder(less) && Distinct(s) && Rows(s) == rows && Comparable(less, rows)
    ensures Sorted(less, s) == Listing(less, rows)
  {
    SortedAscending(less, s);
    ListingAscending(less, rows);
    AscendingUnique(less, Sorted(less, s), Listing(less, rows));
  }

  /** SELECT ... ORDER BY: rows are visited in any order and filed in place. */
  method SelectOrdered<R(!new)>(less: (R, R) -> bool, rows: set<R>) returns (s: seq<R>)
    requires StrictOrder(less) && Comparable(less, rows)
    ensures s == Listing(less, rows)
    ensures Ascending(less, s) && Rows(s) == rows
  {
    s := [];
    var todo := rows;
    while todo != {}
      invariant todo <= rows
      invariant Ascending(less, s) && Rows(s) == rows - todo
      decreases todo
    {
      var r :| r in todo;
      assert r !in Rows(s);
      assert Rows(s) + {r} <= rows;
      InsertAscending(less, r, s);
      s := Insert(less, r, s);
      todo := todo - {r};
    }
    ListingAscending(less, rows);
    AscendingUnique(less, s, Listing(less, rows));
  }

  /** The scan every preflight starts with: the first row with a key, or none. */
  method IndexOf<K(==), R>(key: R -> K, rows: seq<R>, wanted: K) returns (k: nat)
    ensures k <= |rows|
    ensures k < |rows| ==> key(rows[k]) == wanted
    ensures forall i :: 0 <= i < k ==> key(rows[i]) != wanted
  {
    k := 0;
    while k < |rows| && key(rows[k]) != wanted
      invariant k <= |rows|
      invariant forall i :: 0 <= i < k ==> key(rows[i]) != wanted
    {
      k := k + 1;
    }
  }

  function Spliced<R>(rows: seq<R>, k: nat, row: R): seq<R>
    requires k <= |rows|
  {
    if k < |rows| then rows[k := row] else rows + [row]
  }

  /** Replacing one entry of a listing in place, or appending it, and sorting
      again gives the listing of the table after the row was upserted. */
  lemma SplicedListing<K, R(!new)>(less: (R, R) -> bool, key: R -> K, rows: seq<R>, table: map<K, R>, k: nat, row: R)
    requires StrictOrder(less) && (forall x :: x in table ==> key(table[x]) == x)
    requires Comparable(less, table.Values) && rows == Listing(less, table.Values)
    requires Comparable(less, table[key(row) := row].Values)
    requires k <= |rows| && (k < |rows| ==> key(rows[k]) == key(row))
    requires forall i :: 0 <= i < k ==> key(rows[i]) != key(row)
    ensures Sorted(less, Spliced(rows, k, row)) == Listing(less, table[key(row) := row].Values)
  {
    ListingAscending(less, table.Values);
    ListedKeys(less, key, rows, table);
    SplicedRows(key, rows, table, k, row);
    hide *;
    SortedIsListing(less, Spliced(rows, k, row), table[key(row) := row].Values);
  }

  lemma ListedKeys<K, R(!new)>(less: (R, R) -> bool, key: R -> K, rows: seq<R>, table: map<K, R>)
    requires StrictOrder(less) && (forall x :: x in table ==> key(table[x]) == x)
    requires Ascending(less, rows) && Rows(rows) == table.Values
    ensures forall i :: 0 <= i < |rows| ==> rows[i] in table.Values
    ensures forall i, j :: 0 <= i < j < |rows| ==> key(rows[i]) != key(rows[j])
  {
    forall i | 0 <= i < |rows| ensures rows[i] in table.Values {
      assert rows[i] in Rows(rows);
    }
    forall i, j | 0 <= i < j < |rows| ensures key(rows[i]) != key(rows[j]) {
      assert less(rows[i], rows[j]);
      var x :| x in table && table[x] == rows[i];
      var y :| y in table && table[y] == rows[j];
    }
  }

  /** The spliced slice holds the updated table's rows, each once. */
  lemma SplicedRows<K, R(!new)>(key: R -> K, rows: seq<R>, table: map<K, R>, k: nat, row: R)
    requires forall x :: x in table ==> key(table[x]) == x
    requires Rows(rows) == table.Values && (forall i :: 0 <= i < |rows| ==> rows[i] in table.Values)
    requires forall i, j :: 0 <= i < j < |rows| ==> key(rows[i]) != key(rows[j])
    requires k <= |rows| && (k < |rows| ==> key(rows[k]) == key(row))
    requires forall i :: 0 <= i < k ==> key(rows[i]) != key(row)
    ensures Distinct(Spliced(rows, k, row)) && Rows(Spliced(rows, k, row)) == table[key(row) := row].Values
  {
    var out := Spliced(rows, k, row);
    var after := table[key(row) := row];
    forall i, j | 0 <= i < j < |out| ensures out[i] != out[j] {
      assert key(out[i]) != key(out[j]);
    }
    forall r | r in Rows(out) ensures r in after.Values {
      var i :| 0 <= i < |out| && out[i] == r;
      if i == k {
        assert after[key(row)] == r;
      } else {
        assert key(rows[i]) != key(row);
        var x :| x in table && table[x] == r;
        assert after[x] == r;
      }
    }
    forall r | r in after.Values ensures r in Rows(out) {
      var x :| x in after && after[x] == r;
      if x == key(row) {
        assert out[k] == r;
      } else {
        assert r in Rows(rows);
        var i :| 0 <= i < |rows| && rows[i] == r;
        assert out[i] == r;
      }
    }
  }

  /** Appending a row with a new key to a listing, and sorting, lists it too. */
  lemma AppendedListing<K, R(!new)>(less: (R, R) -> bool, key: R -> K, table: map<K, R>, row: R)
    requires StrictOrder(less) && (forall x :: x in table ==> key(table[x]) == x) && key(row) !in table
    requires Comparable(less, table.Values) && Comparable(less, table[key(row) := row].Values)
    ensures Sorted(less, Listing(less, table.Values) + [row]) == Listing(less, table[key(row) := row].Values)
  {
    var rows := Listing(less, table.Values);
    ListingAscending(less, table.Values);
    hide Sorted, Listing;
    forall i | 0 <= i < |rows| ensures key(rows[i]) != key(row) {
      assert rows[i] in Rows(rows);
      var x :| x in table && table[x] == rows[i];
    }
    SplicedListing(less, key, rows, table, |rows|, row);
  }
}
