/** The queue of a frozen sample: one row per canonical item, sealed when it is built
    and sealed again when the founder review is done and its rows are marked. */
module ReviewQueue {
  import opened Text
  import opened Ordering
  import opened ScopedModel
  import Inventory

  datatype State = Unselected | Pending | Reviewed
  datatype Row = Row(id: string, stratum: string, state: State)
  datatype Sample = Sample(fingerprint: string, selectedIDs: seq<string>)
  datatype Queue = Queue(schema: string, fingerprint: string, inventory: string, sample: string, items: seq<Row>,
                         selectedCount: int, unselectedCount: int)

  const SCHEMA := "mindline-frozen-activation-queue/v0.1"

  predicate RowLess(a: Row, b: Row) { Before(a.id, b.id) }

  function RowFor(i: Inventory.Item, selected: set<string>): Row {
    Row(i.id, i.strategy + "|" + i.format, if i.id in selected then Pending else Unselected)
  }

  ghost predicate DistinctItems(items: seq<Inventory.Item>) {
    forall i, j :: 0 <= i < j < |items| ==> items[i].id != items[j].id
  }

  /** The rows of the items, by ascending id, and how many of them are selected. */
  ghost predicate Frozen(items: seq<Inventory.Item>, selected: set<string>, queue: seq<Row>, chosen: nat, rest: nat) {
    && Ascending(RowLess, queue)
    && (forall r :: r in queue <==> exists i :: i in items && r == RowFor(i, selected))
    && |queue| == |items| == chosen + rest && chosen == |PendingIDs(queue)|
  }

  ghost function PendingIDs(queue: seq<Row>): set<string> {
    set r | r in queue && r.state.Pending? :: r.id
  }

  lemma RowOrder(rows: set<Row>)
    requires forall a, b :: a in rows && b in rows && a.id == b.id ==> a == b
    ensures StrictOrder(RowLess) && Comparable(RowLess, rows)
  {
    BeforeIsOrder();
  }

  /** A queue's fingerprint is that of the queue without it. */
  predicate Sealed(hash: Queue -> string, q: Queue) {
    q.fingerprint != "" && q.fingerprint == hash(q.(fingerprint := ""))
  }

  function Resealed(hash: Queue -> string, q: Queue): Queue {
    q.(fingerprint := hash(q.(fingerprint := "")))
  }

  /** The queue is of this inventory and this sample. */
  predicate Tied(q: Queue, s: Inventory.Snapshot, sample: Sample) {
    q.inventory == s.fingerprint && q.sample == sample.fingerprint
  }

  /** What an accepted frozen queue is. */
  ghost predicate QueueOK(hash: Queue -> string, q: Queue, s: Inventory.Snapshot, sample: Sample) {
    && q.schema == SCHEMA && Sealed(hash, q) && Tied(q, s, sample)
    && q.selectedCount >= 0 && q.unselectedCount >= 0
    && Frozen(s.items, Rows(sample.selectedIDs), q.items, q.selectedCount, q.unselectedCount)
  }

  /** Items and sample determine the rows and the counts. */
  lemma FrozenUnique(items: seq<Inventory.Item>, selected: set<string>, a: seq<Row>, b: seq<Row>, i: nat, j: nat,
                     k: nat, l: nat)
    requires Frozen(items, selected, a, i, j) && Frozen(items, selected, b, k, l)
    ensures a == b && i == k && j == l
  {
    BeforeIsOrder();
    forall r ensures r in Rows(a) <==> r in Rows(b) {
      assert r in a <==> r in b;
    }
    assert Rows(a) == Rows(b);
    AscendingUnique(RowLess, a, b);
  }

  /** buildQueueProjection; the queue is returned exactly when its fingerprint is not empty. */
  method BuildQueue(hash: Queue -> string, s: Inventory.Snapshot, sample: Sample) returns (queue: Option<Queue>)
    requires DistinctItems(s.items)
    ensures queue.Some? ==> QueueOK(hash, queue.value, s, sample)
    ensures queue.None? ==> forall q :: !QueueOK(hash, q, s, sample)
  {
    var rows, chosen, rest := BuildUnchecked(s.items, sample.selectedIDs);
    var q := Resealed(hash, Queue(SCHEMA, "", s.fingerprint, sample.fingerprint, rows, chosen, rest));
    var ok := ValidateQueue(hash, q, s, sample);
    queue := if ok then Some(q) else None;
    forall other | QueueOK(hash, other, s, sample) ensures other == q {
      FrozenUnique(s.items, Rows(sample.selectedIDs), rows, other.items, chosen, rest, other.selectedCount,
                   other.unselectedCount);
      assert other.(fingerprint := "") == q.(fingerprint := "");
    }
  }

  /** validateQueueProjection: the queue is compared with one built anew. */
  method ValidateQueue(hash: Queue -> string, q: Queue, s: Inventory.Snapshot, sample: Sample) returns (ok: bool)
    requires DistinctItems(s.items)
    ensures ok <==> QueueOK(hash, q, s, sample)
  {
    if q.schema != SCHEMA || !Sealed(hash, q) || !Tied(q, s, sample) || |q.items| != |s.items| {
      return false;
    }
    var rows, chosen, rest := BuildUnchecked(s.items, sample.selectedIDs);
    ok := q.items == rows && q.selectedCount == chosen && q.unselectedCount == rest;
    if QueueOK(hash, q, s, sample) {
      FrozenUnique(s.items, Rows(sample.selectedIDs), rows, q.items, chosen, rest, q.selectedCount, q.unselectedCount);
    }
  }

  /** buildQueueProjectionUnchecked, short of the seal */
  method BuildUnchecked(items: seq<Inventory.Item>, selectedIDs: seq<string>)
    returns (queue: seq<Row>, chosen: nat, rest: nat)
    requires DistinctItems(items)
    ensures Frozen(items, Rows(selectedIDs), queue, chosen, rest)
  {
    var selected := set id | id in selectedIDs;
    assert selected == Rows(selectedIDs);
    queue, chosen, rest := BuildRows(items, selected);
    SameRows(items, selected, queue);
    hide RowLess, RowFor, PendingIDs;
    queue := SortRows(queue);
    forall r ensures r in queue <==> exists i :: i in items && r == RowFor(i, selected) {
      assert r in queue <==> r in Rows(queue);
    }
  }

  method BuildRows(items: seq<Inventory.Item>, selected: set<string>) returns (queue: seq<Row>, chosen: nat, rest: nat)
    requires DistinctItems(items)
    ensures |queue| == |items| == chosen + rest
    ensures forall k :: 0 <= k < |items| ==> queue[k] == RowFor(items[k], selected)
    ensures chosen == |PendingIDs(queue)|
  {
    queue, chosen, rest := [], 0, 0;
    NonePending();
    forall i ensures RowFor(i, selected).id == i.id {}
    hide PendingIDs, RowFor;
    for n := 0 to |items|
      invariant |queue| == n == chosen + rest
      invariant forall k :: 0 <= k < n ==> queue[k] == RowFor(items[k], selected)
      invariant chosen == |PendingIDs(queue)|
    {
      var row := RowFor(items[n], selected);
      assert forall k :: 0 <= k < n ==> queue[k].id != row.id;
      OneMoreRow(queue, row);
      if row.state.Pending? {
        chosen := chosen + 1;
      } else {
        rest := rest + 1;
      }
      queue := queue + [row];
    }
  }

  lemma NonePending()
    ensures PendingIDs([]) == {}
  {
  }

  method SortRows(built: seq<Row>) returns (queue: seq<Row>)
    requires Distinct(built) && forall a, b :: a in Rows(built) && b in Rows(built) && a.id == b.id ==> a == b
    ensures Ascending(RowLess, queue) && |queue| == |built| && Rows(queue) == Rows(built)
    ensures PendingIDs(queue) == PendingIDs(built)
  {
    RowOrder(Rows(built));
    hide RowLess;
    SortedAscending(RowLess, built);
    queue := Sorted(RowLess, built);
    assert |queue| == |built| by {
      assert |multiset(queue)| == |multiset(built)|;
    }
    SamePending(built, queue);
  }

  lemma OneMoreRow(queue: seq<Row>, row: Row)
    requires forall k :: 0 <= k < |queue| ==> queue[k].id != row.id
    ensures |PendingIDs(queue + [row])| == |PendingIDs(queue)| + if row.state.Pending? then 1 else 0
  {
    assert PendingIDs(queue + [row]) == PendingIDs(queue) + if row.state.Pending? then {row.id} else {};
    assert row.id !in PendingIDs(queue);
  }

  lemma SamePending(a: seq<Row>, b: seq<Row>)
    requires Rows(a) == Rows(b)
    ensures PendingIDs(a) == PendingIDs(b)
  {
    forall r ensures r in a <==> r in b {
      assert r in a <==> r in Rows(a);
    }
  }

  lemma SameRows(items: seq<Inventory.Item>, selected: set<string>, queue: seq<Row>)
    requires DistinctItems(items) && |queue| == |items|
    requires forall k :: 0 <= k < |items| ==> queue[k] == RowFor(items[k], selected)
    ensures forall r :: r in Rows(queue) <==> exists i :: i in items && r == RowFor(i, selected)
    ensures Distinct(queue) && forall a, b :: a in Rows(queue) && b in Rows(queue) && a.id == b.id ==> a == b
  {
    forall i | i in items ensures RowFor(i, selected) in queue {
      var k :| 0 <= k < |items| && items[k] == i;
      assert queue[k] == RowFor(i, selected);
    }
    forall r | r in queue ensures exists i :: i in items && r == RowFor(i, selected) {
      var k :| 0 <= k < |queue| && queue[k] == r;
      assert items[k] in items;
    }
  }

  function Marked(queue: seq<Row>): (m: seq<Row>)
    ensures |m| == |queue|
    ensures forall i :: 0 <= i < |queue| ==>
              m[i].id == queue[i].id && m[i].stratum == queue[i].stratum && !m[i].state.Pending?
  {
    seq(|queue|, i requires 0 <= i < |queue| =>
      if queue[i].state.Pending? then queue[i].(state := Reviewed) else queue[i])
  }

  /** What the reviewed queue's own validator demands of the rows: it counts them and
      checks their states, and does not compare their ids with the inventory's. */
  ghost predicate RowsReviewed(queue: seq<Row>, selected: set<string>, items: nat) {
    && |queue| == items && (forall i, j :: 0 <= i < j < |queue| ==> queue[i].id != queue[j].id)
    && forall i :: 0 <= i < |queue| ==> queue[i].state == if queue[i].id in selected then Reviewed else Unselected
  }

  /** What an accepted reviewed queue is; its schema and counts are not looked at. */
  ghost predicate ReviewOK(hash: Queue -> string, q: Queue, s: Inventory.Snapshot, sample: Sample) {
    Sealed(hash, q) && Tied(q, s, sample) && RowsReviewed(q.items, Rows(sample.selectedIDs), |s.items|)
  }

  /** validateReviewedQueueProjection */
  method ValidateReviewed(hash: Queue -> string, q: Queue, s: Inventory.Snapshot, sample: Sample) returns (ok: bool)
    ensures ok <==> ReviewOK(hash, q, s, sample)
  {
    var queue := q.items;
    if !Sealed(hash, q) || !Tied(q, s, sample) || |queue| != |s.items| {
      return false;
    }
    var selected := set id | id in sample.selectedIDs;
    assert selected == Rows(sample.selectedIDs);
    var seen: set<string> := {};
    for n := 0 to |queue|
      invariant seen == set k | 0 <= k < n :: queue[k].id
      invariant forall i, j :: 0 <= i < j < n ==> queue[i].id != queue[j].id
      invariant forall i :: 0 <= i < n ==> queue[i].state == if queue[i].id in selected then Reviewed else Unselected
    {
      var r := queue[n];
      if r.id in seen || (r.id in selected && !r.state.Reviewed?) || (r.id !in selected && !r.state.Unselected?) {
        return false;
      }
      seen := seen + {r.id};
    }
    ok := true;
  }

  /** The part of the application that holds the frozen queue. */
  class Desk {
    const hash: Queue -> string
    var queue: Option<Queue>
    var inventory: Option<Inventory.Snapshot>
    var sample: Option<Sample>

    constructor (hash: Queue -> string)
      ensures this.hash == hash && queue.None? && inventory.None? && sample.None?
    {
      this.hash, queue, inventory, sample := hash, None, None, None;
    }

    /** markQueueReviewedLocked: the rows are marked and the queue sealed again, also
        when the validator then refuses it. */
    method MarkReviewed() returns (ok: bool)
      modifies this`queue
      ensures queue == if old(queue).Some? && inventory.Some? && sample.Some? then
                         Some(Resealed(hash, old(queue).value.(items := Marked(old(queue).value.items))))
                       else old(queue)
      ensures ok <==> queue.Some? && inventory.Some? && sample.Some? &&
                      ReviewOK(hash, queue.value, inventory.value, sample.value)
    {
      if queue.None? || inventory.None? || sample.None? {
        return false;
      }
      ghost var was := queue.value;
      for i := 0 to |queue.value.items|
        invariant queue.Some? && |queue.value.items| == |was.items| && queue.value == was.(items := queue.value.items)
        invariant forall k :: 0 <= k < i ==> queue.value.items[k] == Marked(was.items)[k]
        invariant forall k :: i <= k < |was.items| ==> queue.value.items[k] == was.items[k]
      {
        var row := queue.value.items[i];
        if row.state.Pending? {
          queue := Some(queue.value.(items := queue.value.items[i := row.(state := Reviewed)]));
        }
      }
      assert queue.value.items == Marked(was.items);
      queue := Some(queue.value.(fingerprint := ""));
      queue := Some(queue.value.(fingerprint := hash(queue.value)));
      ok := ValidateReviewed(hash, queue.value, inventory.value, sample.value);
    }
  }

  /** A frozen queue that is marked and sealed again is accepted, and still lists the
      inventory's items, each selected one reviewed. */
  lemma MarkedIsAccepted(hash: Queue -> string, q: Queue, s: Inventory.Snapshot, sample: Sample)
    requires QueueOK(hash, q, s, sample) && DistinctItems(s.items)
    ensures var m := Resealed(hash, q.(items := Marked(q.items)));
            && (ReviewOK(hash, m, s, sample) <==> m.fingerprint != "")
            && (forall i :: i in s.items ==> exists r :: r in m.items && r.id == i.id)
            && (forall r :: r in m.items ==> exists i :: i in s.items && i.id == r.id)
  {
    MarkedRows(s.items, Rows(sample.selectedIDs), q.items, q.selectedCount, q.unselectedCount);
    hide Frozen, Marked, RowsReviewed;
  }

  lemma MarkedRows(items: seq<Inventory.Item>, selected: set<string>, queue: seq<Row>, chosen: nat, rest: nat)
    requires Frozen(items, selected, queue, chosen, rest) && DistinctItems(items)
    ensures RowsReviewed(Marked(queue), selected, |items|)
    ensures forall i :: i in items ==> exists r :: r in Marked(queue) && r.id == i.id
    ensures forall r :: r in Marked(queue) ==> exists i :: i in items && i.id == r.id
  {
    var m := Marked(queue);
    forall i, j | 0 <= i < j < |m| ensures m[i].id != m[j].id {
      assert RowLess(queue[i], queue[j]);
      BeforeIrreflexive(queue[i].id);
    }
    forall i | 0 <= i < |m| ensures m[i].state == if m[i].id in selected then Reviewed else Unselected {
      assert queue[i] in queue;
    }
    forall i | i in items ensures exists r :: r in m && r.id == i.id {
      assert RowFor(i, selected) in queue;
      var n :| 0 <= n < |queue| && queue[n] == RowFor(i, selected);
      assert m[n] in m;
    }
    forall r | r in m ensures exists i :: i in items && i.id == r.id {
      var n :| 0 <= n < |m| && m[n] == r;
      assert queue[n] in queue;
    }
  }

  /** A queue passes both validators only when none of its items is selected. */
  lemma NeverBoth(hash: Queue -> string, q: Queue, s: Inventory.Snapshot, sample: Sample)
    requires QueueOK(hash, q, s, sample) && DistinctItems(s.items)
    ensures ReviewOK(hash, q, s, sample) <==> forall i :: i in s.items ==> i.id !in sample.selectedIDs
  {
    var selected := Rows(sample.selectedIDs);
    MarkedRows(s.items, selected, q.items, q.selectedCount, q.unselectedCount);
    forall i | i in s.items && i.id in sample.selectedIDs ensures !RowsReviewed(q.items, selected, |s.items|) {
      assert RowFor(i, selected) in q.items;
    }
    if forall i :: i in s.items ==> i.id !in sample.selectedIDs {
      forall r | r in q.items ensures r.state.Unselected? {
        var i :| i in s.items && r == RowFor(i, selected);
      }
      assert Marked(q.items) == q.items;
    }
  }

  /** The reviewed queue's validator knows how many items there are and which were
      selected, and nothing else of them: it takes a row of an item that is not there. */
  lemma ReviewedElsewhere(hash: Queue -> string, s: Inventory.Snapshot, sample: Sample)
    requires |s.items| == 1 && s.items[0].id == "here" && sample.selectedIDs == []
    requires forall q :: hash(q) != ""
    ensures var q := Queue("", "", s.fingerprint, sample.fingerprint, [Row("gone", "", Unselected)], 0, 0);
            ReviewOK(hash, Resealed(hash, q), s, sample)
  {
  }

  /** What a frozen queue says of each item, and what it counts. */
  lemma QueueSays(hash: Queue -> string, q: Queue, s: Inventory.Snapshot, sample: Sample, i: Inventory.Item)
    requires QueueOK(hash, q, s, sample) && i in s.items
    ensures exists r :: r in q.items && r.id == i.id && r.stratum == i.strategy + "|" + i.format &&
              r.state == if i.id in sample.selectedIDs then Pending else Unselected
    ensures q.selectedCount == |set r | r in q.items && r.state == Pending :: r.id|
    ensures q.selectedCount + q.unselectedCount == |q.items| == |s.items|
  {
    assert RowFor(i, Rows(sample.selectedIDs)) in q.items;
    assert PendingIDs(q.items) == set r | r in q.items && r.state == Pending :: r.id;
  }

  /** Either kind of queue is of this very inventory and sample, and sealed over all the
      rest of what it holds; a frozen one lists its rows by ascending id, a reviewed one
      each row once, reviewed exactly when it was selected. */
  lemma QueuesStand(hash: Queue -> string, q: Queue, s: Inventory.Snapshot, sample: Sample)
    requires QueueOK(hash, q, s, sample) || ReviewOK(hash, q, s, sample)
    ensures q.inventory == s.fingerprint && q.sample == sample.fingerprint && q.fingerprint != ""
    ensures q.fingerprint ==
            hash(Queue(q.schema, "", q.inventory, q.sample, q.items, q.selectedCount, q.unselectedCount))
    ensures QueueOK(hash, q, s, sample) ==>
              && q.schema == "mindline-frozen-activation-queue/v0.1"
              && forall i, j :: 0 <= i < j < |q.items| ==> Before(q.items[i].id, q.items[j].id)
    ensures ReviewOK(hash, q, s, sample) ==>
              && |q.items| == |s.items| && (forall r, t :: r in q.items && t in q.items && r.id == t.id ==> r == t)
              && forall r :: r in q.items ==> r.state == if r.id in sample.selectedIDs then Reviewed else Unselected
  {
    assert q.(fingerprint := "") ==
           Queue(q.schema, "", q.inventory, q.sample, q.items, q.selectedCount, q.unselectedCount);
  }
}
