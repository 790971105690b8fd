/** Logs that add up: rows in no particular order, some of which undo others. */
module Ledger {

  /** SUM over a set of rows. */
  ghost function Sum<R(!new)>(rows: set<R>, effect: R -> int): int {
    if rows == {} then
      0
    else
      var r :| r in rows;
      effect(r) + Sum(rows - {r}, effect)
  }

  /** The sum does not depend on which row is taken first. */
  lemma {:induction false} SumWithout<R(!new)>(rows: set<R>, effect: R -> int, r: R)
    requires r in rows
    ensures Sum(rows, effect) == effect(r) + Sum(rows - {r}, effect)
    decreases rows
  {
    var p :| p in rows && Sum(rows, effect) == effect(p) + Sum(rows - {p}, effect);
    if p != r {
      SumWithout(rows - {p}, effect, r);
      SumWithout(rows - {r}, effect, p);
      assert rows - {p} - {r} == rows - {r} - {p};
    }
  }

  /** How a log is read: a row's name, the name of the row it undoes, its effect, and
      which row may undo which. */
  datatype Reading<!R> = Reading(name: R -> string, undone: R -> string, effect: R -> int, cancels: (R, R) -> bool)

  /** Whatever undoes a row names it, names no undoing row, and takes its effect back. */
  ghost predicate Fair<R(!new)>(log: Reading<R>) {
    forall r, o :: log.cancels(r, o) ==>
      log.name(o) == log.undone(r) && log.undone(o) == "" && log.effect(r) == -log.effect(o)
  }

  /** Distinct names, and every undoing row undoes one original, once. */
  ghost predicate Coupled<R(!new)>(rows: set<R>, log: Reading<R>) {
    && (forall a, b :: a in rows && b in rows && log.name(a) == log.name(b) ==> a == b)
    && (forall r :: r in rows ==> log.name(r) != "")
    && (forall r :: r in rows && log.undone(r) != "" ==> exists o :: o in rows && log.cancels(r, o))
    && (forall a, b :: a in rows && b in rows && log.undone(a) != "" && log.undone(a) == log.undone(b) ==> a == b)
  }

  /** Originals that no row undoes. */
  ghost function Standing<R(!new)>(rows: set<R>, log: Reading<R>): set<R> {
    set r | r in rows && log.undone(r) == "" && forall q :: q in rows ==> log.undone(q) != log.name(r)
  }

  lemma WithoutCouple<R(!new)>(rows: set<R>, log: Reading<R>, r: R, o: R)
    requires Fair(log) && Coupled(rows, log) && r in rows && o in rows && log.undone(r) != "" && log.cancels(r, o)
    ensures Coupled(rows - {r} - {o}, log) && Standing(rows - {r} - {o}, log) == Standing(rows, log)
  {
    var rest := rows - {r} - {o};
    forall q | q in rest && log.undone(q) != "" ensures exists p :: p in rest && log.cancels(q, p) {
      var p :| p in rows && log.cancels(q, p);
      assert p in rest;
    }
    StandingWithout(rows, log, r, o);
  }

  lemma StandingWithout<R(!new)>(rows: set<R>, log: Reading<R>, r: R, o: R)
    requires Fair(log) && Coupled(rows, log) && r in rows && o in rows && log.undone(r) != "" && log.cancels(r, o)
    ensures Standing(rows - {r} - {o}, log) == Standing(rows, log)
  {
    var rest := rows - {r} - {o};
    forall j | j in Standing(rest, log) ensures j in Standing(rows, log) {
      forall q | q in rows ensures log.undone(q) != log.name(j) {}
    }
  }

  /** An undoing row and its original cancel; whatever remains is what stands. */
  lemma {:induction false} SumIsStanding<R(!new)>(rows: set<R>, log: Reading<R>)
    requires Fair(log) && Coupled(rows, log)
    ensures Sum(rows, log.effect) == Sum(Standing(rows, log), log.effect)
    decreases |rows|
  {
    if r :| r in rows && log.undone(r) != "" {
      var o :| o in rows && log.cancels(r, o);
      WithoutCouple(rows, log, r, o);
      SumIsStanding(rows - {r} - {o}, log);
      SumWithout(rows, log.effect, r);
      SumWithout(rows - {r}, log.effect, o);
    } else {
      assert Standing(rows, log) == rows;
    }
  }

  /** The rows that something looks at. */
  ghost function Part<R(!new)>(rows: set<R>, seen: R -> bool): set<R> {
    set r | r in rows && seen(r)
  }

  /** The same for a part of a log that holds with each row whatever undoes it. */
  lemma PartIsStanding<R(!new)>(rows: set<R>, log: Reading<R>, seen: R -> bool)
    requires Fair(log) && Coupled(rows, log) && forall r, o :: log.cancels(r, o) ==> (seen(r) <==> seen(o))
    ensures Sum(Part(rows, seen), log.effect) == Sum(Part(Standing(rows, log), seen), log.effect)
  {
    var part := Part(rows, seen);
    forall r | r in part && log.undone(r) != "" ensures exists o :: o in part && log.cancels(r, o) {
      var o :| o in rows && log.cancels(r, o);
      assert o in part;
    }
    SumIsStanding(part, log);
    forall j, r | j in part && r in rows && log.undone(r) == log.name(j) ensures r in part {
      var o :| o in rows && log.cancels(r, o);
      assert o == j;
    }
    assert Standing(part, log) == Part(Standing(rows, log), seen);
  }

  /** The grouped query: rows arrive in any order, those seen are summed by record. */
  method SumByRecord<R(!new, ==)>(rows: set<R>, effect: R -> int, seen: R -> bool, record: R -> string)
    returns (sums: map<string, int>)
    ensures sums.Keys == set r | r in rows && seen(r) :: record(r)
    ensures forall k :: k in sums ==> sums[k] == Sum(Of(rows, seen, record, k), effect)
  {
    sums := map[];
    var todo := rows;
    while todo != {}
      invariant todo <= rows
      invariant sums.Keys == set r | r in rows && r !in todo && seen(r) :: record(r)
      invariant forall k :: k in sums ==> sums[k] == Sum(Of(rows - todo, seen, record, k), effect)
      decreases todo
    {
      var r :| r in todo;
      ghost var done := rows - todo;
      todo := todo - {r};
      assert rows - todo == done + {r};
      forall k | k != record(r) || !seen(r)
        ensures Of(rows - todo, seen, record, k) == Of(done, seen, record, k)
      {}
      if seen(r) {
        SumWithout(Of(rows - todo, seen, record, record(r)), effect, r);
        assert Of(rows - todo, seen, record, record(r)) - {r} == Of(done, seen, record, record(r));
        if record(r) !in sums {
          assert Of(done, seen, record, record(r)) == {};
        }
        sums := sums[record(r) := (if record(r) in sums then sums[record(r)] else 0) + effect(r)];
      }
    }
    assert rows - todo == rows;
  }

  /** The rows seen that are about one record. */
  ghost function Of<R(!new)>(rows: set<R>, seen: R -> bool, record: R -> string, k: string): set<R> {
    set r | r in rows && seen(r) && record(r) == k
  }
}
