/** The selected-run pointer: one document replaced by compare-and-swap, its
    backup, and the recovery that answers a document nobody can read. */
module RunPointer {
  import opened ScopedModel

  const MAX_VERSION: nat := 18446744073709551615

  datatype Revision = Revision(version: nat, generation: string)
  datatype Document = Document(version: nat, generation: string, selected: string) {
    function Rev(): Revision { Revision(version, generation) }
  }

  /** A file nobody can parse may still show the revision it was written with. */
  datatype File = Absent | Held(document: Document) | Unreadable(bytes: string, shown: Option<Revision>)

  /** Fingerprints do not collide: a problem names both files as they were. */
  datatype Problem = Problem(current: File, backup: File)

  /** Where a write goes wrong: before anything, between backup and current, or
      after both are in place. */
  datatype Fault = Clean | BeforeBackup | BetweenWrites | AfterCurrent

  datatype Outcome = Stored(document: Document) | Conflict | RecoveryRequired | NoRecovery | Invalid | WriteFailed

  /** A document that reached the current file, and what it replaced. */
  datatype Landed = Swapped(document: Document, expected: Revision) | Recovered(document: Document)

  class Pointer {
    var current: File
    var backup: File
    /** Every document that reached the current file, in order. */
    ghost var history: seq<Landed>
    /** Generations drawn so far; those standing for a missing file are defaults. */
    ghost var drawn: set<string>
    ghost var defaults: set<string>

    ghost predicate Valid()
      reads this
    {
      && defaults <= drawn && Chained(history, defaults) && Generations(history, drawn - defaults)
      && (current.Held? ==> history != [] && current.document == history[|history| - 1].document)
      && (backup.Held? ==> Landing(history, backup.document))
    }

    constructor ()
      ensures Valid() && current == backup == Absent && history == [] && drawn == {} && defaults == {}
    {
      current, backup, history, drawn, defaults := Absent, Absent, [], {}, {};
    }

    /** NewRepository: each process draws a generation for the missing file. */
    method Open(generation: string)
      requires Valid() && generation !in drawn
      modifies this
      ensures Valid() && current == old(current) && backup == old(backup) && history == old(history)
      ensures drawn == old(drawn) + {generation} && defaults == old(defaults) + {generation}
    {
      MoreDefaults(history, defaults, drawn, generation);
      drawn, defaults := drawn + {generation}, defaults + {generation};
    }

    /** Something outside makes the current file unreadable. */
    method Damage(bytes: string, shown: Option<Revision>)
      requires Valid()
      modifies this`current
      ensures Valid() && current == Unreadable(bytes, shown)
    {
      current := Unreadable(bytes, shown);
    }

    /** Something outside removes the current file. */
    method Delete()
      requires Valid()
      modifies this`current
      ensures Valid() && current == Absent
    {
      current := Absent;
    }

    /** Something outside damages or removes the backup. */
    method LoseBackup(left: File)
      requires Valid() && !left.Held?
      modifies this`backup
      ensures Valid() && backup == left
    {
      backup := left;
    }

    /** AtomicReplaceWithBackup: the prior document first, then the next one. */
    method Replace(next: Document, prior: Option<Document>, fault: Fault, ghost entry: Landed) returns (ok: bool)
      requires entry.document == next
      modifies this`current, this`backup, this`history
      ensures ok <==> fault.Clean?
      ensures backup == if prior.Some? && !fault.BeforeBackup? then Held(prior.value) else old(backup)
      ensures current == if fault.Clean? || fault.AfterCurrent? then Held(next) else old(current)
      ensures history == if fault.Clean? || fault.AfterCurrent? then old(history) + [entry] else old(history)
    {
      if prior.Some? {
        if fault.BeforeBackup? {
          return false;
        }
        backup := Held(prior.value);
      }
      if fault.BeforeBackup? || fault.BetweenWrites? {
        return false;
      }
      current := Held(next);
      history := history + [entry];
      ok := fault.Clean?;
    }

    /** CompareAndSwap; missing is the caller's own default generation, reserved
        whether the chosen run may be selected. */
    method CompareAndSwap(missing: string, expected: Revision, selected: string, reserved: bool, generation: string,
                          fault: Fault) returns (outcome: Outcome)
      requires Valid() && missing in defaults && generation !in drawn
      modifies this
      ensures Valid() && defaults == old(defaults) && old(drawn) <= drawn <= old(drawn) + {generation}
      ensures outcome == SwapAnswer(old(current), missing, expected, selected, reserved, generation, fault)
      ensures outcome.RecoveryRequired? <==> old(current).Unreadable?
      ensures var seen := if old(current).Held? then old(current).document else Document(0, missing, "");
              var meets := !old(current).Unreadable? && expected == Revision(seen.version, seen.generation) &&
                           seen.version != 18446744073709551615;
              && (outcome.Conflict? <==> !old(current).Unreadable? && !meets)
              && (outcome.Invalid? <==> meets && !reserved) && !outcome.NoRecovery?
              && (outcome.Stored? <==> meets && reserved && fault == Clean)
              && (outcome.Stored? ==>
                    outcome.document == Document(seen.version + 1, generation, selected) &&
                    current == Held(outcome.document))
      ensures var next := Document(expected.version + 1, generation, selected);
              var wrote := outcome.Stored? || outcome.WriteFailed?;
              && history == (if wrote && Lands(fault) then old(history) + [Swapped(next, expected)] else old(history))
              && current == (if wrote && Lands(fault) then Held(next) else old(current))
              && backup == (if wrote && old(current).Held? && !fault.BeforeBackup? then old(current) else old(backup))
    {
      hide Chained, Generations, Landing;
      VersionsCount(history, defaults);
      if current.Unreadable? {
        return RecoveryRequired;
      }
      var document := if current.Held? then current.document else Document(0, missing, "");
      if document.Rev() != expected || document.version == MAX_VERSION {
        return Conflict;
      }
      if !reserved {
        return Invalid;
      }
      drawn := drawn + {generation};
      var next := Document(document.version + 1, generation, selected);
      var prior := if document.version > 0 then Some(document) else None;
      ghost var entry := Swapped(next, expected);
      Extended(history, defaults, drawn - {generation} - defaults, drawn - defaults, entry);
      var ok := Replace(next, prior, fault, entry);
      if prior.Some? {
        LastLanded(old(history), history, document);
      }
      if old(backup).Held? {
        StillLanded(old(history), history, old(backup).document);
      }
      outcome := if ok then Stored(next) else WriteFailed;
    }

    /** Recover: only from a file nobody can read, only for the problem that was
        shown, and with the version after the backup's. */
    method Recover(problem: Problem, expected: Option<Revision>, selected: string, reserved: bool, generation: string,
                   fault: Fault) returns (outcome: Outcome)
      requires Valid() && generation !in drawn
      modifies this
      ensures Valid() && defaults == old(defaults) && old(drawn) <= drawn <= old(drawn) + {generation}
      ensures outcome == RecoverAnswer(old(current), old(backup), problem, expected, selected, reserved, generation,
                                       fault)
      ensures outcome.NoRecovery? <==> !old(current).Unreadable?
      ensures var meets := old(current).Unreadable? && problem == Problem(old(current), old(backup)) &&
                           (old(current).shown.None? || expected == old(current).shown);
              var spent := old(backup).Held? && old(backup).document.version == 18446744073709551615;
              && (outcome.Conflict? <==> old(current).Unreadable? && !meets)
              && (outcome.Invalid? <==> meets && (!reserved || spent)) && !outcome.RecoveryRequired?
              && (outcome.Stored? <==> meets && reserved && !spent && fault == Clean)
              && (outcome.Stored? ==>
                    && outcome.document == Document(if old(backup).Held? then old(backup).document.version + 1 else 1,
                                                    generation, selected)
                    && current == Held(outcome.document))
      ensures var next := Document(VersionAfter(old(backup)), generation, selected);
              var landed := (outcome.Stored? || outcome.WriteFailed?) && Lands(fault);
              && backup == old(backup)
              && history == (if landed then old(history) + [Recovered(next)] else old(history))
              && current == (if landed then Held(next) else old(current))
    {
      if !current.Unreadable? {
        return NoRecovery;
      }
      if problem != Problem(current, backup) || (current.shown.Some? && expected != current.shown) {
        return Conflict;
      }
      if !reserved {
        return Invalid;
      }
      var version: nat := 1;
      if backup.Held? {
        if backup.document.version == MAX_VERSION {
          return Invalid;
        }
        version := backup.document.version + 1;
      }
      drawn := drawn + {generation};
      var next := Document(version, generation, selected);
      Extended(history, defaults, drawn - {generation} - defaults, drawn - defaults, Recovered(next));
      var ok := Replace(next, None, fault, Recovered(next));
      if backup.Held? {
        StillLanded(old(history), history, backup.document);
      }
      outcome := if ok then Stored(next) else WriteFailed;
    }
  }

  /** The new document is in place whatever the caller is told. */
  predicate Lands(fault: Fault) {
    fault.Clean? || fault.AfterCurrent?
  }

  function SwapAnswer(current: File, missing: string, expected: Revision, selected: string, reserved: bool,
                      generation: string, fault: Fault): Outcome
  {
    match Current(current, missing)
    case None => RecoveryRequired
    case Some(d) =>
      if d.Rev() != expected || d.version == MAX_VERSION then Conflict
      else if !reserved then Invalid
      else if fault.Clean? then Stored(Document(expected.version + 1, generation, selected)) else WriteFailed
  }

  /** Recovery counts on from the backup, or from one. */
  function VersionAfter(backup: File): nat {
    if backup.Held? then backup.document.version + 1 else 1
  }

  /** Only a file nobody can read is recovered, only for the problem that was
      shown, and against the revision it still shows. */
  function RecoverAnswer(current: File, backup: File, problem: Problem, expected: Option<Revision>, selected: string,
                         reserved: bool, generation: string, fault: Fault): Outcome
  {
    if !current.Unreadable? then NoRecovery
    else if problem != Problem(current, backup) || (current.shown.Some? && expected != current.shown) then Conflict
    else if !reserved || (backup.Held? && backup.document.version == MAX_VERSION) then Invalid
    else if fault.Clean? then Stored(Document(VersionAfter(backup), generation, selected)) else WriteFailed
  }

  /** What loading finds: the document, or version zero when there is no file. */
  function Current(file: File, missing: string): Option<Document> {
    match file
    case Absent => Some(Document(0, missing, ""))
    case Held(d) => Some(d)
    case Unreadable(_, _) => None
  }

  ghost predicate Landing(history: seq<Landed>, document: Document) {
    exists i :: 0 <= i < |history| && history[i].document == document
  }

  lemma StillLanded(was: seq<Landed>, history: seq<Landed>, document: Document)
    requires was <= history && Landing(was, document)
    ensures Landing(history, document)
  {
    var i :| 0 <= i < |was| && was[i].document == document;
    assert history[i].document == document;
  }

  lemma LastLanded(was: seq<Landed>, history: seq<Landed>, document: Document)
    requires was <= history && was != [] && was[|was| - 1].document == document
    ensures Landing(history, document)
  {
    assert history[|was| - 1].document == document;
  }

  lemma VersionsCount(history: seq<Landed>, defaults: set<string>)
    requires Chained(history, defaults)
    ensures history != [] ==> history[|history| - 1].document.version > 0
  {
  }

  lemma MoreDefaults(history: seq<Landed>, defaults: set<string>, drawn: set<string>, generation: string)
    requires Chained(history, defaults) && Generations(history, drawn - defaults) && generation !in drawn
    ensures Chained(history, defaults + {generation})
    ensures Generations(history, drawn + {generation} - (defaults + {generation}))
  {
    forall i | 0 <= i < |history| ensures history[i].document.generation in drawn - defaults {
    }
  }

  /** Each swap names the document it replaced, or a missing file: no update is lost. */
  ghost predicate Chained(history: seq<Landed>, defaults: set<string>) {
    forall i :: 0 <= i < |history| ==> Follows(history[..i], defaults, history[i])
  }

  ghost predicate Follows(history: seq<Landed>, defaults: set<string>, entry: Landed) {
    && entry.document.version > 0
    && (entry.Swapped? ==>
          && entry.document.version == entry.expected.version + 1
          && (if entry.expected.version == 0 then entry.expected.generation in defaults
              else history != [] && entry.expected == history[|history| - 1].document.Rev()))
  }

  /** Every document has a generation of its own. */
  ghost predicate Generations(history: seq<Landed>, taken: set<string>) {
    && (forall i :: 0 <= i < |history| ==> history[i].document.generation in taken)
    && (forall i, j :: 0 <= i < j < |history| ==> history[i].document.generation != history[j].document.generation)
  }

  lemma Extended(history: seq<Landed>, defaults: set<string>, taken: set<string>, more: set<string>, entry: Landed)
    requires Chained(history, defaults) && Generations(history, taken) && taken <= more
    requires entry.document.generation in more && entry.document.generation !in taken &&
             Follows(history, defaults, entry)
    ensures Chained(history + [entry], defaults) && Generations(history + [entry], more) && Generations(history, more)
  {
    hide Follows;
    var all := history + [entry];
    forall i | 0 <= i < |all| ensures Follows(all[..i], defaults, all[i]) {
      assert all[..i] == history[..i];
    }
  }

  /** A revision names one document, whatever versions recovery reissues. */
  lemma RevisionsNameDocuments(history: seq<Landed>, taken: set<string>, i: nat, j: nat)
    requires Generations(history, taken) && i < |history| && j < |history|
    requires history[i].document.Rev() == history[j].document.Rev()
    ensures i == j
  {
  }

  /** Another document has landed since the revision was read: it is an earlier
      document's, or stood for a missing file. */
  ghost predicate Stale(history: seq<Landed>, defaults: set<string>, r: Revision) {
    && history != []
    && ((r.version == 0 && r.generation in defaults) ||
        exists i :: 0 <= i < |history| - 1 && r == history[i].document.Rev())
  }

  /** What a process reads is stale once another document lands, and stays so. */
  lemma ReadGoesStale(p: Pointer, missing: string, later: seq<Landed>, defaults: set<string>)
    requires p.Valid() && missing in p.defaults && p.defaults <= defaults && p.history < later
    requires Current(p.current, missing).Some?
    ensures Stale(later, defaults, Current(p.current, missing).value.Rev())
  {
    hide Chained, Generations, Landing;
    if p.current.Held? {
      var i := |p.history| - 1;
      assert later[i] == p.history[i];
    }
  }

  lemma StaysStale(history: seq<Landed>, defaults: set<string>, later: seq<Landed>, more: set<string>, r: Revision)
    requires Stale(history, defaults, r) && history <= later && defaults <= more
    ensures Stale(later, more, r)
  {
    if i :| 0 <= i < |history| - 1 && r == history[i].document.Rev() {
      assert later[i] == history[i];
    }
  }

  /** Whatever happened since, a stale revision is current again exactly when there
      is no file and the revision is the reader's own default. */
  lemma StaleIsCurrentIff(p: Pointer, missing: string, stale: Revision)
    requires p.Valid() && Stale(p.history, p.defaults, stale)
    ensures Current(p.current, missing).Some? && Current(p.current, missing).value.Rev() == stale <==>
            p.current.Absent? && stale == Revision(0, missing)
  {
    hide Landing;
    VersionsCount(p.history, p.defaults);
  }

  /** So a swap that expects it conflicts, whatever swaps, damage, removals and
      recoveries came in between, except in that one case, where it is answered
      like any swap from a missing file. */
  lemma StaleSwapIff(p: Pointer, missing: string, stale: Revision, selected: string, reserved: bool, generation: string,
                     fault: Fault)
    requires p.Valid() && missing in p.defaults && Stale(p.history, p.defaults, stale)
    ensures var answer := SwapAnswer(p.current, missing, stale, selected, reserved, generation, fault);
            && (answer.Stored? || answer.WriteFailed? || answer.Invalid? <==>
                p.current.Absent? && stale == Revision(0, missing))
            && (answer.Stored? <==> p.current.Absent? && stale == Revision(0, missing) && reserved && fault.Clean?)
  {
    StaleIsCurrentIff(p, missing, stale);
    hide Chained, Generations, Landing, Stale;
  }

  /** The one case happens: the selected run's file is removed, and a process that
      read nothing before it was written still swaps. */
  method DeletionRevives(a: string, g: string, h: string) returns (p: Pointer)
    requires a != g && a != h && g != h
    ensures fresh(p) && p.Valid() && p.current == Held(Document(1, h, "second")) && p.backup == Absent
    ensures |p.history| == 2 && Stale(p.history[..1], p.defaults, Revision(0, a))
    ensures p.history[1] == Swapped(Document(1, h, "second"), Revision(0, a))
  {
    hide Chained, Generations, Landing;
    p := new Pointer();
    p.Open(a);
    var outcome := p.CompareAndSwap(a, Revision(0, a), "first", true, g, Clean);
    assert p.history == [Swapped(Document(1, g, "first"), Revision(0, a))];
    p.Delete();
    outcome := p.CompareAndSwap(a, Revision(0, a), "second", true, h, Clean);
    assert outcome == Stored(Document(1, h, "second"));
    assert p.history == [Swapped(Document(1, g, "first"), Revision(0, a)),
                         Swapped(Document(1, h, "second"), Revision(0, a))];
  }

  /** The version number after a recovery can be one already used; the generation
      is what tells the two documents apart. */
  method VersionComesBack(a: string, g: string, h: string, k: string) returns (p: Pointer)
    requires a != g && a != h && a != k && g != h && g != k && h != k
    ensures fresh(p) && p.Valid() && |p.history| == 3
    ensures p.history[1].document.version == p.history[2].document.version
    ensures p.history[1].document.generation != p.history[2].document.generation
  {
    p := TwoSwaps(a, g, h);
    hide Chained, Generations, Landing;
    ghost var held := p.history;
    p.Damage("torn", None);
    var problem := Problem(p.current, p.backup);
    var outcome := p.Recover(problem, None, "third", true, k, Clean);
    assert outcome == Stored(Document(2, k, "third"));
    assert p.history == held + [Recovered(Document(2, k, "third"))];
  }

  method TwoSwaps(a: string, g: string, h: string) returns (p: Pointer)
    requires a != g && a != h && g != h
    ensures fresh(p) && p.Valid() && p.drawn <= {a, g, h}
    ensures p.current == Held(Document(2, h, "second")) && p.backup == Held(Document(1, g, "first"))
    ensures p.history ==
            [Swapped(Document(1, g, "first"), Revision(0, a)), Swapped(Document(2, h, "second"), Revision(1, g))]
  {
    hide Chained, Generations, Landing;
    p := new Pointer();
    p.Open(a);
    var outcome := p.CompareAndSwap(a, Revision(0, a), "first", true, g, Clean);
    assert outcome == Stored(Document(1, g, "first"));
    assert p.history == [Swapped(Document(1, g, "first"), Revision(0, a))];
    outcome := p.CompareAndSwap(a, Revision(1, g), "second", true, h, Clean);
    assert outcome == Stored(Document(2, h, "second"));
  }
}
