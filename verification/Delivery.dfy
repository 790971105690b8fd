/** Preview, approve, deliver: each operation holds the lock for a short section,
    works unlocked, and locks again. A sequence of calls of these sections, in any
    order, is an interleaving of the operations. */
module Delivery {
  import opened ScopedModel

  /** Hashes do not collide: an outbox and a preflight stand for their fingerprints. */
  datatype Outbox = Outbox(content: string, operations: nat)
  datatype Preflight = Preflight(content: string)
  datatype Preview = Preview(outbox: Outbox, preflight: Option<Preflight>, expiresAt: int)

  /** A sealed approval names the outbox and the preflight it is for. The human
      evidence it was sealed from is set and cleared with it. */
  datatype Approval = Approval(outbox: Outbox, preflight: Preflight, expiresAt: int)
  datatype Batch = Batch(outbox: Outbox, preflight: Preflight, approval: Approval)
  datatype Receipt = Incomplete | Finished

  datatype Saved = Saved(route: Option<string>, outbox: Option<Outbox>, preflight: Option<Preflight>,
                         preview: Option<Preview>, approval: Option<Approval>, delivery: Option<Receipt>,
                         zero: bool, cancelled: bool)

  const BLANK: Saved := Saved(None, None, None, None, None, None, false, false)

  /** What a preview works with between its two locked sections. */
  datatype Draft = Draft(number: nat, route: string, connection: nat, generation: nat, preview: Preview)

  /** What connecting a destination works with between its two locked sections; the
      run is part of the state whose fingerprint the code compares. */
  datatype Connecting = Connecting(generation: nat, run: Option<string>, state: Saved)

  /** A commit that reports success has landed; one that fails may have. */
  datatype Commit = Landed | LandedAndFailed | Lost

  datatype Answer = Stored | Sent(batch: Batch) | Already(receipt: Receipt) | ZeroRecorded
                  | Rejected | CommitFailed

  /** The preview shown is of the stored batch; an approval is of the stored batch. */
  predicate Consistent(s: Saved) {
    && (s.preview.Some? ==>
          && s.outbox == Some(s.preview.value.outbox) && s.preflight == s.preview.value.preflight
          && (s.preflight.Some? <==> s.outbox.value.operations > 0))
    && (s.approval.Some? ==>
          s.outbox == Some(s.approval.value.outbox) && s.preflight == Some(s.approval.value.preflight))
  }

  /** resetDestinationArtifactsLocked */
  function Reset(s: Saved): (t: Saved)
    ensures Consistent(t)
  {
    s.(outbox := None, preflight := None, preview := None, approval := None, delivery := None, zero := false,
       cancelled := false)
  }

  class App {
    var run: Option<string>
    var state: Saved
    var disk: map<string, Saved>
    var connection: Option<nat>
    var connectionGeneration: nat
    var previewGeneration: nat
    var inFlight: bool
    /** Connections ever made; a new one is told apart from all before. */
    var made: nat
    /** Previews in the order they started. */
    ghost var started: seq<Draft>
    /** Connects that started. */
    ghost var attempts: seq<Connecting>
    /** Every batch handed to delivery, and the deliveries that have not ended. */
    ghost var sent: seq<Batch>
    ghost var running: set<nat>

    ghost predicate Valid()
      reads this
    {
      && Consistent(state) && (forall r :: r in disk ==> Consistent(disk[r]))
      && (run.None? ==> state == BLANK && !inFlight)
      && (connection.Some? ==> connection.value < made)
      && (forall d :: d in started ==> d.connection < made && d.generation <= connectionGeneration)
      && (forall a :: a in attempts ==> a.run.Some? && a.generation <= connectionGeneration)
      && |started| == previewGeneration && (forall i :: 0 <= i < |started| ==> started[i].number == i + 1)
      && (inFlight <==> running != {}) && |running| <= 1 && (forall d :: d in running ==> d < |sent|)
      && (forall d :: 0 <= d < |sent| ==> Faithful(sent[d]))
    }

    /** A preview that the end of its second section would reject. */
    predicate Overtaken(d: Draft)
      reads this`connection, this`connectionGeneration
    {
      connection != Some(d.connection) || connectionGeneration != d.generation
    }

    constructor ()
      ensures Valid() && sent == []
    {
      run, state, disk, connection := None, BLANK, map[], None;
      connectionGeneration, previewGeneration, inFlight := 0, 0, false;
      made, started, attempts, sent, running := 0, [], [], [], {};
    }

    /** commitAuthorityLocked: the state file is the last thing written. */
    method CommitState(commit: Commit) returns (ok: bool)
      requires Consistent(state) && run.Some?
      modifies this`disk
      ensures ok <==> commit.Landed?
      ensures disk == if commit.Lost? then old(disk) else old(disk)[run.value := state]
    {
      if !commit.Lost? {
        disk := disk[run.value := state];
      }
      ok := commit.Landed?;
    }

    // ------------------------------------------------------------------- preview

    /** PreviewBatch up to the first unlock. compile and check are the compiler and
        the preflight; their answers are worked out between the sections. */
    method StartPreview(authorized: bool, writes: int, attempts: int, compile: string -> Option<Outbox>,
                        check: Outbox -> Option<Preflight>, now: int) returns (draft: Option<Draft>)
      requires Valid()
      modifies this`previewGeneration, this`started
      ensures Valid()
      ensures draft.Some? ==>
                && |started| == |old(started)| + 1 && draft.value == started[|started| - 1] && !inFlight
                && state.route == Some(draft.value.route) && connection == Some(draft.value.connection)
                && compile(draft.value.route) == Some(draft.value.preview.outbox)
                && draft.value.preview.outbox.operations <= writes <= attempts <= 10000
                && draft.value.preview.preflight == (if draft.value.preview.outbox.operations == 0 then None
                                                     else check(draft.value.preview.outbox))
                && (draft.value.preview.preflight.Some? <==> draft.value.preview.outbox.operations > 0)
      ensures var allowed := !inFlight && state.route.Some? && connection.Some? && authorized &&
                             0 < writes <= attempts <= 10000;
              && (draft.Some? <==>
                    && allowed && compile(state.route.value).Some?
                    && var outbox := compile(state.route.value).value;
                       outbox.operations <= writes && (outbox.operations > 0 ==> check(outbox).Some?))
              && if allowed then |started| == |old(started)| + 1 && started[..|old(started)|] == old(started)
                 else started == old(started)
    {
      if inFlight || state.route.None? || connection.None? || !authorized || writes <= 0 || attempts < writes ||
        attempts > 10000 {
        return None;
      }
      previewGeneration := previewGeneration + 1;
      var outbox := compile(state.route.value);
      var preflight := if outbox.Some? && outbox.value.operations > 0 then check(outbox.value) else None;
      var shown := if outbox.Some? then Preview(outbox.value, preflight, now + 300)
        else Preview(Outbox("", 0), None, now);
      var d := Draft(previewGeneration, state.route.value, connection.value, connectionGeneration, shown);
      started := started + [d];
      if outbox.None? || outbox.value.operations > writes || (outbox.value.operations > 0 && preflight.None?) {
        return None;
      }
      draft := Some(d);
    }

    /** PreviewBatch from the second lock: stored only if nothing overtook it. */
    method FinishPreview(draft: Draft, authorized: bool, commit: Commit) returns (answer: Answer)
      requires Valid() && draft in started && (draft.preview.preflight.Some? <==> draft.preview.outbox.operations > 0)
      modifies this`state, this`disk
      ensures Valid()
      ensures answer.Rejected? <==>
                !(authorized && !inFlight && draft == started[|started| - 1] && connection == Some(draft.connection) &&
                  connectionGeneration == draft.generation && old(state).route == Some(draft.route))
      ensures answer.Rejected? ==> state == old(state) && disk == old(disk)
      ensures !answer.Rejected? ==>
                && state == old(state).(outbox := Some(draft.preview.outbox), preflight := draft.preview.preflight,
                                        preview := Some(draft.preview), approval := None, delivery := None,
                                          zero := false)
                && answer == (if commit.Landed? then Stored else CommitFailed)
                && disk == Committed(old(disk), run, state, commit)
    {
      LatestByNumber(started, draft);
      if inFlight || previewGeneration != draft.number || connectionGeneration != draft.generation ||
         connection != Some(draft.connection) || state.route != Some(draft.route) || !authorized {
        return Rejected;
      }
      state := state.(outbox := Some(draft.preview.outbox), preflight := draft.preview.preflight,
                      preview := Some(draft.preview), approval := None, delivery := None, zero := false);
      var ok := CommitState(commit);
      answer := if ok then Stored else CommitFailed;
    }

    // ------------------------------------------------------------------ delivery

    /** Handing a batch to delivery, still under the lock. */
    method Send(batch: Batch)
      requires Faithful(batch) && !inFlight && running == {}
      modifies this`inFlight, this`sent, this`running
      ensures inFlight && sent == old(sent) + [batch] && running == {|old(sent)|}
    {
      inFlight := true;
      sent, running := sent + [batch], {|sent|};
    }

    /** approveBatch up to the delivery; valid says the human approval is for the
        preview shown and comes from the expected session. */
    method Approve(shown: Preview, valid: Preview -> bool, authorized: bool, now: int, commit: Commit)
      returns (answer: Answer)
      requires Valid() && forall p :: valid(p) ==> p == shown
      modifies this`state, this`disk, this`inFlight, this`sent, this`running
      ensures Valid() && (answer.Sent? || (sent == old(sent) && running == old(running)))
      ensures answer.Sent? ==>
                && !old(inFlight) && old(running) == {} && running == {|old(sent)|} &&
                   sent == old(sent) + [answer.batch]
                && old(state).preview == Some(shown) && now < shown.expiresAt
                && Some(answer.batch.outbox) == old(state).outbox &&
                   Some(answer.batch.preflight) == old(state).preflight
                && run.Some? && run.value in disk && disk[run.value].approval == Some(answer.batch.approval)
                && answer.batch.outbox == shown.outbox && shown.preflight == Some(answer.batch.preflight)
                && answer.batch.approval == Approval(shown.outbox, answer.batch.preflight, shown.expiresAt)
                && shown.outbox.operations > 0
      ensures var s := old(state);
              if s.preview.None? || s.outbox.None? || connection.None? || !authorized || !valid(s.preview.value) ||
                 now >= shown.expiresAt then
                answer.Rejected? && state == s && disk == old(disk)
              else if s.outbox.value.operations == 0 then
                && state == s.(zero := true) && disk == Committed(old(disk), run, state, commit)
                && answer == (if commit.Landed? then ZeroRecorded else CommitFailed)
              else if s.preflight.None? || old(inFlight) then
                answer.Rejected? && state == s && disk == old(disk)
              else
                var approval := Approval(s.outbox.value, s.preflight.value, shown.expiresAt);
                && state == s.(approval := Some(approval)) && disk == Committed(old(disk), run, state, commit)
                && answer == (if commit.Landed? then Sent(Batch(s.outbox.value, s.preflight.value, approval))
                              else CommitFailed)
    {
      if state.preview.None? || state.outbox.None? || connection.None? || !authorized || !valid(state.preview.value) {
        return Rejected;
      }
      if now >= shown.expiresAt {
        return Rejected;
      }
      if state.outbox.value.operations == 0 {
        state := state.(zero := true);
        var ok := CommitState(commit);
        return if ok then ZeroRecorded else CommitFailed;
      }
      if state.preflight.None? || inFlight {
        return Rejected;
      }
      var approval := Approval(state.outbox.value, state.preflight.value, shown.expiresAt);
      state := state.(approval := Some(approval));
      var ok := CommitState(commit);
      if !ok {
        return CommitFailed;
      }
      var batch := Batch(state.outbox.value, state.preflight.value, approval);
      Send(batch);
      answer := Sent(batch);
    }

    /** resumeApprovedDelivery up to the delivery. */
    method Resume(human: bool, authorized: bool, commit: Commit) returns (answer: Answer)
      requires Valid()
      modifies this`disk, this`inFlight, this`sent, this`running
      ensures Valid() && (answer.Sent? || (sent == old(sent) && running == old(running)))
      ensures answer.Sent? ==>
                && !old(inFlight) && old(running) == {} && running == {|old(sent)|} &&
                   sent == old(sent) + [answer.batch]
                && state.approval == Some(answer.batch.approval)
                && answer.batch.outbox == answer.batch.approval.outbox
                && answer.batch.preflight == answer.batch.approval.preflight
      ensures answer ==
              if !human || old(inFlight) || !authorized || connection.None? || state.approval.None? ||
                 state.outbox.None? || state.preflight.None? then Rejected
              else if state.delivery == Some(Finished) then Already(Finished)
              else if !commit.Landed? then CommitFailed
              else Sent(Batch(state.outbox.value, state.preflight.value, state.approval.value))
      ensures disk == if answer.Rejected? || answer.Already? then old(disk)
              else Committed(old(disk), run, state, commit)
    {
      if !human || inFlight || state.approval.None? || state.outbox.None? || state.preflight.None? ||
         connection.None? || !authorized {
        return Rejected;
      }
      if state.delivery == Some(Finished) {
        return Already(Finished);
      }
      var batch := Batch(state.outbox.value, state.preflight.value, state.approval.value);
      var ok := CommitState(commit);
      if !ok {
        return CommitFailed;
      }
      Send(batch);
      answer := Sent(batch);
    }

    /** The section after DeliverApproved returns. */
    method EndDelivery(ghost delivery: nat, receipt: Option<Receipt>, commit: Commit)
      requires Valid() && delivery in running
      modifies this`state, this`disk, this`inFlight, this`running
      ensures Valid() && !inFlight && running == {}
      ensures state == if receipt.Some? then old(state).(delivery := receipt) else old(state)
      ensures disk == if receipt.Some? then Committed(old(disk), run, state, commit) else old(disk)
    {
      OnlyOne(running, delivery);
      inFlight, running := false, {};
      if receipt.Some? {
        state := state.(delivery := receipt);
        var ok := CommitState(commit);
      }
    }

    // ------------------------------------------------- what happens in between

    /** connectDestination up to the first unlock: what the last section compares. */
    method StartConnect(authorized: bool) returns (attempt: Option<Connecting>)
      requires Valid()
      modifies this`attempts
      ensures Valid()
      ensures attempt.Some? <==> run.Some? && !inFlight && authorized
      ensures attempt.Some? ==>
                attempt.value == Connecting(connectionGeneration, run, state) &&
                attempts == old(attempts) + [attempt.value]
      ensures attempt.None? ==> attempts == old(attempts)
    {
      if run.None? || inFlight || !authorized {
        return None;
      }
      attempt := Some(Current());
      attempts := attempts + [Current()];
    }

    /** What a connect that starts now remembers. */
    function Current(): Connecting
      reads this`connectionGeneration, this`run, this`state
    {
      Connecting(connectionGeneration, run, state)
    }

    /** connectDestination's last section: clear when nothing was ever delivered
        under the stored approval, reconciled when a delivery was found to exist. */
    method FinishConnect(attempt: Connecting, authorized: bool, clear: bool, reconciled: Option<Receipt>,
                         commit: Commit, again: Commit) returns (ok: bool)
      requires Valid() && attempt in attempts
      modifies this`connection, this`made, this`connectionGeneration, this`state, this`disk
      ensures Valid()
      ensures if old(inFlight) || attempt != Connecting(old(connectionGeneration), old(run), old(state)) || !authorized
              then
                !ok && state == old(state) && disk == old(disk) && connection == old(connection) && made == old(made) &&
                connectionGeneration == old(connectionGeneration)
              else
                && run.Some? && connection == Some(old(made)) && made == old(made) + 1
                && connectionGeneration == old(connectionGeneration) + 1
                && Adopted(ok, old(state), old(disk), clear, reconciled, commit, again)
                && state == old(state).(preview := if clear then None else old(state).preview,
                                        approval := if clear then None else old(state).approval,
                                        delivery := if reconciled.Some? && commit.Landed? then reconciled
                                                    else old(state).delivery)
                && (ok ==> run.value in disk && disk[run.value] == state)
                && (forall d :: d in started ==> Overtaken(d)) && forall a :: a in attempts ==> a != Current()
    {
      hide Consistent, Faithful, Adopted;
      if inFlight || attempt != Current() || !authorized {
        return false;
      }
      connection, made := Some(made), made + 1;
      connectionGeneration := connectionGeneration + 1;
      ok := Adopt(clear, reconciled, commit, again);
    }

    /** The state a connection leaves, and what of it the state file holds. */
    ghost predicate Adopted(ok: bool, s: Saved, was: map<string, Saved>, clear: bool, reconciled: Option<Receipt>,
                            commit: Commit, again: Commit)
      reads this`state, this`disk, this`run
      requires run.Some?
    {
      var second := commit.Landed? && reconciled.Some?;
      && state == Connected(s, clear, if second then reconciled else None)
      && disk == (if second then Committed(was[run.value := Connected(s, clear, None)], run, state, again)
                  else Committed(was, run, state, commit))
      && (ok <==> commit.Landed? && (second ==> again.Landed?))
    }

    method Adopt(clear: bool, reconciled: Option<Receipt>, commit: Commit, again: Commit) returns (ok: bool)
      requires run.Some? && Consistent(state) && forall r :: r in disk ==> Consistent(disk[r])
      modifies this`state, this`disk
      ensures Consistent(state) && forall r :: r in disk ==> Consistent(disk[r])
      ensures Adopted(ok, old(state), old(disk), clear, reconciled, commit, again)
      ensures state == old(state).(preview := if clear then None else old(state).preview,
                                   approval := if clear then None else old(state).approval,
                                   delivery := if reconciled.Some? && commit.Landed? then reconciled
                                               else old(state).delivery)
      ensures ok ==> run.value in disk && disk[run.value] == state
    {
      if clear {
        state := state.(preview := None, approval := None);
      }
      ok := CommitState(commit);
      if ok && reconciled.Some? {
        state := state.(delivery := reconciled);
        ok := CommitState(again);
      }
    }

    /** The cancel command: recorded for the stored approval; a delivery in flight is
        told to stop and still ends in its own time. */
    method Cancel(approval: Approval, recorded: bool, commit: Commit) returns (ok: bool)
      requires Valid() && run.Some?
      modifies this`state, this`disk
      ensures Valid()
      ensures if old(state).approval == Some(approval) && recorded
              then state == old(state).(cancelled := true) && disk == Committed(old(disk), run, state, commit) &&
                   (ok <==> commit.Landed?)
              else !ok && state == old(state) && disk == old(disk)
    {
      if state.approval != Some(approval) || !recorded {
        return false;
      }
      state := state.(cancelled := true);
      ok := CommitState(commit);
    }

    method Disconnect()
      requires Valid()
      modifies this`connection, this`connectionGeneration
      ensures Valid() && connection.None? && connectionGeneration == old(connectionGeneration) + 1
      ensures (forall d :: d in started ==> Overtaken(d)) && forall a :: a in attempts ==> a != Current()
    {
      connection := None;
      connectionGeneration := connectionGeneration + 1;
    }

    /** An earlier stage is redone: a new route, or none, and no destination artifacts. */
    method ChangeRoute(route: Option<string>, commit: Commit)
      requires Valid() && run.Some?
      modifies this`state, this`disk
      ensures Valid() && state == Reset(old(state)).(route := route) && disk == Committed(old(disk), run, state, commit)
      ensures state == Saved(route, None, None, None, None, None, false, false)
    {
      state := Reset(state).(route := route);
      var ok := CommitState(commit);
    }

    /** canLeaveActiveRunLocked, and leaving, which clears everything of a run, the
        delivery flag included. */
    method Leave() returns (ok: bool)
      requires Valid()
      modifies this
      ensures Valid() && disk == old(disk) && started == old(started) && sent == old(sent) && made == old(made)
      ensures attempts == old(attempts) && connectionGeneration == old(connectionGeneration)
      ensures ok <==>
                || old(run).None?
                || (!old(inFlight) &&
                    (old(state).approval.None? || old(state).delivery.Some? || old(state).zero || old(state).cancelled))
      ensures ok ==> (forall d :: d in started ==> Overtaken(d)) && forall a :: a in attempts ==> a != Current()
      ensures ok ==> run.None? && connection.None? && old(running) == {} == running
      ensures !ok ==> run == old(run) && state == old(state) && running == old(running) && connection == old(connection)
    {
      ok := run.None? || (!inFlight && (state.approval.None? || state.delivery.Some? || state.zero || state.cancelled));
      if ok {
        run, state, connection, inFlight := None, BLANK, None, false;
      }
    }

    /** Activating a run loads what was last committed for it. */
    method Activate(id: string)
      requires Valid() && run.None?
      modifies this`run, this`state
      ensures Valid() && run == Some(id) && state == if id in disk then disk[id] else BLANK
    {
      run, state := Some(id), if id in disk then disk[id] else BLANK;
    }

    /** The process dies: what runs stops, and only the disk is left. */
    method Restart()
      requires Valid()
      modifies this
      ensures Valid() && disk == old(disk) && sent == old(sent) && run.None? && !inFlight && running == {}
    {
      run, state, connection, inFlight := None, BLANK, None, false;
      connectionGeneration, previewGeneration := 0, 0;
      started, attempts, running := [], [], {};
    }
  }

  /** The state file after a commit: the new state, unless the write was lost. */
  function Committed(disk: map<string, Saved>, run: Option<string>, state: Saved, commit: Commit): map<string, Saved>
    requires run.Some?
  {
    if commit.Lost? then disk else disk[run.value := state]
  }

  function Connected(s: Saved, clear: bool, reconciled: Option<Receipt>): Saved {
    var t := if clear then s.(preview := None, approval := None) else s;
    if reconciled.Some? then t.(delivery := reconciled) else t
  }

  /** A batch carries the very outbox and preflight its approval names. */
  predicate Faithful(b: Batch) {
    b.approval.outbox == b.outbox && b.approval.preflight == b.preflight
  }

  /** What the calls keep, whatever order they come in and wherever a commit fails:
      every batch that was ever handed to delivery is the one its approval names, and
      each run's stored preview and approval are of its stored batch. */
  lemma AlwaysFaithful(app: App)
    requires app.Valid()
    ensures forall b :: b in app.sent ==> (b.approval.outbox, b.approval.preflight) == (b.outbox, b.preflight)
    ensures forall r, s :: (r in app.disk && app.disk[r] == s) || app.state == s ==>
              && (s.preview.Some? ==>
                    && (s.outbox, s.preflight) == (Some(s.preview.value.outbox), s.preview.value.preflight)
                    && (s.preflight.Some? <==> s.preview.value.outbox.operations > 0))
              && (s.approval.Some? ==>
                    (s.outbox, s.preflight) == (Some(s.approval.value.outbox), Some(s.approval.value.preflight)))
  {
  }

  /** Only the latest preview carries the current number. */
  lemma LatestByNumber(started: seq<Draft>, draft: Draft)
    requires draft in started && forall i :: 0 <= i < |started| ==> started[i].number == i + 1
    ensures draft.number == |started| <==> draft == started[|started| - 1]
  {
    var i :| 0 <= i < |started| && started[i] == draft;
  }

  lemma OnlyOne(running: set<nat>, d: nat)
    requires d in running && |running| <= 1
    ensures running == {d}
  {
    assert |running - {d}| == |running| - 1;
    assert running - {d} == {};
  }

  /** Two connects race, and a preview is in progress: once one connect is adopted,
      the other is turned away and so is the preview. */
  method ConnectsRace(app: App, first: Connecting, second: Connecting, draft: Draft, clear: bool,
                      reconciled: Option<Receipt>, commit: Commit, again: Commit)
    returns (ok: bool, late: bool, answer: Answer)
    requires app.Valid() && !app.inFlight && first == app.Current() && first in app.attempts && second in app.attempts
    requires draft in app.started && (draft.preview.preflight.Some? <==> draft.preview.outbox.operations > 0)
    modifies app`connection, app`made, app`connectionGeneration, app`state, app`disk
    ensures app.Valid() && app.run.Some? && app.connection == Some(old(app.made)) && app.made == old(app.made) + 1
    ensures app.Adopted(ok, old(app.state), old(app.disk), clear, reconciled, commit, again)
    ensures !late && answer.Rejected?
  {
    ok := app.FinishConnect(first, true, clear, reconciled, commit, again);
    late := app.FinishConnect(second, true, clear, reconciled, commit, again);
    answer := app.FinishPreview(draft, true, commit);
  }

  /** A disconnect turns away whatever connect or preview was in progress, also when
      a new connect is started and adopted before they end. */
  method DisconnectOvertakes(app: App, pending: Connecting, draft: Draft, authorized: bool, clear: bool,
                             reconciled: Option<Receipt>, commit: Commit, again: Commit)
    returns (late: bool, answer: Answer)
    requires app.Valid() && pending in app.attempts
    requires draft in app.started && (draft.preview.preflight.Some? <==> draft.preview.outbox.operations > 0)
    modifies app`connection, app`made, app`connectionGeneration, app`state, app`disk, app`attempts
    ensures app.Valid() && !late && answer.Rejected?
    ensures app.connection == if authorized && app.run.Some? && !app.inFlight then Some(old(app.made)) else None
  {
    app.Disconnect();
    late := app.FinishConnect(pending, authorized, clear, reconciled, commit, again);
    var renewed := app.StartConnect(authorized);
    if renewed.Some? {
      var ok := app.FinishConnect(renewed.value, authorized, clear, reconciled, commit, again);
    }
    answer := app.FinishPreview(draft, true, commit);
  }
}
