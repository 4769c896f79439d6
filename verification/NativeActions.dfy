/** The companion's actions over its mutable parts: the ledger object, the open collection, the session and
    the live set.  Each method is proved to be a run of the transition system of module `Companion`, so
    every theorem about those runs holds of the companion.  A ledger write may fail (a full disk), staged
    bytes may be missing, and the collection may stop accepting writes half way. */
module NativeActions {
  import opened Wrappers
  import opened Anki
  import opened Effects
  import opened EffectLaws
  import opened Ledger
  import opened LedgerLaws
  import opened Companion
  import opened CompanionLaws
  import opened Interleaving
  import opened Safety
  import Confirmation
  import OL = OperationLedger
  import LC = LiveCollection
  import ST = SessionTracker

  /** What goes wrong around one callback. */
  datatype Luck = Luck(firstWrite: bool, lastWrite: bool, prepared: bool)

  /** Bodies that need more than the collection before they can start: staged bytes, or room for an export. */
  predicate Staged(body: Body) {
    body.StoreMedia? || body.ExportCheckpoint?
  }

  /** The callback makes its durable `running`: a queued row that clears every check, staged bytes at hand. */
  predicate Starts(c: Companion, key: Key, luck: Luck)
    requires key in c.ledger.rows
  {
    var row := c.ledger.rows[key];
    && Status(row).Queued? && Clears(c, key) && luck.firstWrite
    && (luck.prepared || !Staged(row.body))
  }

  /** What one callback does, with `writes` left in the collection: start, effect and close; or one refusal; or
      nothing durable at all. */
  predicate Executes(c: Companion, key: Key, luck: Luck, writes: nat, labels: seq<Label>)
    requires key in c.ledger.rows && WellFormed(c.col)
  {
    if Starts(c, key, luck) then labels != [] && labels[0] == Start(key) && Acts(c, key, luck, writes, labels[1..])
    else if Status(c.ledger.rows[key]).Queued? && luck.firstWrite then
      |labels| == 1 && labels[0].Refuse? && labels[0].key == key && Refuses(c, key, labels[0].why)
    else labels == [Stall(key)]
  }

  /** After the start: an export that is under way; or the effect, whole when its writes are left and cut short
      otherwise, and the close.  A second export at the same time fails at once. */
  predicate Acts(c: Companion, key: Key, luck: Luck, writes: nat, labels: seq<Label>)
    requires key in c.ledger.rows && Accepts(c.col, c.ledger.rows[key].body) && WellFormed(c.col)
  {
    var body := c.ledger.rows[key].body;
    if body.ExportCheckpoint? && c.exporting.None? then labels == [Label.Export]
    else
      && |labels| == 2 && labels[1] == CloseRow(luck.lastWrite)
      && if body.ExportCheckpoint? then labels[0] == Interrupt(c.col)
         else if writes >= LC.Needed(c.col, body) then labels[0] == DoEffect
         else labels[0].Interrupt?
  }

  /** Nothing goes wrong around a callback that starts, and its effect can be completed. */
  predicate Undisturbed(c: Companion, key: Key, luck: Luck, writes: nat)
    requires key in c.ledger.rows && WellFormed(c.col)
  {
    var body := c.ledger.rows[key].body;
    && Starts(c, key, luck) && luck.lastWrite && !body.ExportCheckpoint?
    && writes >= LC.Needed(c.col, body) && Perform(c.col, body).done
  }

  class NativeActions {
    const ledger: OL.OperationLedger
    const col: LC.LiveCollection
    var live: set<Key>
    var callbacks: set<Key>
    const tracker: ST.SessionTracker
    var exporting: Option<(Key, ST.Snapshot)>
    ghost var log: seq<Entry>

    /** The session the tracker reports. */
    function Observed(): Option<Session>
      reads tracker
    {
      if tracker.record.Some? then Some(SessionOf(tracker.record.value)) else None
    }

    ghost function View(): Companion
      reads this, ledger, col, tracker
    {
      var aside := if exporting.Some? then Some((exporting.value.0, SessionOf(exporting.value.1.record))) else None;
      Companion(ledger.View(), live, callbacks, Idle, aside, Observed(), tracker.issued.Keys, col.View(), log)
    }

    ghost predicate Valid()
      reads this, ledger, col, tracker
    {
      Inv(View()) && WellFormed(col.View()) && Tracked()
    }

    ghost predicate Tracked()
      reads this`exporting, tracker
    {
      tracker.Valid() && (exporting.Some? ==> tracker.Genuine(exporting.value.1))
    }

    constructor (start: Collection, budget: nat)
      requires WellFormed(start)
      ensures Valid() && View() == Fresh(start) && fresh(ledger) && fresh(col) && fresh(tracker)
    {
      ledger := new OL.OperationLedger();
      col := new LC.LiveCollection(start, budget);
      tracker := new ST.SessionTracker();
      live, callbacks, exporting, log := {}, {}, None, [];
    }

    /** `labBegin`: bound to the open session; refused while a live worker holds a row. */
    method Begin(lineage: Uuid, epoch: Uuid, approved: Uuid, token: Uuid) returns (r: Result<Owner, Error>)
      requires Valid()
      modifies ledger
      ensures Valid() && View() == Apply(old(View()), Label.Begin(lineage, epoch, approved, token))
      ensures r.Ok? <==> Enabled(old(View()), Label.Begin(lineage, epoch, approved, token))
    {
      hide Inv, WellFormed, Sound;
      ghost var before := View();
      LedgerIsSound(before);
      ApplyKeeps(before, Label.Begin(lineage, epoch, approved, token));
      if Observed() != Some(Session(lineage, epoch)) { return Err(OwnerBindingConflict); }
      r := ledger.BeginOwner(lineage, epoch, approved, token, live);
    }

    method End(token: Uuid, fence: nat) returns (r: Result<(), Error>)
      requires Valid()
      modifies ledger
      ensures Valid() && View() == Apply(old(View()), Label.End(token, fence))
      ensures r.Ok? <==> Enabled(old(View()), Label.End(token, fence))
    {
      hide Inv, WellFormed, Sound;
      ghost var before := View();
      LedgerIsSound(before);
      ApplyKeeps(before, Label.End(token, fence));
      r := ledger.EndOwner(token, fence);
    }

    /** `labMutate`: the row is queued before the answer; only an inserted row gets a callback, and when
        scheduling it raises, the row stays queued without a worker. */
    method Mutate(request: Request, scheduled: bool) returns (r: Result<State, Error>)
      requires Valid()
      modifies this, ledger
      ensures Valid() && View() == Apply(old(View()), Submit(request, scheduled))
      ensures r.Ok? <==> SubmitCall(old(View()), request).Ok?
      ensures r.Ok? ==> request.key in ledger.rows && r.value == Status(ledger.rows[request.key])
      ensures r.Ok? ==> (request.key !in old(ledger.rows) <==> Enabled(old(View()), Submit(request, scheduled)))
    {
      hide Inv, WellFormed, Sound;
      ghost var before := View();
      LedgerIsSound(before);
      ApplyKeeps(before, Submit(request, scheduled));
      if Observed() != Some(Session(request.key.lineage, request.epoch)) { return Err(OwnerBindingConflict); }
      var queued := ledger.QueueNew(request);
      if queued.Err? { return Err(queued.error); }
      QueueNewSound(before.ledger, request);
      if queued.value.1 && scheduled {
        live, callbacks := live + {request.key}, callbacks + {request.key};
      }
      return Ok(queued.value.0);
    }

    /** The worker gave up before its callback started. */
    method Abandon(key: Key)
      requires Valid()
      modifies this
      ensures Valid() && View() == Apply(old(View()), Label.Abandon(key))
    {
      hide Inv, WellFormed;
      ghost var before := View();
      ApplyKeeps(before, Label.Abandon(key));
      callbacks := callbacks - {key};
      assert key !in before.callbacks ==> callbacks == before.callbacks;
    }

    /** Close a queued row before any write; when the ledger write fails, the row stays queued. */
    method Refuse(key: Key, why: BeforeWrite, luck: Luck) returns (ghost labels: seq<Label>)
      requires Sound(ledger.View()) && key in callbacks && key in ledger.rows && Status(ledger.rows[key]).Queued?
      requires Refuses(View(), key, why)
      modifies this`live, this`callbacks, ledger
      ensures View() == Run(old(View()), labels)
      ensures labels == [if luck.firstWrite then Label.Refuse(key, why) else Stall(key)] && key !in callbacks
    {
      hide Sound, Refuses, WellFormed;
      ghost var before := View();
      var row := ledger.rows[key];
      if luck.firstWrite {
        var closed := ledger.FailBeforeWrite(key, row.token, row.fence, why);
      }
      live, callbacks := live - {key}, callbacks - {key};
      labels := [if luck.firstWrite then Label.Refuse(key, why) else Stall(key)];
      RunOne(before, labels[0]);
    }

    /** The main-thread critical callback of one accepted operation.  Undisturbed, it makes the effect once and
        leaves the row verified. */
    method Execute(key: Key, luck: Luck) returns (ghost labels: seq<Label>)
      requires Valid() && key in callbacks
      modifies this, ledger, col, tracker
      ensures key in old(ledger.rows) && Executes(old(View()), key, luck, old(col.writes), labels)
      ensures Valid() && View() == Run(old(View()), labels)
      ensures key !in callbacks
      ensures Undisturbed(old(View()), key, luck, old(col.writes)) ==> Confirmation.Confirmed(old(View()), View(), key)
    {
      hide Inv, WellFormed, Executes, Undisturbed, Tracked, Run, Confirmation.Confirmed;
      ghost var before, writes := View(), col.writes;
      CallbackRow(before, key);
      labels := Critical(key, luck);
      RunKeeps(before, labels);
      RunConserves(before, labels);
      if Undisturbed(before, key, luck, writes) { UndisturbedEnds(before, key, luck, writes, labels); }
    }

    method Critical(key: Key, luck: Luck) returns (ghost labels: seq<Label>)
      requires Sound(ledger.View()) && WellFormed(col.View()) && Tracked() && key in callbacks && key in ledger.rows
      modifies this, ledger, col, tracker
      ensures View() == Run(old(View()), labels) && Executes(old(View()), key, luck, old(col.writes), labels)
      ensures key !in callbacks && Tracked() && forall l <- labels :: !l.UserEdit?
    {
      hide Sound, WellFormed, Accepts, Passes;
      ghost var before := View();
      ValidRow(before.ledger, key);
      var status := ledger.RowStatus(key);
      if status.Err? || !status.value.Queued? {
        live, callbacks := live - {key}, callbacks - {key};
        RunOne(before, Stall(key));
        return [Stall(key)];
      }
      var why := Checked(key, luck);
      if why.Some? {
        labels := Refuse(key, why.value, luck);
      } else if !luck.firstWrite {
        live, callbacks := live - {key}, callbacks - {key};
        RunOne(before, Stall(key));
        labels := [Stall(key)];
      } else {
        labels := Commence(key, luck);
      }
    }

    /** The checks before the durable `running`, in their order. */
    method Checked(key: Key, luck: Luck) returns (why: Option<BeforeWrite>)
      requires key in ledger.rows
      ensures why.Some? ==> Refuses(View(), key, why.value)
      ensures why.None? <==> Clears(View(), key) && (luck.prepared || !Staged(ledger.rows[key].body))
    {
      hide Accepts;
      var row := ledger.rows[key];
      var owner := ledger.Current();
      if owner.None? || owner.value.token != row.token || owner.value.generation != row.fence {
        return Some(OperatorCancelled);
      }
      if Observed() != Some(Session(key.lineage, row.epoch)) { return Some(SessionChanged); }
      if !Accepts(col.View(), row.body) || (Staged(row.body) && !luck.prepared) { return Some(PreflightRejected); }
      return None;
    }

    /** From the durable `running` to the close. */
    method Commence(key: Key, luck: Luck) returns (ghost labels: seq<Label>)
      requires Sound(ledger.View()) && WellFormed(col.View()) && Tracked() && key in callbacks && key in ledger.rows
      requires Status(ledger.rows[key]).Queued? && Clears(View(), key)
      modifies this, ledger, col, tracker
      ensures View() == Run(old(View()), labels)
      ensures labels != [] && labels[0] == Start(key) && Acts(old(View()), key, luck, old(col.writes), labels[1..])
      ensures key !in callbacks && Tracked() && forall l <- labels :: !l.UserEdit?
    {
      hide WellFormed, Accepts, Passes, Sound, Apply, Clears, Run, Acts, CanPerform, IsCurrent;
      ghost var before, writes := View(), col.writes;
      var body := ledger.rows[key].body;
      ClearsAccepts(before, key);
      GoRunning(key);
      ghost var running := View().(exec := Prepared(key));
      ghost var acts;
      if body.ExportCheckpoint? {
        acts := Export(key, running, luck);
      } else {
        acts := Effect(key, running, luck);
      }
      RunOne(before, Start(key));
      RunJoins(before, [Start(key)], acts, running);
      ActsAlike(before, running, key, luck, writes, acts);
      labels := [Start(key)] + acts;
      assert labels[1..] == acts;
    }

    /** The durable `running` before anything is written. */
    method GoRunning(key: Key)
      requires Sound(ledger.View()) && key in callbacks && key in ledger.rows
      requires Status(ledger.rows[key]).Queued? && Clears(View(), key)
      modifies this`callbacks, ledger
      ensures var running := View().(exec := Prepared(key));
              running == Apply(old(View()), Start(key)) && CanPerform(running)
      ensures Sound(ledger.View()) && key in ledger.rows && Status(ledger.rows[key]).Running? && key !in callbacks
      ensures ledger.rows[key].body == old(ledger.rows)[key].body
    {
      hide Accepts, Sound;
      ghost var before := View();
      var row := ledger.rows[key];
      MarkRunningSound(before.ledger, key, row.token, row.fence);
      var started := ledger.MarkRunning(key, row.token, row.fence);
      callbacks := callbacks - {key};
      StartFields(before, key);
    }

    /** The effect itself, then the close. */
    method Effect(key: Key, ghost running: Companion, luck: Luck) returns (ghost labels: seq<Label>)
      requires running == View().(exec := Prepared(key)) && CanPerform(running)
               && !running.ledger.rows[key].body.ExportCheckpoint?
      requires Sound(ledger.View()) && WellFormed(col.View()) && Status(ledger.rows[key]).Running? && key !in callbacks
      modifies this`live, this`callbacks, this`log, ledger, col
      ensures View() == Run(running, labels) && key !in callbacks
      ensures Acts(running, key, luck, old(col.writes), labels)
    {
      hide Sound, WellFormed, Accepts, Passes, LC.Needed, Perform;
      ValidRow(running.ledger, key);
      var row := ledger.rows[key];
      ghost var whole := col.writes >= LC.Needed(running.col, row.body);
      var done, note := col.Perform(row.body);
      ghost var effect := if whole then DoEffect else Interrupt(col.View());
      log := log + [Entry(key, row.body, running.col, col.View(), Observed().value,
                          CurrentOwner(running.ledger).value)];
      ghost var performed := View().(exec := Performed(key, done, if whole then note else 0));
      assert performed == Apply(running, effect);
      ghost var close := Close(key, done, note, performed, luck);
      labels := [effect, close];
      RunTwo(running, labels);
    }

    /** Read back and close the row; when the ledger write fails, the row stays `running`. */
    method Close(key: Key, done: bool, note: NoteId, ghost performed: Companion, luck: Luck) returns (ghost step: Label)
      requires Sound(ledger.View()) && key in ledger.rows && Status(ledger.rows[key]).Running?
      requires performed.exec.Performed? && (done ==> performed.exec.note == note)
      requires performed == View().(exec := Performed(key, done, performed.exec.note))
      modifies this`live, this`callbacks, ledger
      ensures View() == Apply(performed, step) && step == CloseRow(luck.lastWrite)
              && callbacks == old(callbacks) - {key}
    {
      hide Sound, WellFormed;
      var row := ledger.rows[key];
      if luck.lastWrite {
        if done && ReadsBack(col.View(), row.body, note) {
          var closed := ledger.MarkVerified(key, row.token, row.fence, ReceiptOf(col.View(), row.body, note));
        } else {
          var closed := ledger.MarkUnknown(key, row.token, row.fence, ObservationIncomplete);
        }
      }
      live, callbacks := live - {key}, callbacks - {key};
      step := CloseRow(luck.lastWrite);
    }

    /** The collection was opened or reopened, outside an own export: a session under an epoch never issued
        before, or none. */
    method CollectionOpened(lineage: Uuid, profile: string, path: string, found: Option<ST.Identity>,
                            opener: Option<ST.Handle>)
      returns (r: Result<ST.Record, ST.Error>)
      requires Valid()
      modifies tracker
      ensures Valid() && View() == Apply(old(View()), OpeningLabel(r))
      ensures r.Ok? <==> opener.Some? && found.Some?
      ensures r.Ok? ==> r.value.lineage == lineage && r.value.epoch !in old(View()).epochs
    {
      hide Inv, WellFormed;
      ghost var before := View();
      r := tracker.Opened(lineage, profile, path, found, opener);
      ApplyKeeps(before, OpeningLabel(r));
      if r.Ok? { assert tracker.issued.Keys == before.epochs + {r.value.epoch}; }
    }

    /** The collection was closed, or its identity changed under the session. */
    method SessionLost()
      requires Valid()
      modifies tracker
      ensures Valid() && View() == Apply(old(View()), Invalidate)
    {
      hide Inv, WellFormed;
      ghost var before := View();
      ApplyKeeps(before, Invalidate);
      tracker.Invalidate();
    }

    /** What every action asks first: the session, while profile, path, file and handle are those of its
        opening; any difference ends it. */
    method ObservedSession(profile: string, path: string, found: Option<ST.Identity>, handle: ST.Handle)
      returns (r: Result<ST.Record, ST.Error>)
      requires Valid()
      modifies tracker
      ensures Valid() && View() == if r.Ok? then old(View()) else Apply(old(View()), Invalidate)
      ensures r.Ok? <==> old(tracker.record).Some? && found.Some?
                         && old(tracker.issued)[old(tracker.record).value.epoch]
                            == ST.Opening(profile, path, found.value, handle)
      ensures r.Ok? ==> View().session == Some(SessionOf(r.value))
    {
      hide Inv, WellFormed;
      ghost var before := View();
      ApplyKeeps(before, Invalidate);
      r := tracker.Observed(profile, path, found, handle);
    }

    /** The own export: the collection is closed and the session set aside until `ExportDone`. */
    method Export(key: Key, ghost running: Companion, luck: Luck) returns (ghost labels: seq<Label>)
      requires running == View().(exec := Prepared(key)) && CanPerform(running)
               && running.ledger.rows[key].body.ExportCheckpoint?
      requires Sound(ledger.View()) && WellFormed(col.View()) && Tracked() && Status(ledger.rows[key]).Running?
      requires key !in callbacks
      modifies this, ledger, tracker
      ensures View() == Run(running, labels) && key !in callbacks && Tracked()
      ensures Acts(running, key, luck, col.writes, labels)
    {
      hide Sound, WellFormed, Accepts, Passes, Run;
      if exporting.Some? {
        ghost var e := Entry(key, ledger.rows[key].body, col.View(), col.View(), Observed().value,
                             CurrentOwner(running.ledger).value);
        PerformPasses(running.col, ledger.rows[key].body);
        log := log + [e];
        ghost var performed := View().(exec := Performed(key, false, 0));
        assert performed == Apply(running, Interrupt(running.col));
        ghost var close := Close(key, false, 0, performed, luck);
        labels := [Interrupt(running.col), close];
        RunTwo(running, labels);
      } else {
        SetAside(key, running);
        labels := [Label.Export];
        RunOne(running, Label.Export);
      }
    }

    /** The session is set aside before the temporary close. */
    method SetAside(key: Key, ghost running: Companion)
      requires running == View().(exec := Prepared(key)) && CanPerform(running)
               && running.ledger.rows[key].body.ExportCheckpoint?
      requires Tracked() && exporting.None?
      modifies this`exporting, this`log, tracker
      ensures View() == Apply(running, Label.Export) && Tracked()
    {
      hide Accepts, Passes;
      ghost var e := Entry(key, ledger.rows[key].body, col.View(), col.View(), Observed().value,
                           CurrentOwner(running.ledger).value);
      var aside := tracker.TakeSnapshot();
      exporting, log := Some((key, aside.value)), log + [e];
      tracker.Invalidate();
    }

    /** The export ended and the collection is open again: the session resumes under its old epoch exactly when
        profile, path, file and handle are those it was set aside with; otherwise this is a new opening. */
    method ExportDone(ok: bool, lineage: Uuid, profile: string, path: string, found: Option<ST.Identity>,
                      opener: Option<ST.Handle>, luck: Luck)
      returns (resumed: bool, ghost labels: seq<Label>)
      requires Valid() && exporting.Some?
      modifies this, ledger, tracker
      ensures Valid() && View() == Run(old(View()), labels) && exporting.None?
      ensures resumed <==> found.Some? && opener.Some?
                           && old(exporting).value.1.opening == ST.Opening(profile, path, found.value, opener.value)
      ensures resumed ==> labels == [Exported(ok, true, luck.lastWrite)]
      ensures !resumed ==> |labels| == 2 && labels[0] == Exported(ok, false, luck.lastWrite)
                           && (labels[1] == Invalidate || (labels[1].Open? && labels[1].epoch !in old(View()).epochs))
    {
      hide Inv, WellFormed, Sound, Enabled, Next, Apply, Run, Observed, SessionOf;
      ghost var before := View();
      ExportRuns(before);
      var key, aside := exporting.value.0, exporting.value.1;
      var opening;
      resumed, opening := Reopened(aside, lineage, profile, path, found, opener);
      var step := Exported(ok, resumed, luck.lastWrite);
      ghost var mid := Apply(before, step);
      assert Inv(mid) by { ApplyKeeps(before, step); }
      ExportedFields(before, step);
      CloseExport(key, before, step);
      live, callbacks, exporting := live - {key}, callbacks - {key}, None;
      labels := [step];
      if resumed {
        assert View() == mid;
        RunOne(before, step);
      } else {
        assert Inv(Apply(mid, opening)) by { ApplyKeeps(mid, opening); }
        OpeningFields(mid, opening);
        labels := labels + [opening];
        assert View() == Apply(mid, opening);
        RunTwo(before, labels);
      }
    }

    /** The collection is open again after an own export. */
    method Reopened(aside: ST.Snapshot, lineage: Uuid, profile: string, path: string, found: Option<ST.Identity>,
                    opener: Option<ST.Handle>)
      returns (resumed: bool, opening: Label)
      requires tracker.Valid() && tracker.Genuine(aside)
      modifies tracker
      ensures tracker.Valid()
      ensures resumed <==> found.Some? && opener.Some?
                           && aside.opening == ST.Opening(profile, path, found.value, opener.value)
      ensures resumed ==> Observed() == Some(SessionOf(aside.record)) && tracker.issued.Keys == old(tracker.issued).Keys
      ensures !resumed ==> opening == Invalidate || (opening.Open? && opening.epoch !in old(tracker.issued))
      ensures !resumed ==> Observed() == (if opening.Open? then Some(Session(opening.lineage, opening.epoch)) else None)
      ensures !resumed ==>
              tracker.issued.Keys == old(tracker.issued).Keys + (if opening.Open? then {opening.epoch} else {})
    {
      resumed, opening := false, Invalidate;
      if opener.Some? { resumed := tracker.Resume(aside, profile, path, found, opener.value); }
      if !resumed {
        var r := tracker.Opened(lineage, profile, path, found, opener);
        opening := OpeningLabel(r);
      }
    }

    /** The row of the export closes by its outcome; when the ledger write fails, it stays `running`. */
    method CloseExport(key: Key, ghost before: Companion, step: Label)
      requires step.Exported? && Inv(before) && Enabled(before, step) && before.exporting.value.0 == key
      requires ledger.View() == before.ledger
      modifies ledger
      ensures ledger.View() == Next(before, step).ledger
    {
      hide Inv, Sound, Accepts;
      ExportRuns(before);
      ExportedIs(before, step);
      var row := ledger.rows[key];
      if step.recorded {
        if step.ok && step.resumed {
          var closed := ledger.MarkVerified(key, row.token, row.fence, ExportReceipt(0));
        } else {
          var closed := ledger.MarkUnknown(key, row.token, row.fence, ObservationIncomplete);
        }
      }
    }
  }

  /** A tracked record as the companion's session. */
  function SessionOf(record: ST.Record): Session {
    Session(record.lineage, record.epoch)
  }

  function OpeningLabel(r: Result<ST.Record, ST.Error>): Label {
    if r.Ok? then Open(r.value.lineage, r.value.epoch) else Invalidate
  }

  lemma RunOne(c: Companion, l: Label)
    ensures Run(c, [l]) == Apply(c, l)
  {
    assert [l][1..] == [];
    assert Run(Apply(c, l), []) == Apply(c, l);
  }

  lemma RunTwo(c: Companion, labels: seq<Label>)
    requires |labels| == 2
    ensures Run(c, labels) == Apply(Apply(c, labels[0]), labels[1])
  {
    assert labels[1..] == [labels[1]];
    RunOne(Apply(c, labels[0]), labels[1]);
  }

  lemma {:induction false} RunJoins(c: Companion, a: seq<Label>, b: seq<Label>, mid: Companion)
    requires mid == Run(c, a)
    ensures Run(c, a + b) == Run(mid, b)
    decreases |a|
  {
    if a == [] {
      assert a + b == b;
    } else {
      assert (a + b)[1..] == a[1..] + b;
      RunJoins(Apply(c, a[0]), a[1..], b, mid);
    }
  }

  lemma LedgerIsSound(c: Companion)
    requires Inv(c)
    ensures Sound(c.ledger)
    ensures Recorded(c.ledger)
  {}

  lemma ExportedFields(c: Companion, l: Label)
    requires l.Exported? && c.exec.Idle? && c.exporting.Some? && c.exporting.value.0 in c.ledger.rows
    ensures Enabled(c, l)
    ensures var key := c.exporting.value.0;
            Apply(c, l) == c.(ledger := Next(c, l).ledger, live := c.live - {key}, callbacks := c.callbacks - {key},
                              exporting := None, session := if l.resumed then Some(c.exporting.value.1) else c.session)
  {}

  lemma StartFields(c: Companion, key: Key)
    requires c.exec.Idle? && key in c.callbacks && key in c.ledger.rows && Status(c.ledger.rows[key]).Queued?
             && Clears(c, key)
    ensures var row := c.ledger.rows[key];
            var started := WithLedger(c, MarkRunning(c.ledger, key, row.token, row.fence));
            Apply(c, Start(key)) == started.(exec := Prepared(key), callbacks := c.callbacks - {key})
    ensures CanPerform(Apply(c, Start(key)))
  {}

  lemma ClearsAccepts(c: Companion, key: Key)
    requires key in c.ledger.rows && Clears(c, key)
    ensures Accepts(c.col, c.ledger.rows[key].body)
  {}

  lemma ActsAlike(c: Companion, d: Companion, key: Key, luck: Luck, writes: nat, labels: seq<Label>)
    requires key in c.ledger.rows && key in d.ledger.rows && d.ledger.rows[key].body == c.ledger.rows[key].body
    requires d.exporting == c.exporting && d.col == c.col && WellFormed(c.col)
    requires Accepts(c.col, c.ledger.rows[key].body) && Acts(d, key, luck, writes, labels)
    ensures Acts(c, key, luck, writes, labels) && forall l <- labels :: !l.UserEdit?
  {
    hide Accepts, WellFormed, LC.Needed;
  }

  lemma UndisturbedEnds(c: Companion, key: Key, luck: Luck, writes: nat, labels: seq<Label>)
    requires Inv(c) && WellFormed(c.col) && c.exec.Idle? && key in c.callbacks && key in c.ledger.rows
    requires Undisturbed(c, key, luck, writes) && Executes(c, key, luck, writes, labels)
    ensures Confirmation.Confirmed(c, Run(c, labels), key)
  {
    hide Inv, WellFormed, Accepts, Perform, LC.Needed, Confirmation.Confirmed, Apply, Run, Clears;
    assert labels == [Start(key)] + labels[1..] && labels[1..] == [DoEffect, CloseRow(true)];
    RunOne(c, Start(key));
    RunJoins(c, [Start(key)], labels[1..], Apply(c, Start(key)));
    RunTwo(Apply(c, Start(key)), labels[1..]);
    Confirmation.UndisturbedIsConfirmed(c, key);
  }

  lemma OpeningFields(c: Companion, l: Label)
    requires c.exec.Idle? && (l.Invalidate? || (l.Open? && l.epoch !in c.epochs))
    ensures Apply(c, l) == if l.Open?
            then c.(session := Some(Session(l.lineage, l.epoch)), epochs := c.epochs + {l.epoch})
                           else c.(session := None)
  {}

  lemma CallbackRow(c: Companion, key: Key)
    requires Inv(c) && key in c.callbacks
    ensures Sound(c.ledger) && key in c.ledger.rows
  {}

  lemma ExportRuns(c: Companion)
    requires Inv(c) && c.exporting.Some?
    ensures StatusIs(c.ledger, c.exporting.value.0, Running) && Sound(c.ledger)
  {}

  lemma ValidRow(l: Ledger, key: Key)
    requires Sound(l) && key in l.rows
    ensures ValidBody(l.rows[key].body) && ValidHistory(l.rows[key].events)
  {
    assert RecordedRow(key, l.rows[key], l.owners);
  }
}
