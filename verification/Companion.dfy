/** The companion as a labelled transition system: durable ledger and collection, volatile live set,
    callbacks, executor and session.  `Apply` is total; a label whose guard fails changes nothing, so
    a run is any list of labels.  Every client, and the user, may act at any time the main thread is
    free, and a crash may come at any time. */
module Companion {
  import opened Wrappers
  import opened Anki
  import opened Effects
  import opened Ledger

  datatype Session = Session(lineage: Uuid, epoch: Uuid)

  /** The main-thread critical callback: `Prepared` after the durable `running`, `Performed` after the effect. */
  datatype Exec = Idle | Prepared(key: Key) | Performed(key: Key, done: bool, note: NoteId)

  /** One native effect, as it happened. */
  datatype Entry = Entry(key: Key, body: Body, before: Collection, after: Collection, session: Session, owner: Owner)

  datatype Companion = Companion(
    ledger: Ledger, live: set<Key>, callbacks: set<Key>, exec: Exec, exporting: Option<(Key, Session)>,
    session: Option<Session>, epochs: set<Uuid>, col: Collection, log: seq<Entry>)

  datatype Label =
    | Begin(lineage: Uuid, epoch: Uuid, approved: Uuid, token: Uuid)
    | End(token: Uuid, fence: nat)
    | Submit(request: Request, scheduled: bool)
    | Refuse(key: Key, why: BeforeWrite)
    | Skip(key: Key)
    | Stall(key: Key)
    | Start(key: Key)
    | DoEffect
    | Interrupt(mid: Collection)
    | CloseRow(recorded: bool)
    | Export
    | Exported(ok: bool, resumed: bool, recorded: bool)
    | Abandon(key: Key)
    | Open(lineage: Uuid, epoch: Uuid)
    | Invalidate
    | UserEdit(col: Collection)
    | Crash
    | CrashDuring(mid: Collection)

  // ---------------------------------------------------------------- the callback's checks

  predicate SessionMatches(c: Companion, key: Key)
    requires key in c.ledger.rows
  {
    c.session == Some(Session(key.lineage, c.ledger.rows[key].epoch))
  }

  /** Why the callback closes a queued row before any write; the checks run in this order. */
  predicate Refuses(c: Companion, key: Key, why: BeforeWrite)
    requires key in c.ledger.rows
  {
    var row := c.ledger.rows[key];
    if !IsCurrent(c.ledger, row.token, row.fence) then why == OperatorCancelled
    else if !SessionMatches(c, key) then why == SessionChanged
    else why == PreflightRejected && (!Accepts(c.col, row.body) || row.body.StoreMedia? || row.body.ExportCheckpoint?)
  }

  predicate Clears(c: Companion, key: Key)
    requires key in c.ledger.rows
  {
    var row := c.ledger.rows[key];
    IsCurrent(c.ledger, row.token, row.fence) && SessionMatches(c, key) && Accepts(c.col, row.body)
  }

  /** The companion's own read-back after an effect. */
  predicate ReadsBack(col: Collection, body: Body, nid: NoteId) {
    match body
    case StoreMedia(filename, sha256, _) => filename in col.media && col.media[filename].sha256 == sha256
    case DeleteCreated(note, _) => !Observable(col, note)
    case CreateNote(_, _, _, fields, _, marker, _) =>
      && Observable(col, nid) && marker in col.notes[nid].tags
      && col.notes[nid].fields == col.notes[nid].fields + fields
    case UpdateNote(_, _, _, fields, _, _) =>
      Observable(col, nid) && col.notes[nid].fields == col.notes[nid].fields + fields
    case RestoreNote(_, _, _, fields, _, _, _) =>
      Observable(col, nid) && col.notes[nid].fields == col.notes[nid].fields + fields
    case ExportCheckpoint(_) => false
  }

  function ReceiptOf(col: Collection, body: Body, nid: NoteId): Receipt {
    match body
    case StoreMedia(filename, sha256, size) => MediaReceipt(filename, Media(sha256, size))
    case DeleteCreated(note, _) => RemovedReceipt(note)
    case ExportCheckpoint(_) => ExportReceipt(0)
    case _ => if Observable(col, nid) then NoteReceipt(nid, ContentOf(Observe(col, nid))) else RemovedReceipt(nid)
  }

  // ---------------------------------------------------------------- transitions

  /** A ledger call that fails leaves everything as it was. */
  function WithLedger(c: Companion, r: Result<Ledger, Error>): Companion {
    if r.Ok? then c.(ledger := r.value) else c
  }

  function Finish(c: Companion, key: Key): Companion {
    c.(live := c.live - {key}, callbacks := c.callbacks - {key}, exec := Idle)
  }

  function Crashed(c: Companion): Companion {
    c.(live := {}, callbacks := {}, exec := Idle, exporting := None, session := None)
  }

  /** The row under the callback. */
  predicate Busy(c: Companion) {
    !c.exec.Idle? && c.exec.key in c.ledger.rows
  }

  function Logged(c: Companion, after: Collection): Companion
    requires Busy(c) && c.session.Some? && CurrentOwner(c.ledger).Some?
  {
    var row := c.ledger.rows[c.exec.key];
    var entry := Entry(c.exec.key, row.body, c.col, after, c.session.value, CurrentOwner(c.ledger).value);
    c.(col := after, log := c.log + [entry])
  }

  predicate CanPerform(c: Companion) {
    && c.exec.Prepared? && Busy(c) && c.session.Some? && CurrentOwner(c.ledger).Some?
    && Accepts(c.col, c.ledger.rows[c.exec.key].body)
  }

  function BeginCall(c: Companion, lineage: Uuid, epoch: Uuid, approved: Uuid, token: Uuid): Result<Ledger, Error> {
    if c.session != Some(Session(lineage, epoch)) then Err(OwnerBindingConflict)
    else BeginOwner(c.ledger, lineage, epoch, approved, token, c.live)
  }

  /** `labMutate`: the session check, then the ledger; only an inserted row gets a callback. */
  function SubmitCall(c: Companion, r: Request): Result<(Ledger, bool), Error> {
    if c.session != Some(Session(r.key.lineage, r.epoch)) then Err(OwnerBindingConflict)
    else QueueNew(c.ledger, r)
  }

  predicate Enabled(c: Companion, l: Label) {
    match l
    case Begin(lineage, epoch, approved, token) => c.exec.Idle? && BeginCall(c, lineage, epoch, approved, token).Ok?
    case End(token, fence) => c.exec.Idle? && EndOwner(c.ledger, token, fence).Ok?
    case Submit(r, _) => c.exec.Idle? && SubmitCall(c, r).Ok? && SubmitCall(c, r).value.1
    case Refuse(key, why) =>
      c.exec.Idle? && key in c.callbacks && key in c.ledger.rows && Status(c.ledger.rows[key]).Queued?
          && Refuses(c, key, why)
    case Skip(key) => c.exec.Idle? && key in c.callbacks && key in c.ledger.rows && !Status(c.ledger.rows[key]).Queued?
    case Stall(key) => c.exec.Idle? && key in c.callbacks
    case Start(key) =>
      c.exec.Idle? && key in c.callbacks && key in c.ledger.rows && Status(c.ledger.rows[key]).Queued? && Clears(c, key)
    case DoEffect => CanPerform(c) && !c.ledger.rows[c.exec.key].body.ExportCheckpoint?
    case Interrupt(mid) => CanPerform(c) && Passes(c.col, c.ledger.rows[c.exec.key].body, mid)
    case CloseRow(_) => c.exec.Performed? && Busy(c)
    case Export => CanPerform(c) && c.ledger.rows[c.exec.key].body.ExportCheckpoint? && c.exporting.None?
    case Exported(_, _, _) =>
      c.exec.Idle? && c.exporting.Some? && c.exporting.value.0 in c.ledger.rows
    case Abandon(key) => key in c.callbacks
    case Open(_, epoch) => c.exec.Idle? && epoch !in c.epochs
    case Invalidate => c.exec.Idle?
    case UserEdit(col) => c.exec.Idle? && WellFormed(col)
    case Crash => true
    case CrashDuring(mid) => CanPerform(c) && Passes(c.col, c.ledger.rows[c.exec.key].body, mid)
  }

  function Next(c: Companion, l: Label): Companion
    requires Enabled(c, l)
  {
    match l
    case Begin(lineage, epoch, approved, token) => WithLedger(c, BeginCall(c, lineage, epoch, approved, token))
    case End(token, fence) => WithLedger(c, EndOwner(c.ledger, token, fence))
    case Submit(r, scheduled) =>
      var queued := c.(ledger := SubmitCall(c, r).value.0);
      if scheduled then queued.(live := c.live + {r.key}, callbacks := c.callbacks + {r.key}) else queued
    case Refuse(key, why) =>
      var row := c.ledger.rows[key];
      Finish(WithLedger(c, FailBeforeWrite(c.ledger, key, row.token, row.fence, why)), key)
    case Skip(key) => Finish(c, key)
    case Stall(key) => Finish(c, key)
    case Start(key) =>
      var row := c.ledger.rows[key];
      var started := WithLedger(c, MarkRunning(c.ledger, key, row.token, row.fence));
      started.(exec := Prepared(key), callbacks := c.callbacks - {key})
    case DoEffect =>
      var out := Perform(c.col, c.ledger.rows[c.exec.key].body);
      Logged(c, out.col).(exec := Performed(c.exec.key, out.done, out.note))
    case Interrupt(mid) => Logged(c, mid).(exec := Performed(c.exec.key, false, 0))
    case CloseRow(recorded) =>
      var key, row := c.exec.key, c.ledger.rows[c.exec.key];
      var r := if c.exec.done && ReadsBack(c.col, row.body, c.exec.note)
               then MarkVerified(c.ledger, key, row.token, row.fence, ReceiptOf(c.col, row.body, c.exec.note))
               else MarkUnknown(c.ledger, key, row.token, row.fence, ObservationIncomplete);
      Finish(if recorded then WithLedger(c, r) else c, key)
    case Export => Logged(c, c.col).(exec := Idle, exporting := Some((c.exec.key, c.session.value)), session := None)
    case Exported(ok, resumed, recorded) =>
      var key, s := c.exporting.value.0, c.exporting.value.1;
      var row := c.ledger.rows[key];
      var r := if ok && resumed then MarkVerified(c.ledger, key, row.token, row.fence, ExportReceipt(0))
               else MarkUnknown(c.ledger, key, row.token, row.fence, ObservationIncomplete);
      var finished := Finish(if recorded then WithLedger(c, r) else c, key);
      finished.(exporting := None, session := if resumed then Some(s) else c.session)
    case Abandon(key) => c.(callbacks := c.callbacks - {key})
    case Open(lineage, epoch) => c.(session := Some(Session(lineage, epoch)), epochs := c.epochs + {epoch})
    case Invalidate => c.(session := None)
    case UserEdit(col) => c.(col := col)
    case Crash => Crashed(c)
    case CrashDuring(mid) => Crashed(Logged(c, mid))
  }

  function Apply(c: Companion, l: Label): Companion {
    if Enabled(c, l) then Next(c, l) else c
  }

  function Run(c: Companion, labels: seq<Label>): Companion
    decreases |labels|
  {
    if labels == [] then c else Run(Apply(c, labels[0]), labels[1..])
  }

  /** A fresh installation over any collection. */
  function Fresh(col: Collection): Companion {
    Companion(Ledger([], {}, map[]), {}, {}, Idle, None, None, {}, col, [])
  }
}
