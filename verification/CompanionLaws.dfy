/** What every run of the companion keeps, whatever its clients, its user and its crashes do. */
module CompanionLaws {
  import opened Wrappers
  import opened Anki
  import opened Effects
  import opened Ledger
  import opened LedgerLaws
  import opened Companion

  // ---------------------------------------------------------------- the invariant

  predicate StatusIs(l: Ledger, key: Key, state: State) {
    key in l.rows && Status(l.rows[key]) == state
  }

  /** Who is at work on what. */
  ghost predicate Staffed(c: Companion) {
    && c.callbacks <= c.live <= c.ledger.rows.Keys
    && (forall k <- c.callbacks :: StatusIs(c.ledger, k, Queued))
    && (!c.exec.Idle? ==> c.exec.key in c.live && StatusIs(c.ledger, c.exec.key, Running) && c.exporting.None?)
    && (c.exporting.Some? ==> c.exporting.value.0 in c.live && StatusIs(c.ledger, c.exporting.value.0, Running)
                              && c.exporting.value.1.epoch in c.epochs)
    && (c.exec.Prepared? ==> Clears(c, c.exec.key))
    && (c.session.Some? ==> c.session.value.epoch in c.epochs)
  }

  predicate Begun(state: State) {
    state.Running? || state.Unknown? || state.Verified?
  }

  /** The effect was of an accepted body, complete or cut short, under the session and the owner its
      row was accepted under. */
  ghost predicate Faithful(e: Entry, row: Row) {
    && e.body == row.body && e.session == Session(e.key.lineage, row.epoch) && e.owner == OwnerOf(e.key, row)
    && Accepts(e.before, e.body) && Passes(e.before, e.body, e.after)
  }

  ghost predicate Genuine(l: Ledger, exec: Exec, e: Entry) {
    && e.key in l.rows && Begun(Status(l.rows[e.key])) && exec != Prepared(e.key)
    && Faithful(e, l.rows[e.key])
  }

  ghost predicate AtMostOnce(log: seq<Entry>) {
    forall i, j | 0 <= i < j < |log| :: log[i].key != log[j].key
  }

  ghost predicate Logs(c: Companion) {
    AtMostOnce(c.log) && forall e <- c.log :: Genuine(c.ledger, c.exec, e)
  }

  ghost predicate Inv(c: Companion) {
    Sound(c.ledger) && Staffed(c) && Logs(c)
  }

  /** Nothing durable is withdrawn. */
  ghost predicate Forward(a: Companion, b: Companion) {
    Extends(a.ledger, b.ledger) && a.log <= b.log && a.epochs <= b.epochs
  }

  lemma FreshInv(col: Collection)
    ensures Inv(Fresh(col))
  {}

  // ---------------------------------------------------------------- one label at a time

  lemma LogsKept(a: Companion, b: Companion)
    requires Logs(a) && Extends(a.ledger, b.ledger) && b.log == a.log
    requires b.exec.Prepared? ==> b.exec == a.exec || !(exists e <- a.log :: e.key == b.exec.key)
    ensures Logs(b)
  {
    forall e <- b.log ensures Genuine(b.ledger, b.exec, e) {
      assert Genuine(a.ledger, a.exec, e) && Follows(a.ledger.rows[e.key], b.ledger.rows[e.key]);
    }
  }

  lemma FlyingIs(c: Companion, key: Key, state: State)
    requires StatusIs(c.ledger, key, state) && InFlight(state)
    ensures Flying(c.ledger.rows, key)
  {}

  lemma NothingLive(c: Companion)
    requires Staffed(c) && forall k <- c.live :: !Flying(c.ledger.rows, k)
    ensures c.callbacks == {} && c.exec.Idle? && c.exporting.None?
  {
    assert forall k: Key :: (exists s: State :: StatusIs(c.ledger, k, s) && InFlight(s)) ==> Flying(c.ledger.rows, k);
  }

  lemma BeginKeeps(c: Companion, l: Label)
    requires Inv(c) && l.Begin? && Enabled(c, l)
    ensures Inv(Next(c, l)) && Forward(c, Next(c, l))
  {
    BeginOwnerSound(c.ledger, l.lineage, l.epoch, l.approved, l.token, c.live);
    NothingLive(c);
    LogsKept(c, Next(c, l));
  }

  lemma EndKeeps(c: Companion, l: Label)
    requires Inv(c) && l.End? && Enabled(c, l)
    ensures Inv(Next(c, l)) && Forward(c, Next(c, l))
  {
    EndOwnerSound(c.ledger, l.token, l.fence);
    LogsKept(c, Next(c, l));
  }

  lemma QueuedStaffed(c: Companion, key: Key, row: Row, scheduled: bool)
    requires Staffed(c) && c.exec.Idle? && key !in c.ledger.rows && Status(row) == Queued
    ensures var queued := c.(ledger := WithRow(c.ledger, key, row));
            && Staffed(queued)
            && Staffed(queued.(live := c.live + {key}, callbacks := c.callbacks + {key}))
  {
    var after := WithRow(c.ledger, key, row);
    forall k: Key, state: State | StatusIs(c.ledger, k, state) ensures StatusIs(after, k, state) {}
  }

  lemma SubmitKeeps(c: Companion, l: Label)
    requires Inv(c) && l.Submit? && Enabled(c, l)
    ensures Inv(Next(c, l)) && Forward(c, Next(c, l))
  {
    var after := SubmitCall(c, l.request).value.0;
    QueueNewSound(c.ledger, l.request);
    QueuedStaffed(c, l.request.key, after.rows[l.request.key], l.scheduled);
    LogsKept(c, Next(c, l));
  }

  lemma RefuseKeeps(c: Companion, l: Label)
    requires Inv(c) && l.Refuse? && Enabled(c, l)
    ensures Inv(Next(c, l)) && Forward(c, Next(c, l)) && StatusIs(Next(c, l).ledger, l.key, FailedBeforeWrite(l.why))
    ensures Next(c, l).col == c.col && Next(c, l).log == c.log
  {
    hide Sound, Accepts;
    var row := c.ledger.rows[l.key];
    FailBeforeWriteSound(c.ledger, l.key, row.token, row.fence, l.why);
    LogsKept(c, Next(c, l));
  }

  lemma LeaveKeeps(c: Companion, l: Label)
    requires Inv(c) && (l.Skip? || l.Stall? || l.Abandon? || l.Crash?) && Enabled(c, l)
    ensures Inv(Next(c, l)) && Forward(c, Next(c, l)) && Next(c, l).log == c.log
  {
    hide Sound, Accepts, Extends;
    ExtendsItself(c.ledger);
    LogsKept(c, Next(c, l));
  }

  lemma SessionKeeps(c: Companion, l: Label)
    requires Inv(c) && (l.Open? || l.Invalidate? || l.UserEdit?) && Enabled(c, l)
    ensures Inv(Next(c, l)) && Forward(c, Next(c, l)) && Next(c, l).log == c.log
  {
    hide Sound, Accepts, Extends;
    ExtendsItself(c.ledger);
    LogsKept(c, Next(c, l));
  }

  lemma StartLedger(c: Companion, key: Key)
    requires Inv(c) && Enabled(c, Start(key))
    ensures var row, after := c.ledger.rows[key], Next(c, Start(key)).ledger;
            && MarkRunning(c.ledger, key, row.token, row.fence) == Ok(after) && after == Append(c.ledger, key, Running)
            && Sound(after) && Extends(c.ledger, after) && StatusIs(after, key, Running)
            && after.rows[key] == row.(events := after.rows[key].events)
            && IsCurrent(after, row.token, row.fence)
  {
    hide Recorded, Accepts, ValidHistory;
    var row := c.ledger.rows[key];
    MarkRunningSound(c.ledger, key, row.token, row.fence);
  }

  lemma StartKeeps(c: Companion, l: Label)
    requires Inv(c) && l.Start? && Enabled(c, l)
    ensures Inv(Next(c, l)) && Forward(c, Next(c, l)) && Next(c, l).exec == Prepared(l.key)
  {
    hide Recorded, Accepts, ValidHistory;
    var next := Next(c, l);
    StartLedger(c, l.key);
    FlyingIs(c, l.key, Queued);
    forall k <- next.callbacks ensures false { FlyingIs(c, k, Queued); }
    if c.exporting.Some? { FlyingIs(c, c.exporting.value.0, Running); }
    forall e <- c.log ensures e.key != l.key { assert Genuine(c.ledger, c.exec, e); }
    LogsKept(c, next);
  }

  /** The entry an effect leaves is the first of its row, and faithful to it. */
  lemma LoggedKeeps(c: Companion, after: Collection)
    requires Inv(c) && CanPerform(c) && Passes(c.col, c.ledger.rows[c.exec.key].body, after)
    ensures Logs(Logged(c, after).(exec := Idle))
    ensures forall e <- Logged(c, after).log :: Genuine(c.ledger, Idle, e)
  {
    hide Recorded, ValidHistory, Passes;
    var key, next := c.exec.key, Logged(c, after);
    FlyingIs(c, key, Running);
    var row, e := c.ledger.rows[key], next.log[|c.log|];
    assert CurrentOwner(c.ledger) == Newest(c.ledger) == Some(OwnerOf(key, row));
    assert Genuine(c.ledger, Idle, e);
    forall d <- c.log ensures d.key != key && Genuine(c.ledger, Idle, d) { assert Genuine(c.ledger, c.exec, d); }
  }

  lemma PerformPasses(col: Collection, body: Body)
    requires Accepts(col, body)
    ensures Passes(col, body, Perform(col, body).col) && Passes(col, body, col)
  {}

  lemma EffectKeeps(c: Companion, l: Label)
    requires Inv(c) && (l.DoEffect? || l.Interrupt?) && Enabled(c, l)
    ensures Inv(Next(c, l)) && Forward(c, Next(c, l))
  {
    hide Recorded, ValidHistory, Passes, Extends, Accepts, Sound;
    PerformPasses(c.col, c.ledger.rows[c.exec.key].body);
    LoggedKeeps(c, Next(c, l).col);
    ExtendsItself(c.ledger);
  }

  lemma ExportKeeps(c: Companion, l: Label)
    requires Inv(c) && (l.Export? || l.CrashDuring?) && Enabled(c, l)
    ensures Inv(Next(c, l)) && Forward(c, Next(c, l))
  {
    hide Recorded, ValidHistory, Passes, Extends, Accepts, Sound;
    PerformPasses(c.col, c.ledger.rows[c.exec.key].body);
    LoggedKeeps(c, Next(c, l).col);
    ExtendsItself(c.ledger);
  }

  /** A close writes at most its own row; the write may be lost. */
  ghost predicate Closes(l: Ledger, key: Key, after: Ledger) {
    Sound(after) && Extends(l, after) && after.rows.Keys == l.rows.Keys
        && forall k <- l.rows :: k != key ==> after.rows[k] == l.rows[k]
  }

  lemma RunningCloses(l: Ledger, key: Key, state: State)
    requires Sound(l) && StatusIs(l, key, Running) && (state.Verified? || state.Unknown?)
    ensures Closes(l, key, Append(l, key, state)) && Closes(l, key, l)
  {
    hide Sound;
    ExtendsItself(l);
    AppendSound(l, key, state);
    assert Append(l, key, state).rows.Keys == l.rows.Keys;
  }

  lemma ClosedKeeps(c: Companion, key: Key, after: Ledger, exporting: Option<(Key, Session)>, session: Option<Session>)
    requires Inv(c) && Closes(c.ledger, key, after)
    requires (c.exec.Performed? && c.exec.key == key && exporting == c.exporting)
             || (c.exec.Idle? && c.exporting.Some? && c.exporting.value.0 == key && exporting.None?)
    requires session == c.session || (session.Some? && session.value.epoch in c.epochs)
    ensures var next := Finish(c.(ledger := after), key).(exporting := exporting, session := session);
            Inv(next) && Forward(c, next)
  {
    hide Recorded, ValidHistory, Extends, Accepts;
    var next := Finish(c.(ledger := after), key).(exporting := exporting, session := session);
    forall k <- next.callbacks ensures StatusIs(after, k, Queued) { assert StatusIs(c.ledger, k, Queued); }
    LogsKept(c, next);
  }

  function ClosingState(c: Companion): State
    requires c.exec.Performed? && Busy(c)
  {
    var row := c.ledger.rows[c.exec.key];
    if c.exec.done && ReadsBack(c.col, row.body, c.exec.note) then Verified(ReceiptOf(c.col, row.body, c.exec.note))
    else Unknown(ObservationIncomplete)
  }

  lemma CloseRowIs(c: Companion, recorded: bool)
    requires Staffed(c) && c.exec.Performed? && Busy(c)
    ensures Next(c, CloseRow(recorded))
            == Finish(if recorded then c.(ledger := Append(c.ledger, c.exec.key, ClosingState(c))) else c, c.exec.key)
  {}

  lemma CloseRowKeeps(c: Companion, l: Label)
    requires Inv(c) && l.CloseRow? && Enabled(c, l)
    ensures Inv(Next(c, l)) && Forward(c, Next(c, l))
  {
    RunningCloses(c.ledger, c.exec.key, ClosingState(c));
    CloseRowIs(c, l.recorded);
    ClosedKeeps(c, c.exec.key, Next(c, l).ledger, c.exporting, c.session);
  }

  lemma ExportedKeeps(c: Companion, l: Label)
    requires Inv(c) && l.Exported? && Enabled(c, l)
    ensures Inv(Next(c, l)) && Forward(c, Next(c, l))
  {
    hide Recorded, Accepts, ValidHistory;
    var key := c.exporting.value.0;
    var state := if l.ok && l.resumed then Verified(ExportReceipt(0)) else Unknown(ObservationIncomplete);
    RunningCloses(c.ledger, key, state);
    assert Next(c, l).ledger == if l.recorded then Append(c.ledger, key, state) else c.ledger;
    ClosedKeeps(c, key, Next(c, l).ledger, None, Next(c, l).session);
  }

  lemma NextKeeps(c: Companion, l: Label)
    requires Inv(c) && Enabled(c, l)
    ensures Inv(Next(c, l)) && Forward(c, Next(c, l))
  {
    match l
    case Begin(_, _, _, _) => BeginKeeps(c, l);
    case End(_, _) => EndKeeps(c, l);
    case Submit(_, _) => SubmitKeeps(c, l);
    case Refuse(_, _) => RefuseKeeps(c, l);
    case Start(_) => StartKeeps(c, l);
    case DoEffect => EffectKeeps(c, l);
    case Interrupt(_) => EffectKeeps(c, l);
    case Export => ExportKeeps(c, l);
    case CrashDuring(_) => ExportKeeps(c, l);
    case CloseRow(_) => CloseRowKeeps(c, l);
    case Exported(_, _, _) => ExportedKeeps(c, l);
    case Open(_, _) => SessionKeeps(c, l);
    case Invalidate => SessionKeeps(c, l);
    case UserEdit(_) => SessionKeeps(c, l);
    case _ => LeaveKeeps(c, l);
  }

  // ---------------------------------------------------------------- every run

  lemma ApplyKeeps(c: Companion, l: Label)
    requires Inv(c)
    ensures Inv(Apply(c, l)) && Forward(c, Apply(c, l))
  {
    if Enabled(c, l) { NextKeeps(c, l); }
  }

  lemma ForwardTransitive(a: Companion, b: Companion, c: Companion)
    requires Forward(a, b) && Forward(b, c)
    ensures Forward(a, c)
  {
    ExtendsTransitive(a.ledger, b.ledger, c.ledger);
  }

  /** The invariant holds throughout every run, and no run withdraws a row, an owner or an effect. */
  lemma {:induction false} RunKeeps(c: Companion, labels: seq<Label>)
    requires Inv(c)
    ensures Inv(Run(c, labels)) && Forward(c, Run(c, labels))
    decreases |labels|
  {
    if labels == [] {
    } else {
      ApplyKeeps(c, labels[0]);
      RunKeeps(Apply(c, labels[0]), labels[1..]);
      ForwardTransitive(c, Apply(c, labels[0]), Run(c, labels));
    }
  }
}
