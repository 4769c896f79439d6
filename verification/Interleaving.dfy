/** How effects interleave with the user: no edit is overwritten, no study is lost, and nothing runs
    outside the session it was accepted under. */
module Interleaving {
  import opened Wrappers
  import opened Anki
  import opened Effects
  import opened EffectLaws
  import opened Grants
  import opened Ledger
  import opened LedgerLaws
  import opened Companion
  import opened CompanionLaws
  import opened Safety

  // ---------------------------------------------------------------- no lost user edit

  /** The log and the collection stay, the user edited, or one entry was logged and its result is the collection. */
  ghost predicate Stepped(c: Companion, next: Companion, edited: bool) {
    || (next.log == c.log && (next.col == c.col || edited))
    || (exists e: Entry :: next.log == c.log + [e] && e.before == c.col && e.after == next.col)
  }

  /** The collection changes only by the user's hand or by one logged effect made on the collection as it was. */
  lemma CollectionChanges(c: Companion, l: Label)
    requires Enabled(c, l)
    ensures Stepped(c, Next(c, l), l.UserEdit?)
  {
    match l
    case DoEffect => assert Next(c, l).log == c.log + [Next(c, l).log[|c.log|]];
    case Interrupt(_) => assert Next(c, l).log == c.log + [Next(c, l).log[|c.log|]];
    case Export => assert Next(c, l).log == c.log + [Next(c, l).log[|c.log|]];
    case CrashDuring(_) => assert Next(c, l).log == c.log + [Next(c, l).log[|c.log|]];
    case _ =>
  }

  /** The note and the content an effect expects, for the effects that rewrite or remove a note. */
  function Expects(body: Body): Option<(NoteId, Content)> {
    match body
    case UpdateNote(nid, pre, _, _, _, _) => Some((nid, pre))
    case RestoreNote(nid, pre, _, _, _, _, _) => Some((nid, pre))
    case DeleteCreated(nid, pre) => Some((nid, pre))
    case _ => None
  }

  predicate AsExpected(col: Collection, body: Body) {
    Expects(body).Some? ==>
      Observable(col, Expects(body).value.0) && ContentOf(Observe(col, Expects(body).value.0)) == Expects(body).value.1
  }

  lemma AcceptedAsExpected(col: Collection, body: Body)
    requires Accepts(col, body)
    ensures AsExpected(col, body)
  {}

  lemma UnexpectedNotGranted(col: Collection, body: Body)
    requires !AsExpected(col, body)
    ensures !Granted(col, body)
  {
    hide Granted;
    AcceptsExactly(col, body);
    if Accepts(col, body) { AcceptedAsExpected(col, body); }
  }

  /** In every run, every update, restore and deletion was made on a note that still had the expected content. */
  lemma NoLostEdit(col: Collection, labels: seq<Label>)
    ensures forall e <- Run(Fresh(col), labels).log :: AsExpected(e.before, e.body)
  {
    FreshInv(col);
    RunKeeps(Fresh(col), labels);
    var c := Run(Fresh(col), labels);
    forall e <- c.log ensures AsExpected(e.before, e.body) {
      assert Genuine(c.ledger, c.exec, e);
      AcceptedAsExpected(e.before, e.body);
    }
  }

  /** In every run, every effect was made on a collection that grants it: a create where no note carried the
      marker, on the reviewed note type, into an ordinary deck, over unchanged schedule sources; and likewise
      every other effect. */
  lemma MadeAsGranted(col: Collection, labels: seq<Label>)
    ensures forall e <- Run(Fresh(col), labels).log :: Granted(e.before, e.body)
  {
    hide Granted;
    FreshInv(col);
    RunKeeps(Fresh(col), labels);
    var c := Run(Fresh(col), labels);
    forall e <- c.log ensures Granted(e.before, e.body) {
      assert Genuine(c.ledger, c.exec, e);
      AcceptsExactly(e.before, e.body);
    }
  }

  /** The callback starts a queued row exactly under its current owner, in its session, on a collection that
      grants the effect. */
  lemma StartsExactly(c: Companion, key: Key)
    requires Inv(c) && c.exec.Idle? && key in c.callbacks
    ensures var row := c.ledger.rows[key];
            Enabled(c, Start(key))
            <==> IsCurrent(c.ledger, row.token, row.fence) && SessionMatches(c, key) && Granted(c.col, row.body)
  {
    hide Granted, Sound, Logs;
    AcceptsExactly(c.col, c.ledger.rows[key].body);
  }

  /** Every accepted row has a structurally valid body. */
  lemma AcceptedIsStructured(col: Collection, labels: seq<Label>)
    ensures forall k <- Run(Fresh(col), labels).ledger.rows :: Structured(Run(Fresh(col), labels).ledger.rows[k].body)
  {
    hide Structured;
    FreshInv(col);
    RunKeeps(Fresh(col), labels);
    var l := Run(Fresh(col), labels).ledger;
    forall k <- l.rows ensures Structured(l.rows[k].body) {
      assert RecordedRow(k, l.rows[k], l.owners);
      StructuredExactly(l.rows[k].body);
    }
  }

  /** The callback refuses for the first thing that is amiss: the owner, the session, or the precondition; a file
      that is not staged and an export without a directory are refused as the last. */
  lemma RefusesExactly(c: Companion, key: Key, why: BeforeWrite)
    requires key in c.ledger.rows
    ensures var row := c.ledger.rows[key];
            var owned, open := IsCurrent(c.ledger, row.token, row.fence),
                               c.session == Some(Session(key.lineage, row.epoch));
            Refuses(c, key, why)
            <==> || (why == OperatorCancelled && !owned)
                 || (why == SessionChanged && owned && !open)
                 || (why == PreflightRejected && owned && open
                     && (!Granted(c.col, row.body) || row.body.StoreMedia? || row.body.ExportCheckpoint?))
  {
    hide Granted, Accepts;
    AcceptsExactly(c.col, c.ledger.rows[key].body);
  }

  lemma RefusalOf(c: Companion, key: Key) returns (why: BeforeWrite)
    requires Staffed(c) && c.exec.Idle? && key in c.callbacks && !Accepts(c.col, c.ledger.rows[key].body)
    ensures Enabled(c, Refuse(key, why)) && !Enabled(c, Start(key))
  {
    var row := c.ledger.rows[key];
    assert StatusIs(c.ledger, key, Queued);
    why := if !IsCurrent(c.ledger, row.token, row.fence) then OperatorCancelled
           else if !SessionMatches(c, key) then SessionChanged else PreflightRejected;
  }

  /** Without the grant the callback cannot start; it closes the row before any write and leaves the collection
      alone. */
  lemma UngrantedIsRefused(c: Companion, key: Key) returns (why: BeforeWrite)
    requires Inv(c) && c.exec.Idle? && key in c.callbacks
    requires !Granted(c.col, c.ledger.rows[key].body)
    ensures !Enabled(c, Start(key)) && Enabled(c, Refuse(key, why))
    ensures var next := Next(c, Refuse(key, why));
            StatusIs(next.ledger, key, FailedBeforeWrite(why)) && next.col == c.col && next.log == c.log
  {
    hide Granted;
    AcceptsExactly(c.col, c.ledger.rows[key].body);
    why := RefusalOf(c, key);
    RefuseKeeps(c, Refuse(key, why));
  }

  /** So it does when the note was edited. */
  lemma EditedNoteIsRefused(c: Companion, key: Key) returns (why: BeforeWrite)
    requires Inv(c) && c.exec.Idle? && key in c.callbacks
    requires !AsExpected(c.col, c.ledger.rows[key].body)
    ensures !Enabled(c, Start(key)) && Enabled(c, Refuse(key, why))
    ensures var next := Next(c, Refuse(key, why));
            StatusIs(next.ledger, key, FailedBeforeWrite(why)) && next.col == c.col && next.log == c.log
  {
    hide Granted;
    UnexpectedNotGranted(c.col, c.ledger.rows[key].body);
    why := UngrantedIsRefused(c, key);
  }

  // ---------------------------------------------------------------- study is conserved

  /** Study is conserved, and card IDs are never given out twice. */
  ghost predicate StudyStep(a: Collection, b: Collection) {
    && StudyConserved(a, b) && a.nextId <= b.nextId
    && forall c <- b.cards :: c in a.cards || c >= a.nextId
  }

  lemma StudyTransitive(a: Collection, b: Collection, c: Collection)
    requires WellFormed(a) && StudyStep(a, b) && StudyStep(b, c)
    ensures StudyStep(a, c)
  {
    forall k <- a.cards ensures if k in c.cards then SameStudy(a.cards[k], c.cards[k]) else !Studied(a.cards[k]) {
      if k in c.cards { assert k in b.cards; }
    }
  }

  lemma RewriteSteps(col: Collection, nid: NoteId, migration: Option<Migration>, fields: Fields, tags: seq<string>,
                     decks: map<CardId, DeckId>)
    requires WellFormed(col) && Observable(col, nid)
    requires migration.Some? ==> migration.value.targetModel in col.models
    ensures var after := MoveCards(Rewrite(col, nid, migration, fields, tags), decks);
            col.nextId <= after.nextId && forall c <- after.cards :: c in col.cards || c >= col.nextId
    ensures var typed := Retype(col, nid, migration);
            col.nextId <= typed.nextId && forall c <- typed.cards :: c in col.cards || c >= col.nextId
  {
    RetypeKeeps(col, nid, migration);
  }

  lemma {:induction false} InheritSteps(col: Collection, nid: NoteId, sources: map<CardId, Card>, entries: seq<Inherit>)
    requires forall e <- entries :: e.source in sources
    ensures var after := InheritAll(col, nid, sources, entries).col;
            after.nextId == col.nextId && after.cards.Keys == col.cards.Keys
    decreases |entries|
  {
    if entries != [] && HasOrdinal(col, nid, entries[0].ord) {
      var c := CardAt(col, nid, entries[0].ord);
      InheritSteps(col.(cards := col.cards[c := Copied(col.cards[c], sources[entries[0].source])]), nid, sources,
                   entries[1..]);
    }
  }

  lemma AddNoteSteps(col: Collection, body: Body)
    requires body.CreateNote? && PreflightCreate(col, body).None?
    ensures var after := AddNote(col, body);
            col.nextId <= after.nextId && forall c <- after.cards :: c in col.cards || c >= col.nextId
  {}

  ghost predicate FreshAbove(a: Collection, b: Collection) {
    a.nextId <= b.nextId && forall c <- b.cards :: c in a.cards || c >= a.nextId
  }

  lemma UpdateSteps(col: Collection, body: Body, mid: Collection)
    requires WellFormed(col) && body.UpdateNote? && Accepts(col, body) && Passes(col, body, mid)
    ensures FreshAbove(col, mid)
  {
    hide WellFormed, Rewrite;
    forall decks {
      RewriteSteps(col, body.nid, body.migration, body.fields, AddTags(col.notes[body.nid].tags, body.addTags), decks);
    }
  }

  lemma RestoreSteps(col: Collection, body: Body, mid: Collection)
    requires WellFormed(col) && body.RestoreNote? && Accepts(col, body) && Passes(col, body, mid)
    ensures FreshAbove(col, mid)
  {
    hide WellFormed, Rewrite;
    forall decks { RewriteSteps(col, body.nid, body.migration, body.fields, body.tags, decks); }
  }

  lemma CreateSteps(col: Collection, body: Body, mid: Collection)
    requires WellFormed(col) && body.CreateNote? && Accepts(col, body) && Passes(col, body, mid)
    ensures FreshAbove(col, mid)
  {
    hide WellFormed, InheritAll, AddNote;
    AddNoteSteps(col, body);
    InheritSourcesExist(col, |col.models[ModelNamed(col, body.modelName)].templates|, body.inherit);
    forall k | 0 <= k <= |body.inherit| { InheritSteps(AddNote(col, body), col.nextId, col.cards, body.inherit[..k]); }
    assert body.inherit[..|body.inherit|] == body.inherit;
  }

  lemma EffectSteps(col: Collection, body: Body, mid: Collection)
    requires WellFormed(col) && Accepts(col, body) && Passes(col, body, mid)
    ensures StudyStep(col, mid)
  {
    EffectsConserveStudy(col, body, mid);
    match body
    case UpdateNote(_, _, _, _, _, _) => UpdateSteps(col, body, mid);
    case RestoreNote(_, _, _, _, _, _, _) => RestoreSteps(col, body, mid);
    case CreateNote(_, _, _, _, _, _, _) => CreateSteps(col, body, mid);
    case _ =>
  }

  lemma UpdatePassesWellFormed(col: Collection, body: Body, mid: Collection)
    requires WellFormed(col) && body.UpdateNote? && Accepts(col, body) && ValidBody(body) && Passes(col, body, mid)
    ensures WellFormed(mid)
  {
    hide WellFormed, Rewrite;
    RetypeWellFormed(col, body.nid, body.migration);
    forall decks { UpdateWellFormed(col, body, decks); }
  }

  lemma RestorePassesWellFormed(col: Collection, body: Body, mid: Collection)
    requires WellFormed(col) && body.RestoreNote? && Accepts(col, body) && ValidBody(body) && Passes(col, body, mid)
    ensures WellFormed(mid)
  {
    hide WellFormed, Rewrite;
    RetypeWellFormed(col, body.nid, body.migration);
    forall decks { RestoreWellFormed(col, body, decks); }
  }

  lemma CreatePassesWellFormed(col: Collection, body: Body, mid: Collection)
    requires WellFormed(col) && body.CreateNote? && Accepts(col, body) && Passes(col, body, mid)
    ensures WellFormed(mid)
  {
    CreateWellFormed(col, body);
    InheritSourcesExist(col, |col.models[ModelNamed(col, body.modelName)].templates|, body.inherit);
    forall k | 0 <= k <= |body.inherit| {
      InheritWellFormed(AddNote(col, body), col.nextId, col.cards, body.inherit[..k]);
    }
  }

  /** Even an effect cut short leaves identifiers, field sets and card ordinals well formed. */
  lemma PassesKeepWellFormed(col: Collection, body: Body, mid: Collection)
    requires WellFormed(col) && Accepts(col, body) && ValidBody(body) && Passes(col, body, mid)
    ensures WellFormed(mid)
  {
    match body
    case UpdateNote(_, _, _, _, _, _) => UpdatePassesWellFormed(col, body, mid);
    case RestoreNote(_, _, _, _, _, _, _) => RestorePassesWellFormed(col, body, mid);
    case CreateNote(_, _, _, _, _, _, _) => CreatePassesWellFormed(col, body, mid);
    case _ => EffectsKeepWellFormed(col, body);
  }

  lemma LoggedEntry(c: Companion, e: Entry)
    requires Inv(c) && e in c.log
    ensures Accepts(e.before, e.body) && Passes(e.before, e.body, e.after) && ValidBody(e.body)
  {
    assert Genuine(c.ledger, c.exec, e);
    assert RecordedRow(e.key, c.ledger.rows[e.key], c.ledger.owners);
  }

  ghost predicate Conserving(e: Entry) {
    WellFormed(e.before) && WellFormed(e.after) && StudyStep(e.before, e.after)
  }

  lemma EntryConserves(c: Companion, e: Entry)
    requires Inv(c) && e in c.log && WellFormed(e.before)
    ensures Conserving(e)
  {
    LoggedEntry(c, e);
    EffectSteps(e.before, e.body, e.after);
    PassesKeepWellFormed(e.before, e.body, e.after);
  }

  lemma EditedWellFormed(c: Companion, l: Label)
    requires l.UserEdit? && Enabled(c, l)
    ensures WellFormed(Next(c, l).col)
  {}

  lemma StudyStays(col: Collection)
    ensures StudyStep(col, col)
  {}

  lemma StepConserves(c: Companion, next: Companion, edited: bool)
    requires Inv(next) && WellFormed(c.col) && Stepped(c, next, edited) && (edited ==> WellFormed(next.col))
    ensures WellFormed(next.col) && (edited || StudyStep(c.col, next.col))
    ensures forall e <- next.log :: e in c.log || Conserving(e)
  {
    StudyStays(c.col);
    if e: Entry :| next.log == c.log + [e] && e.before == c.col && e.after == next.col {
      EntryConserves(next, e);
    }
  }

  lemma NextCollection(c: Companion, l: Label)
    requires Inv(c) && WellFormed(c.col) && Enabled(c, l)
    ensures var next := Next(c, l);
            && WellFormed(next.col) && (l.UserEdit? || StudyStep(c.col, next.col))
            && forall e <- next.log :: e in c.log || Conserving(e)
  {
    CollectionChanges(c, l);
    NextKeeps(c, l);
    if l.UserEdit? { EditedWellFormed(c, l); }
    StepConserves(c, Next(c, l), l.UserEdit?);
  }

  lemma {:induction false} RunConserves(c: Companion, labels: seq<Label>)
    requires Inv(c) && WellFormed(c.col)
    ensures WellFormed(Run(c, labels).col)
    ensures (forall l <- labels :: !l.UserEdit?) ==> StudyStep(c.col, Run(c, labels).col)
    ensures forall e <- Run(c, labels).log :: e in c.log || Conserving(e)
    decreases |labels|
  {
    if labels != [] {
      ApplyKeeps(c, labels[0]);
      if Enabled(c, labels[0]) { NextCollection(c, labels[0]); }
      RunConserves(Apply(c, labels[0]), labels[1..]);
      if forall l <- labels :: !l.UserEdit? {
        assert labels[0] in labels && forall l <- labels[1..] :: l in labels;
        StudyTransitive(c.col, Apply(c, labels[0]).col, Run(c, labels).col);
      }
    }
  }

  /** In every run each effect, cut short or not, conserved study; and a run the user does not touch loses
      no studied card and changes no schedule or history between its ends. */
  lemma StudyIsConserved(col: Collection, labels: seq<Label>)
    requires WellFormed(col)
    ensures var c := Run(Fresh(col), labels);
            && WellFormed(c.col)
            && (forall e <- c.log :: StudyConserved(e.before, e.after))
            && ((forall l <- labels :: !l.UserEdit?) ==> StudyConserved(col, c.col))
  {
    FreshInv(col);
    RunConserves(Fresh(col), labels);
  }

  // ---------------------------------------------------------------- epochs

  /** Every effect was made while the session was the one its row was accepted under, by its current owner. */
  lemma EffectsUnderTheirSession(col: Collection, labels: seq<Label>)
    ensures var c := Run(Fresh(col), labels);
            forall e <- c.log :: && e.key in c.ledger.rows
                                 && e.session == Session(e.key.lineage, c.ledger.rows[e.key].epoch)
                                 && e.owner == OwnerOf(e.key, c.ledger.rows[e.key])
  {
    FreshInv(col);
    RunKeeps(Fresh(col), labels);
    var c := Run(Fresh(col), labels);
    forall e <- c.log ensures e.key in c.ledger.rows && Faithful(e, c.ledger.rows[e.key]) {
      assert Genuine(c.ledger, c.exec, e);
    }
  }

  /** The session the row was accepted under is over: neither open, nor set aside for an own export, nor
      already checked by the callback. */
  ghost predicate SessionOver(c: Companion, key: Key) {
    && key in c.ledger.rows && c.ledger.rows[key].epoch in c.epochs
    && (c.session.Some? ==> c.session.value.epoch != c.ledger.rows[key].epoch)
    && (c.exporting.Some? ==> c.exporting.value.1.epoch != c.ledger.rows[key].epoch)
    && c.exec != Prepared(key)
  }

  lemma OtherLogged(c: Companion, l: Label, key: Key)
    requires Enabled(c, l) && c.exec != Prepared(key) && HasEffect(Next(c, l).log, key)
    ensures HasEffect(c.log, key)
  {
    var e :| e in Next(c, l).log && e.key == key;
  }

  lemma StartIsAnother(c: Companion, l: Label, key: Key)
    requires SessionOver(c, key) && l.Start? && Enabled(c, l)
    ensures l.key != key
  {
    hide Accepts;
  }

  /** A session comes from an opening under a new epoch or from the export that set it aside. */
  lemma SessionMoves(c: Companion, l: Label)
    requires Enabled(c, l)
    ensures var next := Next(c, l);
            && (next.session == c.session || next.session.None?
                || (l.Open? && next.session == Some(Session(l.lineage, l.epoch)) && l.epoch !in c.epochs)
                || (c.exporting.Some? && next.session == Some(c.exporting.value.1)))
            && c.epochs <= next.epochs
  {
    hide Accepts, Perform, Passes, WellFormed, Preflight;
  }

  lemma ExportingMoves(c: Companion, l: Label)
    requires Enabled(c, l)
    ensures var next := Next(c, l);
            next.exporting == c.exporting || next.exporting.None?
                || (c.session.Some? && next.exporting.Some? && next.exporting.value.1 == c.session.value)
  {
    hide Accepts, Perform, Passes, WellFormed, Preflight;
  }

  lemma PreparedByStart(c: Companion, l: Label, key: Key)
    requires Enabled(c, l) && Next(c, l).exec == Prepared(key)
    ensures c.exec == Prepared(key) || l == Start(key)
    ensures c.exec == Prepared(key) || StatusIs(c.ledger, key, Queued)
  {
    hide Accepts, Perform, Passes, WellFormed, Preflight;
  }

  lemma SessionStaysOver(c: Companion, l: Label, key: Key)
    requires SessionOver(c, key) && Enabled(c, l)
    requires Extends(c.ledger, Next(c, l).ledger)
    ensures SessionOver(Next(c, l), key)
  {
    assert Follows(c.ledger.rows[key], Next(c, l).ledger.rows[key]);
    hide Enabled, Next;
    SessionMoves(c, l);
    ExportingMoves(c, l);
    if l.Start? { StartIsAnother(c, l, key); }
    if Next(c, l).exec == Prepared(key) { PreparedByStart(c, l, key); }
  }

  /** A reopened collection is a new session: an operation whose session is over never takes effect. */
  lemma {:induction false} SessionOverNeverPerforms(c: Companion, more: seq<Label>, key: Key)
    requires Inv(c) && SessionOver(c, key) && !HasEffect(c.log, key)
    ensures !HasEffect(Run(c, more).log, key)
    decreases |more|
  {
    if more != [] {
      ApplyKeeps(c, more[0]);
      if Enabled(c, more[0]) {
        SessionStaysOver(c, more[0], key);
        if HasEffect(Next(c, more[0]).log, key) { OtherLogged(c, more[0], key); }
      }
      SessionOverNeverPerforms(Apply(c, more[0]), more[1..], key);
    }
  }

  /** A row past `queued`, and not under a callback that is about to make its effect. */
  lemma {:induction false} PastQueuedNeverPerforms(c: Companion, more: seq<Label>, key: Key)
    requires Inv(c) && key in c.ledger.rows && !Status(c.ledger.rows[key]).Queued? && c.exec != Prepared(key)
    requires !HasEffect(c.log, key)
    ensures !HasEffect(Run(c, more).log, key)
    decreases |more|
  {
    hide Enabled, Next, Sound, Staffed, Logs;
    if more != [] {
      var l, next := more[0], Apply(c, more[0]);
      ApplyKeeps(c, l);
      if Enabled(c, l) {
        assert Follows(c.ledger.rows[key], next.ledger.rows[key]);
        if next.exec == Prepared(key) { PreparedByStart(c, l, key); }
        if HasEffect(next.log, key) { OtherLogged(c, l, key); }
      }
      PastQueuedNeverPerforms(next, more[1..], key);
    }
  }

  /** The row's owner was released before the callback started it. */
  ghost predicate Disowned(c: Companion, key: Key) {
    key in c.ledger.rows && c.ledger.rows[key].fence in c.ledger.released && c.exec != Prepared(key)
  }

  lemma StartNeedsOwner(c: Companion, key: Key)
    requires Enabled(c, Start(key))
    ensures c.ledger.rows[key].fence !in c.ledger.released
  {
    hide Accepts;
  }

  /** What a released owner queued and did not start never takes effect. */
  lemma {:induction false} DisownedNeverPerforms(c: Companion, more: seq<Label>, key: Key)
    requires Inv(c) && Disowned(c, key) && !HasEffect(c.log, key)
    ensures !HasEffect(Run(c, more).log, key)
    decreases |more|
  {
    hide Enabled, Next, Sound, Staffed, Logs;
    if more != [] {
      var l, next := more[0], Apply(c, more[0]);
      ApplyKeeps(c, l);
      if Enabled(c, l) {
        assert Follows(c.ledger.rows[key], next.ledger.rows[key]);
        if next.exec == Prepared(key) {
          PreparedByStart(c, l, key);
          StartNeedsOwner(c, key);
        }
        if HasEffect(next.log, key) { OtherLogged(c, l, key); }
      }
      DisownedNeverPerforms(next, more[1..], key);
    }
  }

  /** After the release of an owner, in any later run, none of its rows is new and none that had not started
      takes effect. */
  lemma ReleasedIsSilent(c: Companion, token: Uuid, fence: nat, more: seq<Label>)
    requires Inv(c) && Enabled(c, Label.End(token, fence))
    ensures var d := Run(Apply(c, Label.End(token, fence)), more);
            && (forall k <- d.ledger.rows | d.ledger.rows[k].fence == fence :: k in c.ledger.rows)
            && (forall k <- c.ledger.rows | c.ledger.rows[k].fence == fence && !HasEffect(c.log, k) ::
                  !HasEffect(d.log, k))
  {
    hide Sound, Logs;
    var ended := Apply(c, Label.End(token, fence));
    EndReleases(c, token, fence);
    ApplyKeeps(c, Label.End(token, fence));
    NoneAccepted(ended, more, fence);
    forall k <- c.ledger.rows | c.ledger.rows[k].fence == fence && !HasEffect(c.log, k)
      ensures !HasEffect(Run(ended, more).log, k)
    {
      DisownedNeverPerforms(ended, more, k);
    }
  }

  lemma EndReleases(c: Companion, token: Uuid, fence: nat)
    requires Inv(c) && Enabled(c, Label.End(token, fence))
    ensures var ended := Apply(c, Label.End(token, fence));
            && fence in ended.ledger.released && ended.ledger.rows == c.ledger.rows && ended.log == c.log
            && ended.exec == Idle
  {
    hide Inv;
  }

  /** A row accepted by a step carries the fence of an owner that was current before. */
  lemma NewRowIsOwned(c: Companion, l: Label, k: Key)
    requires Enabled(c, l) && k in Next(c, l).ledger.rows && k !in c.ledger.rows
    ensures Next(c, l).ledger.rows[k].fence !in c.ledger.released
  {}

  lemma {:induction false} NoneAccepted(c: Companion, more: seq<Label>, fence: nat)
    requires Inv(c) && fence in c.ledger.released
    ensures var d := Run(c, more);
            forall k <- d.ledger.rows | d.ledger.rows[k].fence == fence :: k in c.ledger.rows
    decreases |more|
  {
    hide Enabled, Next, Sound, Staffed, Logs;
    if more != [] {
      var l, next := more[0], Apply(c, more[0]);
      ApplyKeeps(c, l);
      NoneAccepted(next, more[1..], fence);
      RunKeeps(next, more[1..]);
      var d := Run(next, more[1..]);
      forall k <- d.ledger.rows | d.ledger.rows[k].fence == fence ensures k in c.ledger.rows {
        if k !in c.ledger.rows {
          assert Follows(next.ledger.rows[k], d.ledger.rows[k]);
          NewRowIsOwned(c, l, k);
        }
      }
    }
  }

  /** While an own export runs, its row is the only one in flight. */
  lemma OnlyTheExportFlies(c: Companion, key: Key)
    requires Inv(c) && c.exporting.Some? && key in c.ledger.rows && key != c.exporting.value.0
    ensures !Status(c.ledger.rows[key]).Queued?
  {
    var k := c.exporting.value.0;
    assert StatusIs(c.ledger, k, Running);
    if Status(c.ledger.rows[key]).Queued? { assert Flying(c.ledger.rows, k) && Flying(c.ledger.rows, key); }
  }

  ghost predicate EpochsKnown(c: Companion) {
    forall k <- c.ledger.rows :: c.ledger.rows[k].epoch in c.epochs
  }

  lemma NewRow(c: Companion, l: Label, k: Key)
    requires Enabled(c, l) && k in Next(c, l).ledger.rows && k !in c.ledger.rows
    ensures l.Submit? && k == l.request.key && Next(c, l).ledger.rows[k].epoch == l.request.epoch
    ensures c.session.Some? && c.session.value.epoch == l.request.epoch
  {}

  lemma NextKnows(c: Companion, l: Label)
    requires Staffed(c) && EpochsKnown(c) && Enabled(c, l) && Forward(c, Next(c, l))
    ensures EpochsKnown(Next(c, l))
  {
    var next := Next(c, l);
    forall k <- next.ledger.rows ensures next.ledger.rows[k].epoch in next.epochs {
      if k in c.ledger.rows {
        assert Follows(c.ledger.rows[k], next.ledger.rows[k]);
      } else {
        NewRow(c, l, k);
      }
    }
  }

  lemma {:induction false} RunKnows(c: Companion, labels: seq<Label>)
    requires Inv(c) && EpochsKnown(c)
    ensures EpochsKnown(Run(c, labels))
    decreases |labels|
  {
    if labels != [] {
      ApplyKeeps(c, labels[0]);
      if Enabled(c, labels[0]) { NextKnows(c, labels[0]); }
      RunKnows(Apply(c, labels[0]), labels[1..]);
    }
  }

  /** Reopening the collection ends the session of every row accepted before, except the one an own export
      has set aside, and that one has taken effect: a row that has not taken effect yet never will. */
  lemma ReopenedNeverPerforms(col: Collection, labels: seq<Label>, lineage: Uuid, epoch: Uuid, more: seq<Label>,
                              key: Key)
    requires var c := Run(Fresh(col), labels);
             Enabled(c, Open(lineage, epoch)) && key in c.ledger.rows && !HasEffect(c.log, key)
    ensures !HasEffect(Run(Apply(Run(Fresh(col), labels), Open(lineage, epoch)), more).log, key)
  {
    FreshInv(col);
    RunKeeps(Fresh(col), labels);
    RunKnows(Fresh(col), labels);
    RunAttests(Fresh(col), labels);
    var c := Run(Fresh(col), labels);
    NextKeeps(c, Open(lineage, epoch));
    if c.exporting.Some? {
      OnlyTheExportFlies(c, key);
      PastQueuedNeverPerforms(Apply(c, Open(lineage, epoch)), more, key);
    } else {
      assert SessionOver(Next(c, Open(lineage, epoch)), key);
      SessionOverNeverPerforms(Apply(c, Open(lineage, epoch)), more, key);
    }
  }
}
