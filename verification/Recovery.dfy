/** The reconcile command, and what it achieves in an undisturbed world. */
module Recovery {
  import opened Wrappers
  import opened Anki
  import opened Effects
  import opened Readback
  import opened Ledger
  import opened Companion
  import opened CompanionLaws
  import opened System
  import opened Moves
  import opened Serving
  import opened Client
  import opened Driver
  import opened Planning
  import opened Reconcile
  import J = Journal

  /** The affected state a rebinding decision names: the note or its candidates, and each media file. */
  datatype Affected = Affected(notes: set<ObservedNote>, media: map<string, Media>)

  datatype Rebind = Rebind(epoch: Uuid, observed: Affected)

  function AffectedIds(col: Collection, intent: Intent): set<NoteId> {
    match intent.pre.observed
    case Some(note) => {note.id}
    case None => set s, n | s in intent.steps && s.body.CreateNote? && n in Tagged(col, s.body.marker) :: n
  }

  function AffectedState(col: Collection, intent: Intent): Affected {
    var names := set s | s in intent.steps && s.body.StoreMedia? :: s.body.filename;
    Affected(set n | n in AffectedIds(col, intent) && Observable(col, n) :: Observe(col, n),
             map m | m in names && m in col.media :: col.media[m])
  }

  /** A note the operation is about: the one it updates, or one with the marker of its create. */
  predicate Concerned(col: Collection, intent: Intent, n: NoteId) {
    && Observable(col, n)
    && match intent.pre.observed
       case Some(note) => n == note.id
       case None => exists s <- intent.steps :: s.body.CreateNote? && Marked(col, s.body.marker, n)
  }

  /** Both collections show the operation the same notes and the same files. */
  ghost predicate SameAffected(a: Collection, b: Collection, intent: Intent) {
    && (forall n :: Concerned(a, intent, n) <==> Concerned(b, intent, n))
    && (forall n :: Concerned(a, intent, n) && Concerned(b, intent, n) ==> Observe(a, n) == Observe(b, n))
    && forall s <- intent.steps | s.body.StoreMedia? ::
         && (s.body.filename in a.media <==> s.body.filename in b.media)
         && (if s.body.filename in a.media && s.body.filename in b.media
             then a.media[s.body.filename] == b.media[s.body.filename] else true)
  }

  lemma AffectedNotes(col: Collection, intent: Intent)
    ensures var notes := AffectedState(col, intent).notes;
            && (forall n :: Concerned(col, intent, n) ==> Observe(col, n) in notes)
            && (forall note <- notes :: Concerned(col, intent, note.id) && note == Observe(col, note.id))
  {
    forall n | Concerned(col, intent, n) ensures n in AffectedIds(col, intent) {
      if intent.pre.observed.None? {
        var s :| s in intent.steps && s.body.CreateNote? && Marked(col, s.body.marker, n);
        assert n in Tagged(col, s.body.marker);
      }
    }
  }

  lemma AffectedMedia(col: Collection, intent: Intent)
    ensures var media := AffectedState(col, intent).media;
            && (forall m <- media :: exists s <- intent.steps :: s.body.StoreMedia? && s.body.filename == m)
            && (forall m <- media :: m in col.media && media[m] == col.media[m])
            && (forall s <- intent.steps | s.body.StoreMedia? ::
                  s.body.filename in media <==> s.body.filename in col.media)
  {}

  lemma EqualIsSame(a: Collection, b: Collection, intent: Intent)
    requires AffectedState(a, intent) == AffectedState(b, intent)
    ensures SameAffected(a, b, intent)
  {
    AffectedNotes(a, intent);
    AffectedNotes(b, intent);
    AffectedMedia(a, intent);
    AffectedMedia(b, intent);
    hide AffectedState, AffectedIds;
    var notes := AffectedState(a, intent).notes;
    forall n ensures Concerned(a, intent, n) <==> Concerned(b, intent, n)
      ensures Concerned(a, intent, n) ==> Observable(b, n) && Observe(a, n) == Observe(b, n)
    {
      if Concerned(a, intent, n) { assert Observe(a, n) in notes && Observe(a, n).id == n; }
      if Concerned(b, intent, n) { assert Observe(b, n) in notes && Observe(b, n).id == n; }
    }
  }

  lemma SameIsEqual(a: Collection, b: Collection, intent: Intent)
    requires SameAffected(a, b, intent)
    ensures AffectedState(a, intent) == AffectedState(b, intent)
  {
    AffectedNotes(a, intent);
    AffectedNotes(b, intent);
    AffectedMedia(a, intent);
    AffectedMedia(b, intent);
    hide AffectedState, AffectedIds;
    var x, y := AffectedState(a, intent), AffectedState(b, intent);
    assert x.notes == y.notes;
    assert x.media.Keys == y.media.Keys;
    assert x.media == y.media;
  }

  /** The state a decision names is the same exactly when the notes and the files it is about are. */
  lemma AffectedExactly(a: Collection, b: Collection, intent: Intent)
    ensures AffectedState(a, intent) == AffectedState(b, intent) <==> SameAffected(a, b, intent)
  {
    if AffectedState(a, intent) == AffectedState(b, intent) { EqualIsSame(a, b, intent); }
    if SameAffected(a, b, intent) { SameIsEqual(a, b, intent); }
  }

  predicate MayContinue(op: Operation, session: Session, col: Collection, apply: bool, rebind: Option<Rebind>) {
    && session.lineage == op.intent.lineage
    && (session.epoch == op.epoch
        || (apply && rebind == Some(Rebind(session.epoch, AffectedState(col, op.intent)))))
  }

  /** No session the operation may continue in: another collection, or another epoch without a decision that
      names it and the affected state of right now. */
  predicate Unbound(op: Operation, c: Companion, apply: bool, rebind: Option<Rebind>) {
    c.session.Some? ==> !MayContinue(op, c.session.value, c.col, apply, rebind)
  }

  /** The recorded decision to continue in a new session. */
  method RecordRebind(p: Client, o: Id, epoch: Uuid) returns (ok: bool)
    requires p.Valid() && o in p.ops
    modifies p`ops, p`script
    ensures p.Valid() && p.ops == if ok then old(p.ops)[o := old(p.ops)[o].(epoch := epoch)] else old(p.ops)
    ensures OwnIds(p.ops) == OwnIds(old(p.ops))
    ensures old(p.script) == [] ==> ok && p.script == []
  {
    hide SystemOk, OpOk, Inv;
    ok := p.script == [] || p.script[0].fate == Fine;
    if p.script != [] { p.script := p.script[1..]; }
    if ok {
      EpochIsFree(p.companion, p.net, p.past, p.ops, o, epoch);
      SystemWrites(p.companion, p.net, p.past, p.ops, o, p.ops[o].(epoch := epoch));
      p.ops := p.ops[o := p.ops[o].(epoch := epoch)];
    }
  }

  lemma EpochIsFree(c: Companion, net: set<Request>, past: set<Collection>, ops: Operations, o: Id, epoch: Uuid)
    requires SystemOk(c, net, past, ops) && o in ops
    ensures OpOk(c.ledger, net, past, ops[o].(epoch := epoch))
  {
    hide Inv, StepOk, Bound, JournalOk;
    assert OpOk(c.ledger, net, past, ops[o]);
  }

  /** The other operations stay, and this one keeps its intent. */
  ghost predicate Touches(a: Operations, b: Operations, o: Id) {
    o in a && b.Keys == a.Keys && (forall p <- a :: p != o ==> b[p] == a[p]) && b[o].intent == a[o].intent
    && (a[o].journal.Some? <==> b[o].journal.Some?)
  }

  /** An interrupted journal on track, perhaps with a lost request, and nobody at work in the open session
      `epoch`. */
  ghost predicate Awaits(p: Client, o: Id, epoch: Uuid, n: nat)
    reads p
  {
    && o in p.ops && p.ops[o].journal.Some? && p.script == [] && Resting(p.companion, p.ops[o].intent, epoch)
    && n <= |p.ops[o].intent.steps| == |p.ops[o].journal.value.steps| && PlannedMain(p.ops[o].intent)
    && Paused(p.companion.ledger, p.ops[o].intent, p.ops[o].journal.value, n)
    && OnTrack(p.companion.col, p.ops[o].intent, n)
  }

  /** Work an undisturbed recovery finds, in a session the operation is bound to or explicitly rebound to. */
  ghost predicate Recovers(p: Client, o: Id, rebind: Option<Rebind>, n: nat)
    reads p
  {
    && p.companion.session.Some? && Awaits(p, o, p.companion.session.value.epoch, n)
    && MayContinue(p.ops[o], p.companion.session.value, p.companion.col, true, rebind)
  }

  /** What is committed even without `apply`: an interrupted journal with every step verified, in its own
      session, over a collection that shows the expected state. */
  ghost predicate CommitsUnasked(op: Operation, c: Companion) {
    && op.journal.Some? && !J.Terminal(op.journal.value.state) && J.AllVerified(op.journal.value.steps)
    && EndsWell(c, op.intent, op.epoch)
  }

  /** What is put up for review even without `apply`: the same, over a collection that shows another state,
      unless the journal waits for a review already. */
  ghost predicate ReviewsUnasked(op: Operation, c: Companion) {
    && op.journal.Some? && !J.Terminal(op.journal.value.state) && J.AllVerified(op.journal.value.steps)
    && EndsApart(c, op.intent, op.epoch) && !op.journal.value.state.NeedsRecovery?
  }

  predicate Done(ops: Operations, o: Id) {
    o in ops && ops[o].journal.Some? && ops[o].journal.value.state.Committed?
  }

  /** Resolve one operation.  In every world the invariant holds afterwards.  Nothing is sent without `apply`,
      and the journal changes without it only when every step was already verified; an undisturbed call without
      it commits exactly what is already verified and still shows, and puts up for review exactly what no longer does.
      In an undisturbed world, an operation on track ends committed, with exactly the effects it lacked. */
  method ReconcileOperation(p: Client, o: Id, apply: bool, rebind: Option<Rebind>, ghost n: nat) returns (flow: Flow)
    requires p.Valid() && o in p.ops
    modifies p
    ensures p.Valid() && Touches(old(p.ops), p.ops, o) && OwnIds(p.ops) == OwnIds(old(p.ops))
    ensures !apply ==> p.net == old(p.net)
    ensures !apply && p.ops != old(p.ops)
            ==> old(p.ops)[o].journal.Some? && J.AllVerified(JournalOf(old(p.ops), o).steps)
    ensures !apply && old(p.script) == [] ==>
              (Done(p.ops, o) <==> Done(old(p.ops), o) || CommitsUnasked(old(p.ops)[o], old(p.companion)))
    ensures !apply && old(p.script) == [] ==>
              (p.ops != old(p.ops) <==> CommitsUnasked(old(p.ops)[o], old(p.companion))
                                        || ReviewsUnasked(old(p.ops)[o], old(p.companion)))
    ensures !apply && old(p.script) == [] && ReviewsUnasked(old(p.ops)[o], old(p.companion)) ==>
              p.ops[o].journal.Some? && JournalOf(p.ops, o).state.NeedsRecovery?
    ensures old(p.script) == [] && Unbound(old(p.ops)[o], old(p.companion), apply, rebind) ==>
              p.ops == old(p.ops) && p.net == old(p.net) && p.companion == old(p.companion)
    ensures Dormant(old(p.ops)[o]) ==> Dormant(p.ops[o])
    ensures old(p.ops)[o].journal.Some? && J.Terminal(JournalOf(old(p.ops), o).state) ==> p.ops == old(p.ops)
    ensures apply && old(Recovers(p, o, rebind, n)) ==>
              var intent := old(p.ops)[o].intent;
              && flow.Goes? && p.ops[o].journal.Some? && JournalOf(p.ops, o).state.Committed?
              && Executed(old(p.companion), p.companion, intent, n, |intent.steps| - n)
              && p.script == [] && Resting(p.companion, intent, old(p.companion).session.value.epoch)
              && CurrentOwner(p.companion.ledger).None?
  {
    hide SystemOk, OpOk, Inv, Calm, Executed, OnTrack, Onward, AffectedState, Interrupted, Unreached, Inert, EndsWell,
         EndsApart, J.AllVerified, Resting;
    if p.ops[o].journal.None? { return Dies; }
    if J.Terminal(JournalOf(p.ops, o).state) {
      TerminalIsNotInterrupted(p.companion.ledger, p.ops[o].intent, JournalOf(p.ops, o), n);
      return Stops;
    }
    ghost var first, smooth := p.companion, apply && Recovers(p, o, rebind, n);
    if EndsWell(first, p.ops[o].intent, p.ops[o].epoch) || EndsApart(first, p.ops[o].intent, p.ops[o].epoch) {
      EndingIsBound(p.ops[o], first, rebind);
    }
    if smooth { RestingIsIdle(first, p.ops[o].intent); }
    var bound := Bind(p, o, apply, rebind);
    if !bound.Got? { return Dies; }
    flow := Continue(p, o, bound.value, apply, n);
  }

  /** The decision for an operation whose session is over, taken on what the collection showed then, and the
      reconcile under it.  When a note or a file the operation is about differs by now, nothing happens at all;
      otherwise an operation on track is carried to its end in the new session. */
  method ReconcileDecided(p: Client, o: Id, decided: Collection, ghost n: nat) returns (flow: Flow)
    requires p.Valid() && o in p.ops && p.script == [] && p.companion.session.Some?
    requires p.companion.session.value.lineage == p.ops[o].intent.lineage
             && p.companion.session.value.epoch != p.ops[o].epoch
    modifies p
    ensures p.Valid() && Touches(old(p.ops), p.ops, o)
    ensures !SameAffected(decided, old(p.companion).col, old(p.ops)[o].intent) ==>
              p.ops == old(p.ops) && p.net == old(p.net) && p.companion == old(p.companion)
    ensures SameAffected(decided, old(p.companion).col, old(p.ops)[o].intent)
            && old(Awaits(p, o, p.companion.session.value.epoch, n)) ==>
              var intent := old(p.ops)[o].intent;
              && Done(p.ops, o) && Executed(old(p.companion), p.companion, intent, n, |intent.steps| - n)
  {
    hide SystemOk, OpOk, Inv, Executed, AffectedState, SameAffected, CommitsUnasked, ReviewsUnasked, Dormant, Awaits;
    var epoch := p.companion.session.value.epoch;
    AffectedExactly(decided, p.companion.col, p.ops[o].intent);
    flow := ReconcileOperation(p, o, true, Some(Rebind(epoch, AffectedState(decided, p.ops[o].intent))), n);
  }

  /** Resolve one operation in the session it may continue in. */
  method Continue(p: Client, o: Id, epoch: Uuid, apply: bool, ghost n: nat) returns (flow: Flow)
    requires p.Valid() && o in p.ops && p.ops[o].journal.Some? && !J.Terminal(JournalOf(p.ops, o).state)
    modifies p
    ensures p.Valid() && Touches(old(p.ops), p.ops, o) && OwnIds(p.ops) == OwnIds(old(p.ops))
    ensures !apply ==> p.net == old(p.net)
    ensures !apply && p.ops != old(p.ops) ==> J.AllVerified(JournalOf(old(p.ops), o).steps)
    ensures !apply && old(p.script) == [] ==>
              Unasked(old(p.ops), p.ops, o, old(p.companion), epoch)
    ensures Dormant(old(p.ops)[o]) ==> Dormant(p.ops[o])
    ensures apply && old(Awaits(p, o, epoch, n)) ==>
              var intent := old(p.ops)[o].intent;
              && flow.Goes? && Done(p.ops, o) && p.script == [] && Resting(p.companion, intent, epoch)
              && CurrentOwner(p.companion.ledger).None?
              && Executed(old(p.companion), p.companion, intent, n, |intent.steps| - n)
  {
    hide SystemOk, OpOk, Inv, JournalOk, Calm, Executed, OnTrack, Onward, Paused, Resting, Unasked, Dormant,
         WellPlanned;
    OpIs(p.companion, p.net, p.past, p.ops, o);
    var intent := p.ops[o].intent;
    ghost var first, smooth := p.companion, apply && Awaits(p, o, epoch, n);
    var owner := Owned(0, 0);
    if apply {
      var begun := p.Begin(intent, epoch);
      if !begun.Got? { return Dies; }
      owner := begun.value;
    }
    if smooth { SamePaused(first.ledger, p.companion.ledger, intent, JournalOf(p.ops, o), n); }
    assert smooth ==> Recoverable(p, o, epoch, owner, n);
    ghost var calm := p.companion;
    flow := Proceed(p, o, epoch, owner, apply, n);
    if smooth { SameLog(first, calm, p.companion, p.companion, intent, n, |intent.steps| - n); }
  }

  /** Without `apply`: committed or put up for review exactly when every step was verified already. */
  ghost predicate Unasked(a: Operations, b: Operations, o: Id, c: Companion, epoch: Uuid)
    requires o in a && a[o].journal.Some? && o in b && b[o].journal.Some?
  {
    var verified := J.AllVerified(JournalOf(a, o).steps);
    var well, apart := verified && EndsWell(c, a[o].intent, epoch), verified && EndsApart(c, a[o].intent, epoch);
    && (Done(b, o) <==> well)
    && (apart ==> JournalOf(b, o).state.NeedsRecovery?)
    && (b != a <==> well || (apart && !JournalOf(a, o).state.NeedsRecovery?))
  }

  /** Every step, then the commit, then the owner's release. */
  method Proceed(p: Client, o: Id, epoch: Uuid, owner: Owned, apply: bool, ghost n: nat) returns (flow: Flow)
    requires p.Valid() && o in p.ops && p.ops[o].journal.Some? && !J.Terminal(JournalOf(p.ops, o).state)
    requires |p.ops[o].intent.steps| == |JournalOf(p.ops, o).steps|
    modifies p
    ensures p.Valid() && Touches(old(p.ops), p.ops, o) && OwnIds(p.ops) == OwnIds(old(p.ops))
    ensures !apply ==> p.net == old(p.net)
    ensures !apply && p.ops != old(p.ops) ==> J.AllVerified(JournalOf(old(p.ops), o).steps)
    ensures !apply && old(p.script) == [] ==>
              Unasked(old(p.ops), p.ops, o, old(p.companion), epoch)
    ensures Dormant(old(p.ops)[o]) ==> Dormant(p.ops[o])
    ensures apply && old(Recoverable(p, o, epoch, owner, n)) && PlannedMain(old(p.ops)[o].intent) ==>
              var intent := old(p.ops)[o].intent;
              && flow.Goes? && Done(p.ops, o) && p.script == [] && Resting(p.companion, intent, epoch)
              && CurrentOwner(p.companion.ledger).None?
              && Executed(old(p.companion), p.companion, intent, n, |intent.steps| - n)
  {
    hide SystemOk, OpOk, Inv, JournalOk, Calm, Executed, OnTrack, Onward, Paused, Inert, EndsWell, EndsApart,
         J.AllVerified, Resting, Unmoved, WellPlanned;
    var intent := p.ops[o].intent;
    ghost var calm, smooth := p.companion, apply && Recoverable(p, o, epoch, owner, n) && PlannedMain(intent);
    if EndsWell(calm, intent, epoch) || EndsApart(calm, intent, epoch) { EndingHasSteps(calm, intent, epoch); }
    flow := ReconcileSteps(p, o, epoch, owner, apply, true, n);
    ghost var done := p.companion;
    if flow.Goes? {
      if smooth { CalmFinal(p.companion, intent, epoch, owner); }
      OpIs(p.companion, p.net, p.past, p.ops, o);
      InertIsNotDone(JournalOf(p.ops, o));
      flow := Commit(p, o, epoch);
      if !flow.Goes? { return; }
    }
    CalmIsOwned(done, intent, epoch, owner);
    if apply && flow != Dies { p.End(owner); }
    if smooth {
      SameLog(calm, calm, done, p.companion, intent, n, |intent.steps| - n);
      CalmRests(done, p.companion, intent, epoch, owner);
    }
  }

  /** The last step creates or updates the note. */
  predicate PlannedMain(intent: Intent) {
    intent.steps != []
    && var last := intent.steps[|intent.steps| - 1].body; last.CreateNote? || last.UpdateNote?
  }

  lemma SamePaused(a: Ledger, b: Ledger, intent: Intent, j: J.Journal, n: nat)
    requires b.rows.Keys == a.rows.Keys
    ensures Paused(a, intent, j, n) <==> Paused(b, intent, j, n)
  {}

  lemma EndingHasSteps(c: Companion, intent: Intent, epoch: Uuid)
    requires EndsWell(c, intent, epoch) || EndsApart(c, intent, epoch)
    ensures intent.steps != []
  {}

  lemma RestingIsIdle(c: Companion, intent: Intent)
    requires c.session.Some? && Resting(c, intent, c.session.value.epoch)
    ensures c.exec.Idle?
  {}

  /** The session to continue in: the bound one, or a new one under an explicit decision that names the state
      observed right now. */
  method Bind(p: Client, o: Id, apply: bool, rebind: Option<Rebind>) returns (r: Answer<Uuid>)
    requires p.Valid() && o in p.ops
    modifies p`companion, p`script, p`ops, p`past
    ensures p.Valid() && OwnIds(p.ops) == OwnIds(old(p.ops)) && old(p.past) <= p.past
    ensures o in p.ops && p.ops == old(p.ops)[o := old(p.ops)[o].(epoch := p.ops[o].epoch)]
    ensures !apply ==> p.ops == old(p.ops) && (r.Got? ==> r.value == p.ops[o].epoch)
    ensures old(p.script) == [] ==> p.script == [] && p.companion == old(p.companion)
    ensures old(p.script) == [] && Unbound(old(p.ops)[o], p.companion, apply, rebind) ==>
              !r.Got? && p.ops == old(p.ops)
    ensures (old(p.script) == [] && p.companion.exec.Idle? && p.companion.session.Some?
             && MayContinue(old(p.ops)[o], p.companion.session.value, p.companion.col, apply, rebind)) ==>
              r == Got(p.companion.session.value.epoch)
  {
    hide SystemOk, OpOk, Inv, Onward, AffectedState;
    var intent := p.ops[o].intent;
    var session := CurrentSession(p);
    if !session.Got? || session.value.lineage != intent.lineage { return Dead; }
    var epoch := session.value.epoch;
    if epoch != p.ops[o].epoch {
      if !apply || rebind.None? || rebind.value.epoch != epoch { return Dead; }
      var seen := p.Look(intent.lineage, epoch);
      if !seen.Got? || AffectedState(seen.value, intent) != rebind.value.observed { return Dead; }
      var ok := RecordRebind(p, o, epoch);
      if !ok { return Dead; }
    }
    return Got(epoch);
  }

  lemma EndingIsBound(op: Operation, c: Companion, rebind: Option<Rebind>)
    requires EndsWell(c, op.intent, op.epoch) || EndsApart(c, op.intent, op.epoch)
    ensures c.exec.Idle? && c.session.Some? && MayContinue(op, c.session.value, c.col, false, rebind)
  {}

  method CurrentSession(p: Client) returns (r: Answer<Session>)
    requires p.Valid()
    modifies p`companion, p`script
    ensures p.Valid() && Onward(old(p.companion), p.companion, p.net, OwnIds(p.ops))
    ensures r.Got? ==> p.companion.session == Some(r.value)
    ensures old(p.script) == []
            ==> p.script == [] && p.companion == old(p.companion) && (p.companion.session.Some? ==> r.Got?)
    ensures p.cutsOnly ==> p.companion == old(p.companion)
  {
    hide SystemOk, Onward;
    var turn := p.Pause();
    if turn.fate == Killed || turn.fate == Late { return Dead; }
    if turn.fate != Fine || p.companion.session.None? { return Answer.Failed; }
    return Got(p.companion.session.value);
  }

  lemma TerminalIsNotInterrupted(l: Ledger, intent: Intent, j: J.Journal, n: nat)
    requires J.Terminal(j.state)
    ensures !Interrupted(j, n) && !Unreached(l, intent, j, n)
  {}

  lemma CalmFinal(c: Companion, intent: Intent, epoch: Uuid, owner: Owned)
    requires Calm(c, intent, epoch, owner) && OnTrack(c.col, intent, |intent.steps|) && intent.steps != []
    requires var last := intent.steps[|intent.steps| - 1].body; last.CreateNote? || last.UpdateNote?
    ensures EndsWell(c, intent, epoch)
  {
    ExpectedIsFinal(c.col, intent);
  }

  lemma CalmRests(c: Companion, d: Companion, intent: Intent, epoch: Uuid, owner: Owned)
    requires Calm(c, intent, epoch, owner) && d == c.(ledger := d.ledger)
    ensures Resting(d, intent, epoch)
  {}

}
