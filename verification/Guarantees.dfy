/** The client's end-to-end results: a crash loses no effect, and where the test for earlier attempts lets
    an item be applied twice. */
module Guarantees {
  import opened Wrappers
  import opened Anki
  import opened Effects
  import opened EffectLaws
  import opened Prediction
  import opened Readback
  import opened Ledger
  import opened LedgerLaws
  import opened Companion
  import opened CompanionLaws
  import opened System
  import opened Moves
  import opened Serving
  import opened Client
  import opened Driver
  import opened Planning
  import opened Reconcile
  import opened Recovery
  import opened Attempts
  import opened Outlook
  import J = Journal

  // ---------------------------------------------------------------- no lost effect

  /** A crash at any point of an apply, seen from the next reconcile: the intent was frozen on `col`, the
      first `n` effects were made, the next request was never sent or got lost, the collection is untouched
      since, and the companion rests in a session the operation is bound or rebound to. */
  ghost predicate CrashedAfter(p: Client, o: Id, plan: Plan, base: Id, col: Collection, rebind: Option<Rebind>, n: nat)
    reads p
  {
    && o in p.ops && p.ops[o].journal.Some? && p.script == [] && p.companion.session.Some?
    && MakeIntent(plan, col, base) == Some(p.ops[o].intent) && |p.ops[o].journal.value.steps| == |p.ops[o].intent.steps|
    && GoodItem(col, plan, p.ops[o].intent.pre, MarkerOf(base))
    && (forall i, j | 0 <= i < j < |plan.media| :: plan.media[i].filename != plan.media[j].filename)
    && n <= |p.ops[o].intent.steps| && p.companion.col == After(col, p.ops[o].intent, 0, n)
    && Paused(p.companion.ledger, p.ops[o].intent, p.ops[o].journal.value, n)
    && Resting(p.companion, p.ops[o].intent, p.companion.session.value.epoch)
    && MayContinue(p.ops[o], p.companion.session.value, p.companion.col, true, rebind)
  }

  /** An undisturbed `reconcile --apply` after such a crash adopts what took effect, sends again what
      got lost, sends the rest, ends committed, and executes exactly the missing steps, each once. */
  method NoLostEffect(p: Client, o: Id, ghost plan: Plan, ghost base: Id, ghost col: Collection, rebind: Option<Rebind>,
                      ghost n: nat)
    requires p.Valid() && CrashedAfter(p, o, plan, base, col, rebind, n)
    modifies p
    ensures p.Valid() && o in p.ops && p.ops[o].journal.Some? && JournalOf(p.ops, o).state.Committed?
    ensures var intent := old(p.ops)[o].intent;
            && Executed(old(p.companion), p.companion, intent, n, |intent.steps| - n)
            && AtMostOnce(p.companion.log)
  {
    hide Inv, OpOk, SystemOk, Executed, OnTrack, GoodItem, MakeIntent, Resting, MayContinue, Interrupted, Unreached,
         WellPlanned;
    MadeIntentPlanned(plan, col, base);
    PlannedLast(p.ops[o].intent);
    MadeIsResolved(plan, col, base);
    IntentOnTrack(plan, col, base);
    TrackedAfter(col, p.ops[o].intent, n);
    assert Recovers(p, o, rebind, n);
    var flow := ReconcileOperation(p, o, true, rebind, n);
    SystemInv(p.companion, p.net, p.past, p.ops);
    InvOnce(p.companion);
  }

  /** A resting companion, earlier attempts that admit another, and a rightly predicted intent. */
  ghost predicate Appliable(p: Client, plan: Plan)
    reads p
  {
    && p.companion.session.Some? && PriorAdmits(p.ops, plan.item)
    && (forall i, j | 0 <= i < j < |plan.media| :: plan.media[i].filename != plan.media[j].filename)
    && var intent := IntentNow(plan, p.companion, p.net, p.ops);
       && intent.Some? && Resting(p.companion, intent.value, p.companion.session.value.epoch)
       && GoodItem(p.companion.col, plan, intent.value.pre, MarkerOf(FreshBase(p.companion, p.net, p.ops)))
  }

  /** An apply whose calls, replies and process are lost at any points, then an undisturbed `reconcile --apply`
      of the operation if its journal got past the preflight: the operation ends committed with every effect of its
      intent made exactly once, or it never began and nothing was made.  Without a loss it ends committed. */
  method ExactlyOnceOrNever(p: Client, plan: Plan) returns (o: Id)
    requires p.Valid() && p.cutsOnly && Appliable(p, plan)
    modifies p
    ensures p.Valid() && (p.ops == old(p.ops) || (o !in old(p.ops) && o in p.ops))
    ensures var intent := IntentNow(plan, old(p.companion), old(p.net), old(p.ops)).value;
            if o !in old(p.ops) && Done(p.ops, o)
            then p.ops[o].intent == intent && Executed(old(p.companion), p.companion, intent, 0, |intent.steps|)
            else Unmoved(old(p.companion), p.companion) && (p.ops == old(p.ops) || NeverBegun(p.ops[o]))
    ensures old(p.script) == [] ==> o !in old(p.ops) && Done(p.ops, o)
    ensures AtMostOnce(p.companion.log)
  {
    hide Inv, OpOk, SystemOk, Executed, OnTrack, GoodItem, MakeIntent, Resting, WellPlanned, JournalOk, PriorAdmits,
         Paused;
    ghost var start, base := p.companion, FreshBase(p.companion, p.net, p.ops);
    MadeIntentPlanned(plan, start.col, base);
    PlannedLast(IntentNow(plan, start, p.net, p.ops).value);
    MadeIsResolved(plan, start.col, base);
    IntentOnTrack(plan, start.col, base);
    var before := p.ops;
    var flow;
    flow, o := ApplyItem(p, plan);
    p.script := [];
    ghost var mid := p.companion;
    if o !in before && o in p.ops {
      OpIs(mid, p.net, p.past, p.ops, o);
      CutOffIsBegun(p.ops[o], start, mid, p.ops[o].epoch);
      if !NeverBegun(p.ops[o]) && !Done(p.ops, o) { Resume(p, o, start); }
    }
    SystemInv(p.companion, p.net, p.past, p.ops);
    InvOnce(p.companion);
  }

  /** An undisturbed `reconcile --apply` carries a run that was cut off to its end. */
  method Resume(p: Client, o: Id, ghost start: Companion)
    requires p.Valid() && p.script == [] && o in p.ops && CutOff(p.ops[o], start, p.companion, p.ops[o].epoch)
    modifies p
    ensures p.Valid() && Touches(old(p.ops), p.ops, o) && Done(p.ops, o)
    ensures var intent := old(p.ops)[o].intent; Executed(start, p.companion, intent, 0, |intent.steps|)
  {
    hide Inv, OpOk, SystemOk, Executed, OnTrack, Resting, WellPlanned, JournalOk, Paused;
    ghost var mid, intent := p.companion, p.ops[o].intent;
    ghost var n := |mid.log| - |start.log|;
    OpIs(mid, p.net, p.past, p.ops, o);
    CutOffIsBegun(p.ops[o], start, mid, p.ops[o].epoch);
    RestingLineage(mid, intent, p.ops[o].epoch);
    BoundMayContinue(p.ops[o], mid);
    PlannedLast(intent);
    assert Recovers(p, o, None, n);
    var flow := ReconcileOperation(p, o, true, None, n);
    ExecutedInTwo(start, mid, p.companion, intent, n);
  }

  /** A journal with work to recover is one that began and is not closed. */
  lemma CutOffIsBegun(op: Operation, start: Companion, c: Companion, epoch: Uuid)
    requires op.journal.Some? ==> JournalOk(op.journal.value)
    ensures CutOff(op, start, c, epoch) ==>
              !NeverBegun(op) && !op.journal.value.state.Committed? && |c.log| <= |start.log| + |op.intent.steps|
  {
    hide OnTrack, Resting, J.Validated, J.Shaped;
    if CutOff(op, start, c, epoch) {
      var j, n := op.journal.value, |c.log| - |start.log|;
      if Interrupted(j, n) && n > 0 { assert j.steps[n - 1] in j.steps; }
      if Unreached(c.ledger, op.intent, j, n) { assert j.steps[n] in j.steps; }
    }
  }

  lemma {:induction false} AfterInTwo(col: Collection, intent: Intent, n: nat, k: nat)
    requires n + k <= |intent.steps|
    ensures After(col, intent, 0, n + k) == After(After(col, intent, 0, n), intent, n, k)
  {
    hide Accepts, Perform;
    if k > 0 { AfterInTwo(col, intent, n, k - 1); }
  }

  /** The effects of two runs, one after the other. */
  lemma ExecutedInTwo(a: Companion, b: Companion, c: Companion, intent: Intent, n: nat)
    requires Executed(a, b, intent, 0, n) && n <= |intent.steps| && Executed(b, c, intent, n, |intent.steps| - n)
    ensures Executed(a, c, intent, 0, |intent.steps|)
  {
    AfterInTwo(a.col, intent, n, |intent.steps| - n);
    forall m | 0 <= m < |intent.steps| ensures EntryFor(a, c, intent, 0, m) {
      if m < n {
        assert EntryFor(a, b, intent, 0, m) && c.log[|a.log| + m] == b.log[|a.log| + m];
      } else {
        assert EntryFor(b, c, intent, n, m - n);
      }
    }
  }

  lemma MadeIsResolved(plan: Plan, col: Collection, base: Id)
    ensures MakeIntent(plan, col, base).Some? ==>
              Resolve(plan, col).Some? && MakeIntent(plan, col, base).value.pre == Resolve(plan, col).value
  {}

  lemma InvOnce(c: Companion)
    requires Inv(c)
    ensures AtMostOnce(c.log)
  {}

  // ---------------------------------------------------------------- an attempt that stopped at its checkpoint

  /** A reviewed new note whose files are all there already. */
  predicate PlainCreate(plan: Plan, col: Collection) {
    plan.target.None? && NewMedia(col, plan.media) == Some([])
  }

  function PlainResolved(plan: Plan): Resolved {
    Resolved(None, plan.targetModel, plan.targetManifest, plan.deck, plan.migration, plan.inherit)
  }

  lemma PlainIntent(plan: Plan, col: Collection, base: Id)
    requires PlainCreate(plan, col)
    ensures MakeIntent(plan, col, base).Some?
    ensures var intent := MakeIntent(plan, col, base).value;
            && intent.pre == PlainResolved(plan) && |intent.steps| == 1 && intent.item == plan.item
            && intent.lineage == plan.lineage
            && MainIs(intent, plan, PlainResolved(plan), MarkerOf(base)) && MainStep(intent).id == base
            && Uploads(intent, 0, [])
  {}

  /** A create copies its schedules exactly when the templates render every task that is to inherit one. */
  lemma CreateCompletes(col: Collection, body: Body)
    requires WellFormed(col) && body.CreateNote? && PreflightCreate(col, body).None?
    ensures var model := col.models[ModelNamed(col, body.modelName)];
            PerformCreate(col, body).done <==> forall e <- body.inherit :: Shows(model, body.fields, e.ord)
  {
    hide WellFormed, Shows;
    var model, nid, added := col.models[ModelNamed(col, body.modelName)], col.nextId, AddNote(col, body);
    InheritSourcesExist(col, |model.templates|, body.inherit);
    InheritDone(added, nid, col.cards, body.inherit);
    forall e <- body.inherit ensures HasOrdinal(added, nid, e.ord) <==> Shows(model, body.fields, e.ord) {
      AddedCard(col, body, nid + 1 + e.ord);
      if Shows(model, body.fields, e.ord) {
        assert nid + 1 + e.ord in CardsOf(added, nid);
      } else if c :| c in added.cards && added.cards[c].nid == nid && added.cards[c].ord == e.ord {
        assert c in CardsOf(added, nid);
        AddedCard(col, body, c);
      }
    }
  }

  /** Copying schedules leaves the cards of every other note alone. */
  lemma {:induction false} InheritLeavesOthers(col: Collection, nid: NoteId, sources: map<CardId, Card>,
                                               entries: seq<Inherit>)
    requires forall e <- entries :: e.source in sources
    ensures forall c <- col.cards | col.cards[c].nid != nid ::
              c in InheritAll(col, nid, sources, entries).col.cards
              && InheritAll(col, nid, sources, entries).col.cards[c] == col.cards[c]
    decreases |entries|
  {
    if entries != [] && HasOrdinal(col, nid, entries[0].ord) {
      var at := CardAt(col, nid, entries[0].ord);
      InheritLeavesOthers(col.(cards := col.cards[at := Copied(col.cards[at], sources[entries[0].source])]), nid,
                          sources, entries[1..]);
    }
  }

  lemma CreateLeavesOthers(col: Collection, body: Body)
    requires WellFormed(col) && body.CreateNote? && PreflightCreate(col, body).None?
    ensures forall c <- col.cards ::
            c in PerformCreate(col, body).col.cards && PerformCreate(col, body).col.cards[c] == col.cards[c]
  {
    InheritSourcesExist(col, |col.models[ModelNamed(col, body.modelName)].templates|, body.inherit);
    InheritLeavesOthers(AddNote(col, body), col.nextId, col.cards, body.inherit);
  }

  lemma {:induction false} StillInherits(col: Collection, after: Collection, templates: nat, entries: seq<Inherit>)
    requires InheritRefusal(col, templates, entries).None?
    requires forall c <- col.cards :: c in after.cards && after.cards[c] == col.cards[c]
    ensures InheritRefusal(after, templates, entries).None?
  {
    if entries != [] { StillInherits(col, after, templates, entries[1..]); }
  }

  /** A create leaves another create of the same item acceptable: the markers differ. */
  lemma CreateStillAccepted(col: Collection, a: Body, b: Body)
    requires Creates(col, a) && Creates(col, b) && a.marker !in b.tags && a == b.(tags := a.tags, marker := a.marker)
    ensures PreflightCreate(PerformCreate(col, b).col, a).None?
    ensures ModelsNamed(PerformCreate(col, b).col, a.modelName) == ModelsNamed(col, a.modelName)
    ensures PerformCreate(col, b).col.models == col.models
  {
    hide WellFormed, PerformCreate;
    var after := PerformCreate(col, b).col;
    CreatesGrants(col, b);
    CreatesGrants(col, a);
    CreatedNote(col, b);
    CreateLeavesOthers(col, b);
    assert ModelsNamed(after, a.modelName) == ModelsNamed(col, a.modelName);
    StillInherits(col, after, |col.models[ModelNamed(col, a.modelName)].templates|, a.inherit);
    assert Tagged(col, a.marker) == {};
    forall n <- after.notes ensures a.marker !in after.notes[n].tags {
      if n != col.nextId { assert n in col.notes && n !in Tagged(col, a.marker); }
    }
    assert Tagged(after, a.marker) == {};
  }

  /** A create leaves another good create of the same item good. */
  lemma CreateLeavesGood(col: Collection, plan: Plan, first: string, second: string)
    requires first != second && first !in plan.content.tags
    requires GoodCreate(col, plan, PlainResolved(plan), first) && GoodCreate(col, plan, PlainResolved(plan), second)
    ensures GoodCreate(PerformCreate(col, MainBody(plan, PlainResolved(plan), second)).col, plan, PlainResolved(plan),
                       first)
  {
    hide WellFormed, PerformCreate, PreflightCreate, Shows;
    var pre := PlainResolved(plan);
    var a, b := MainBody(plan, pre, first), MainBody(plan, pre, second);
    CreatesGrants(col, a);
    CreatesGrants(col, b);
    CreateWellFormed(col, b);
    CreateStillAccepted(col, a, b);
    CreateCompletes(col, a);
    CreateCompletes(PerformCreate(col, b).col, a);
  }

  /** The first attempt stopped at its checkpoint; nothing stands in the way of a second one. */
  ghost predicate StoppedAtCheckpoint(p: Client, first: Id, plan: Plan, base: Id)
    reads p
  {
    && first in p.ops && AtCheckpoint(p.ops[first]) && p.script == [] && PlainCreate(plan, p.companion.col)
    && p.ops[first].intent == MakeIntent(plan, p.companion.col, base).value && MarkerOf(base) !in plan.content.tags
    && p.companion.session == Some(Session(plan.lineage, p.ops[first].epoch))
    && Resting(p.companion, p.ops[first].intent, p.ops[first].epoch)
    && PriorAdmits(p.ops, plan.item)
    && GoodCreate(p.companion.col, plan, PlainResolved(plan), MarkerOf(base))
    && GoodCreate(p.companion.col, plan, PlainResolved(plan), MarkerOf(FreshBase(p.companion, p.net, p.ops)))
  }

  /** Then a second attempt commits, and reconciling the first commits too: the item's main effect is made
      twice, under two identifiers. */
  method AppliedTwice(p: Client, first: Id, plan: Plan, ghost base: Id) returns (second: Id)
    requires p.Valid() && StoppedAtCheckpoint(p, first, plan, base)
    modifies p
    ensures p.Valid() && first != second && first in p.ops && second in p.ops
    ensures p.ops[first].intent.item == p.ops[second].intent.item == plan.item
    ensures p.ops[first].intent.steps != [] && p.ops[second].intent.steps != []
    ensures var n := |old(p.companion).log|;
            && |p.companion.log| == n + 2
            && p.companion.log[n].key.id == MainStep(p.ops[second].intent).id
            && p.companion.log[n + 1].key.id == MainStep(p.ops[first].intent).id
  {
    hide Inv, OpOk, SystemOk, JournalOk, Executed, Recovers, CommitsUnasked, ReviewsUnasked, Dormant, Resting,
         StoppedAtCheckpoint;
    second := AppliedAgain(p, first, plan, base);
    ghost var between := p.companion;
    var flow := ReconcileOperation(p, first, true, None, 0);
    LastEntry(between, p.companion, p.ops[first].intent);
  }

  /** The second attempt, which leaves the first one to be recovered. */
  method AppliedAgain(p: Client, first: Id, plan: Plan, ghost base: Id) returns (second: Id)
    requires p.Valid() && StoppedAtCheckpoint(p, first, plan, base)
    modifies p
    ensures p.Valid() && first != second && first in p.ops && second in p.ops && Recovers(p, first, None, 0)
    ensures p.ops[first].intent.item == p.ops[second].intent.item == plan.item
    ensures |p.ops[first].intent.steps| == |p.ops[second].intent.steps| == 1
    ensures |p.companion.log| == |old(p.companion).log| + 1
            && p.companion.log[|old(p.companion).log|].key.id == MainStep(p.ops[second].intent).id
  {
    hide Inv, OpOk, SystemOk, GoodCreate, PriorAdmits, JournalOk, ReadStep, Accepts, Perform, ReadsBack, MakeIntent,
         Interrupted, Unreached, Accounted, WellFormed, WellPlanned, Resting, OnTrack, Executed;
    ghost var start, ops := p.companion, p.ops;
    ghost var fresh_ := FreshBase(p.companion, p.net, p.ops);
    FreshBaseIsFresh(p.companion, p.net, p.ops, fresh_);
    PlainIntent(plan, start.col, base);
    PlainIntent(plan, start.col, fresh_);
    ghost var a, b := MakeIntent(plan, start.col, base).value, MakeIntent(plan, start.col, fresh_).value;
    MainInUse(p.ops, first, base);
    GoodIsTrack(start.col, plan, fresh_);
    SameRest(start, a, b, p.ops[first].epoch);
    var flow;
    flow, second := ApplyItem(p, plan);
    ghost var between := p.companion;
    LastEntry(start, between, b);
    OneAfter(start.col, plan, fresh_);
    MarkersDiffer(base, fresh_);
    CreateLeavesGood(start.col, plan, MarkerOf(base), MarkerOf(fresh_));
    TrackAgain(between.col, plan, base, a);
    OpIs(p.companion, p.net, p.past, p.ops, first);
    AtCheckpointInterrupted(JournalOf(p.ops, first));
    PlannedLast(a);
    SameRest(between, b, a, p.ops[first].epoch);
    BoundMayContinue(p.ops[first], between);
  }

  /** The same for any item, new or existing, with or without uploads: its intent is on track both then and
      now, on the collection the first attempt was frozen on. */
  ghost predicate StoppedOnTrack(p: Client, first: Id, plan: Plan, base: Id)
    reads p
  {
    var made, again := MakeIntent(plan, p.companion.col, base),
                       MakeIntent(plan, p.companion.col, FreshBase(p.companion, p.net, p.ops));
    && first in p.ops && AtCheckpoint(p.ops[first]) && p.script == [] && WellFormed(p.companion.col)
    && made == Some(p.ops[first].intent) && OnTrack(p.companion.col, p.ops[first].intent, 0)
    && again.Some? && OnTrack(p.companion.col, again.value, 0)
    && p.companion.session == Some(Session(plan.lineage, p.ops[first].epoch))
    && Resting(p.companion, p.ops[first].intent, p.ops[first].epoch) && PriorAdmits(p.ops, plan.item)
  }

  /** A second attempt commits, the user puts the collection back as it was, and reconciling the first attempt
      commits too: an attempt started over one at its checkpoint can always end in a second main effect. */
  method AppliedTwiceAfterEdit(p: Client, first: Id, plan: Plan, ghost base: Id) returns (second: Id)
    requires p.Valid() && StoppedOnTrack(p, first, plan, base)
    modifies p
    ensures p.Valid() && first in p.ops && second in p.ops && first != second
    ensures p.ops[first].intent.item == p.ops[second].intent.item == plan.item
    ensures !AppliedOnce(p.companion.log, p.ops)
  {
    hide Inv, OpOk, SystemOk, JournalOk, Executed, Resting, AppliedOnce, IsMain, Accounted, Recovers, CommitsUnasked,
         ReviewsUnasked, Dormant, StoppedOnTrack;
    second := CommittedAndUndone(p, first, plan, base);
    ghost var between, a := p.companion, p.ops[first].intent;
    var flow := ReconcileOperation(p, first, true, None, 0);
    LastEntry(between, p.companion, a);
    TwoMains(p.companion.log, p.ops, second, first, |between.log| - 1, |p.companion.log| - 1);
  }

  /** The second attempt and the user's edit, which leave the first attempt to be recovered. */
  method CommittedAndUndone(p: Client, first: Id, plan: Plan, ghost base: Id) returns (second: Id)
    requires p.Valid() && StoppedOnTrack(p, first, plan, base)
    modifies p
    ensures p.Valid() && first in p.ops && second in p.ops && first != second && Recovers(p, first, None, 0)
    ensures p.ops[first].intent.item == p.ops[second].intent.item == plan.item
    ensures p.ops[first].intent.steps != [] && p.ops[second].intent.steps != [] && p.companion.log != []
    ensures p.companion.log[|p.companion.log| - 1].key.id == MainStep(p.ops[second].intent).id
  {
    hide Inv, OpOk, SystemOk, PriorAdmits, JournalOk, OnTrack, MakeIntent, WellFormed, Resting, Executed, Interrupted,
         Unreached, MayContinue, WellPlanned, Accounted;
    ghost var start, a, epoch := p.companion, p.ops[first].intent, p.ops[first].epoch;
    var was := p.companion.col;
    ghost var b := MakeIntent(plan, was, FreshBase(p.companion, p.net, p.ops)).value;
    MadeItems(plan, was, base);
    MadeItems(plan, was, FreshBase(p.companion, p.net, p.ops));
    SameRest(start, a, b, epoch);
    OpIs(p.companion, p.net, p.past, p.ops, first);
    AtCheckpointInterrupted(JournalOf(p.ops, first));
    var flow;
    flow, second := ApplyItem(p, plan);
    RestingIsIdle(p.companion, b);
    ghost var mid := p.companion;
    p.Edit(was);
    ghost var between := p.companion;
    RestAfterEdit(mid, between, b, epoch);
    SameRest(between, b, a, epoch);
    PlannedLast(a);
    PlannedLast(b);
    BoundMayContinue(p.ops[first], between);
    LastEntry(start, mid, b);
  }

  lemma MadeItems(plan: Plan, col: Collection, base: Id)
    requires MakeIntent(plan, col, base).Some?
    ensures var intent := MakeIntent(plan, col, base).value;
            intent.item == plan.item && intent.lineage == plan.lineage && WellPlanned(intent)
  {
    MadeIntentPlanned(plan, col, base);
  }

  lemma SameRest(c: Companion, a: Intent, b: Intent, epoch: Uuid)
    requires Resting(c, a, epoch) && a.lineage == b.lineage
    ensures Resting(c, b, epoch)
  {}

  lemma BoundMayContinue(op: Operation, c: Companion)
    requires c.session == Some(Session(op.intent.lineage, op.epoch))
    ensures MayContinue(op, c.session.value, c.col, true, None)
  {}

  lemma TwoMains(log: seq<Entry>, ops: Operations, a: Id, b: Id, i: nat, j: nat)
    requires a in ops && b in ops && a != b && i < |log| && j < |log| && ops[a].intent.item == ops[b].intent.item
    requires ops[a].intent.steps != [] && log[i].key.id == MainStep(ops[a].intent).id
    requires ops[b].intent.steps != [] && log[j].key.id == MainStep(ops[b].intent).id
    ensures !AppliedOnce(log, ops)
  {
    assert IsMain(ops[a], log[i]) && IsMain(ops[b], log[j]);
  }

  lemma RestAfterEdit(c: Companion, d: Companion, intent: Intent, epoch: Uuid)
    requires Resting(c, intent, epoch) && d == c.(col := d.col)
    ensures Resting(d, intent, epoch)
  {}

  /** The last entry of a whole execution is that of the main step. */
  lemma LastEntry(c: Companion, d: Companion, intent: Intent)
    requires intent.steps != [] && Executed(c, d, intent, 0, |intent.steps|)
    ensures c.log <= d.log && |d.log| == |c.log| + |intent.steps| && d.log[|d.log| - 1].key.id == MainStep(intent).id
    ensures d.col == After(c.col, intent, 0, |intent.steps|)
  {
    assert EntryFor(c, d, intent, 0, |intent.steps| - 1);
  }

  lemma MainInUse(ops: Operations, o: Id, base: Id)
    requires o in ops && ops[o].intent.steps != [] && MainStep(ops[o].intent).id == base
    ensures base in OwnIds(ops)
  {
    assert MainStep(ops[o].intent) in ops[o].intent.steps;
  }

  lemma GoodIsTrack(col: Collection, plan: Plan, base: Id)
    requires PlainCreate(plan, col) && GoodCreate(col, plan, PlainResolved(plan), MarkerOf(base))
    ensures MakeIntent(plan, col, base).Some? && OnTrack(col, MakeIntent(plan, col, base).value, 0)
  {
    hide GoodCreate, OnTrack;
    PlainIntent(plan, col, base);
    UploadsOnTrack(col, plan, PlainResolved(plan), MarkerOf(base), MakeIntent(plan, col, base).value, 0, []);
  }

  lemma OneAfter(col: Collection, plan: Plan, base: Id)
    requires PlainCreate(plan, col) && GoodCreate(col, plan, PlainResolved(plan), MarkerOf(base))
    ensures var intent, body := MakeIntent(plan, col, base).value, MainBody(plan, PlainResolved(plan), MarkerOf(base));
            PreflightCreate(col, body).None? && |intent.steps| == 1
                && After(col, intent, 0, 1) == PerformCreate(col, body).col
  {
    hide PerformCreate, PreflightCreate, WellFormed;
    PlainIntent(plan, col, base);
    var intent, body := MakeIntent(plan, col, base).value, MainBody(plan, PlainResolved(plan), MarkerOf(base));
    CreatesGrants(col, body);
    assert intent.steps[0].body == body;
    assert After(col, intent, 0, 0) == col;
  }

  lemma TrackAgain(col: Collection, plan: Plan, base: Id, intent: Intent)
    requires GoodCreate(col, plan, PlainResolved(plan), MarkerOf(base))
    requires MainIs(intent, plan, PlainResolved(plan), MarkerOf(base)) && |intent.steps| == 1 && Uploads(intent, 0, [])
    ensures OnTrack(col, intent, 0)
  {
    hide GoodCreate, OnTrack;
    UploadsOnTrack(col, plan, PlainResolved(plan), MarkerOf(base), intent, 0, []);
  }

  lemma AtCheckpointInterrupted(j: J.Journal)
    requires JournalOk(j) && j.state.Checkpointed?
    ensures Interrupted(j, 0)
  {
    assert forall k | 0 <= k < |j.steps| :: j.steps[k] in j.steps;
  }

  // ---------------------------------------------------------------- one such state

  const SAMPLE_MODEL := Model("Basic", "m", {"Front"}, [Template({{"Front"}})])
  const SAMPLE: Collection := Collection(map[], map[], map[7 := SAMPLE_MODEL], map[1 := Deck(false, 0)], map[], 1)
  const SAMPLE_PLAN: Plan :=
    Plan(5, Item("Basic", {0}, [], map["Front" := "word"]), None, 7, "m", 1, None, [], [], 1, 1)

  /** A companion with one open session and an empty ledger. */
  function Opened(col: Collection): Companion {
    Fresh(col).(session := Some(Session(1, 1)), epochs := {1})
  }

  function SampleCompanion(): Companion {
    Opened(SAMPLE)
  }

  /** One operation whose process died right after its journal reached the checkpointed state. */
  function SampleOperations(): Operations {
    var intent := MakeIntent(SAMPLE_PLAN, SAMPLE, 0).value;
    map[3 := Operation(intent, 1, Some(FirstJournal(3, intent).(state := J.Checkpointed)), None)]
  }

  lemma SampleIsGood(marker: string)
    ensures GoodCreate(SAMPLE, SAMPLE_PLAN, PlainResolved(SAMPLE_PLAN), marker)
  {
    var fields := SAMPLE_PLAN.content.fields;
    var body := MainBody(SAMPLE_PLAN, PlainResolved(SAMPLE_PLAN), marker);
    assert ModelsNamed(SAMPLE, "Basic") == {7};
    assert Tagged(SAMPLE, marker) == {};
    assert Filled(fields) == {"Front"};
    forall o: Ordinal ensures RenderedBy(SAMPLE_MODEL, fields)(o) <==> o in {0} {}
    assert PreflightCreate(SAMPLE, body).None?;
    CreateCompletes(SAMPLE, body);
  }

  lemma OpenedInv(col: Collection)
    ensures Inv(Opened(col))
  {
    FreshInv(col);
    SessionKeeps(Fresh(col), Open(1, 1));
    assert Opened(col) == Next(Fresh(col), Open(1, 1));
  }

  /** An operation nothing was sent for, with a journal that stopped at its checkpoint. */
  lemma StoppedOpOk(l: Ledger, op: Operation, o: Id)
    requires WellPlanned(op.intent) && l.rows == map[] && op.receipt.None?
    requires op.journal == Some(FirstJournal(o, op.intent).(state := J.Checkpointed))
    ensures OpOk(l, {}, {}, op) && AtCheckpoint(op) && Admitted(op)
  {
    assert J.ShapedAt(op.journal.value.steps, 0);
  }

  lemma SampleSystemOk()
    ensures SystemOk(SampleCompanion(), {}, {}, SampleOperations())
    ensures StoppedOperation(SampleOperations()[3])
  {
    hide Inv, OpOk, MakeIntent, WellPlanned, FirstJournal, MainIs, Uploads;
    assert NewMedia(SAMPLE, SAMPLE_PLAN.media) == Some([]);
    PlainIntent(SAMPLE_PLAN, SAMPLE, 0);
    MadeIntentPlanned(SAMPLE_PLAN, SAMPLE, 0);
    OpenedInv(SAMPLE);
    StoppedOpOk(SampleCompanion().ledger, SampleOperations()[3], 3);
  }

  predicate StoppedOperation(op: Operation) {
    AtCheckpoint(op) && Admitted(op) && op.epoch == 1 && op.intent == MakeIntent(SAMPLE_PLAN, SAMPLE, 0).value
  }

  /** A note type with one field and one template, an empty collection, and one attempt that stopped at its
      checkpoint: the item's note is created twice. */
  method CheckpointGap() returns (p: Client, first: Id, second: Id)
    ensures p.Valid() && first in p.ops && second in p.ops && first != second
    ensures p.ops[first].intent.item == p.ops[second].intent.item
    ensures p.ops[first].intent.steps != [] && p.ops[second].intent.steps != []
    ensures |p.companion.log| == 2 && p.companion.log[0].key != p.companion.log[1].key
    ensures p.companion.log[0].key.id == MainStep(p.ops[second].intent).id
            && p.companion.log[1].key.id == MainStep(p.ops[first].intent).id
  {
    hide Inv, SystemOk, GoodCreate, MakeIntent, OpOk;
    SampleSystemOk();
    p := new Client(SampleCompanion(), {}, SampleOperations(), []);
    first := 3;
    SampleIsGood(MarkerOf(0));
    SampleIsGood(MarkerOf(FreshBase(p.companion, p.net, p.ops)));
    PlainIntent(SAMPLE_PLAN, SAMPLE, 0);
    assert p.ops[first].intent.lineage == SAMPLE_PLAN.lineage;
    second := AppliedTwice(p, first, SAMPLE_PLAN, 0);
    SystemInv(p.companion, p.net, p.past, p.ops);
    InvOnce(p.companion);
  }

  // ---------------------------------------------------------------- a commit nobody asked for

  /** An interrupted operation of one step, journaled as verified on `col`. */
  function VerifiedOn(intent: Intent): Operation
    requires |intent.steps| == 1
  {
    var s := intent.steps[0];
    var step := J.Step(s.id, s.expected, J.Verified, Some(s.expected));
    Operation(intent, 1, Some(J.Journal(3, intent.approved, J.Mutating, [step])), None)
  }

  lemma VerifiedOpOk(col: Collection, intent: Intent)
    requires WellPlanned(intent) && |intent.steps| == 1
    requires ReadStep(col, intent.pre, intent.steps[0]) == Some(Expected(intent.steps[0].expected))
    ensures OpOk(Opened(col).ledger, {}, {col}, VerifiedOn(intent))
  {
    hide ReadStep;
    assert J.ShapedAt(VerifiedOn(intent).journal.value.steps, 1);
    assert Witnessed({col}, intent, intent.steps[0]);
  }

  /** The sample's frozen intent, and the collection right after its effect. */
  predicate Sampled(col: Collection, intent: Intent) {
    && MakeIntent(SAMPLE_PLAN, SAMPLE, 0) == Some(intent) && |intent.steps| == 1 && col == After(SAMPLE, intent, 0, 1)
  }

  lemma SampleCreated(col: Collection, intent: Intent)
    requires Sampled(col, intent)
    ensures WellPlanned(intent) && intent.lineage == 1 && intent.steps[0].body.CreateNote?
    ensures ReadStep(col, intent.pre, intent.steps[0]) == Some(Expected(intent.steps[0].expected))
    ensures FinalRead(col, intent) == Some(intent.steps[0].expected)
    ensures col.notes.Keys == {1} && col.notes[1].fields == map["Front" := "word"] && col.notes[1].mid in col.models
  {
    hide MakeIntent, GoodCreate, ReadStep, FinalRead, PerformCreate, PreflightCreate;
    PlainIntent(SAMPLE_PLAN, SAMPLE, 0);
    MadeIntentPlanned(SAMPLE_PLAN, SAMPLE, 0);
    SampleIsGood(MarkerOf(0));
    GoodIsTrack(SAMPLE, SAMPLE_PLAN, 0);
    TrackedAfter(SAMPLE, intent, 1);
    ExpectedIsFinal(col, intent);
    OneAfter(SAMPLE, SAMPLE_PLAN, 0);
    SampleRow(MarkerOf(0));
  }

  lemma SampleRow(marker: string)
    requires GoodCreate(SAMPLE, SAMPLE_PLAN, PlainResolved(SAMPLE_PLAN), marker)
    ensures var after := PerformCreate(SAMPLE, MainBody(SAMPLE_PLAN, PlainResolved(SAMPLE_PLAN), marker)).col;
            after.notes.Keys == {1} && after.notes[1].fields == map["Front" := "word"]
                && after.notes[1].mid in after.models
  {
    var body := MainBody(SAMPLE_PLAN, PlainResolved(SAMPLE_PLAN), marker);
    CreatesGrants(SAMPLE, body);
    CreatedNote(SAMPLE, body);
  }

  /** A later edit of that note by its user. */
  function Edited(col: Collection): Collection
    requires 1 in col.notes
  {
    col.(notes := col.notes[1 := col.notes[1].(fields := map["Front" := "edited"])])
  }

  lemma EditedShowsApart(col: Collection, intent: Intent)
    requires |intent.steps| == 1 && intent.steps[0].body.CreateNote?
             && FinalRead(col, intent) == Some(intent.steps[0].expected)
    requires col.notes.Keys == {1} && col.notes[1].fields == map["Front" := "word"] && col.notes[1].mid in col.models
    ensures FinalRead(Edited(col), intent).Some? && FinalRead(Edited(col), intent) != FinalRead(col, intent)
  {
    var marker := intent.steps[0].body.marker;
    assert Tagged(Edited(col), marker) == Tagged(col, marker);
    assert Least(Tagged(col, marker)) == 1;
    assert map["Front" := "edited"]["Front"] != map["Front" := "word"]["Front"];
  }

  /** Reconciling without `apply` commits: the new note of the sample is there and journaled as verified, and
      the process died before its commit. */
  method CommitGap() returns (p: Client, before: Operations)
    ensures p.Valid() && 3 in before && !Done(before, 3) && Done(p.ops, 3) && p.net == {}
  {
    p, before := LeftVerified(false);
    var flow := ReconcileOperation(p, 3, false, None, 0);
  }

  /** It puts the operation up for review when the user has edited that note since. */
  method ReviewGap() returns (p: Client, before: Operations)
    ensures p.Valid() && 3 in before && before[3].journal.Some? && JournalOf(before, 3).state.Mutating?
    ensures 3 in p.ops && p.ops[3].journal.Some? && JournalOf(p.ops, 3).state.NeedsRecovery? && p.net == {}
  {
    p, before := LeftVerified(true);
    var flow := ReconcileOperation(p, 3, false, None, 0);
  }

  /** The sample operation, journaled as verified but not committed, and perhaps an edit of its note since. */
  method LeftVerified(edited: bool) returns (p: Client, before: Operations)
    ensures fresh(p) && p.Valid() && p.ops == before && p.script == [] && p.net == {}
    ensures 3 in before && before[3].journal.Some? && JournalOf(before, 3).state.Mutating?
    ensures if edited then ReviewsUnasked(before[3], p.companion) else CommitsUnasked(before[3], p.companion)
  {
    hide Inv, OpOk, MakeIntent, WellPlanned, ReadStep, FinalRead;
    PlainIntent(SAMPLE_PLAN, SAMPLE, 0);
    var intent := MakeIntent(SAMPLE_PLAN, SAMPLE, 0).value;
    var col := After(SAMPLE, intent, 0, 1);
    SampleCreated(col, intent);
    EditedShowsApart(col, intent);
    VerifiedOpOk(col, intent);
    var now := if edited then Edited(col) else col;
    OpenedInv(now);
    before := map[3 := VerifiedOn(intent)];
    p := new Client(Opened(now), {col}, before, []);
  }
}
