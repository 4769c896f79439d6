/** From a reviewed item and the live collection to a frozen intent. */
module Planning {
  import opened Wrappers
  import opened Anki
  import opened Effects
  import opened Prediction
  import opened Readback
  import opened Ledger
  import opened System
  import J = Journal

  datatype MediaFile = MediaFile(filename: string, media: Media)

  /** A reviewed item with what its preflight resolved by name: model, deck, mapping, schedules, media. */
  datatype Plan = Plan(
    item: nat, content: Item, target: Option<NoteId>, targetModel: ModelId, targetManifest: string, deck: DeckId,
    migration: Option<Migration>, inherit: seq<Inherit>, media: seq<MediaFile>, lineage: Id, approved: Id)

  /** The observed source note, if the item has one. */
  function Resolve(plan: Plan, col: Collection): Option<Resolved> {
    match plan.target
    case None => Some(Resolved(None, plan.targetModel, plan.targetManifest, plan.deck, plan.migration, plan.inherit))
    case Some(nid) =>
      if !Observable(col, nid) then None
      else Some(Resolved(Some(Observe(col, nid)), plan.targetModel, plan.targetManifest, plan.deck, plan.migration,
                         plan.inherit))
  }

  /** Files to upload: absent ones.  A file with these bytes is reused, any other is a collision. */
  function NewMedia(col: Collection, media: seq<MediaFile>): Option<seq<MediaFile>> {
    if media == [] then Some([])
    else
      var rest := NewMedia(col, media[1..]);
      if rest.None? then None
      else if media[0].filename !in col.media then Some([media[0]] + rest.value)
      else if col.media[media[0].filename] == media[0].media then rest
      else None
  }

  /** The operation's own marker tag: a different one for every step identifier. */
  function MarkerOf(id: Id): string {
    "lab_op_" + seq(id, _ => '1')
  }

  lemma MarkersDiffer(a: Id, b: Id)
    requires a != b
    ensures MarkerOf(a) != MarkerOf(b)
  {
    assert |MarkerOf(a)| == 7 + a && |MarkerOf(b)| == 7 + b;
  }

  function NewTags(tags: seq<string>, existing: seq<string>): seq<string> {
    if tags == [] then []
    else (if tags[0] in existing then [] else [tags[0]]) + NewTags(tags[1..], existing)
  }

  lemma {:induction false} NewTagsAre(tags: seq<string>, existing: seq<string>)
    ensures Tags(NewTags(tags, existing)) == Tags(tags) - Tags(existing)
  {
    if tags != [] {
      NewTagsAre(tags[1..], existing);
      assert Tags(tags) == {tags[0]} + Tags(tags[1..]);
      assert Tags(NewTags(tags, existing)) == (if tags[0] in existing then {} else {tags[0]})
             + Tags(NewTags(tags[1..], existing));
    }
  }

  function MediaStep(file: MediaFile, id: Id): IntentStep {
    IntentStep(id, StoreMedia(file.filename, file.media.sha256, file.media.size), SeenMedia(file.filename, file.media))
  }

  function MainBody(plan: Plan, pre: Resolved, marker: string): Body {
    match pre.observed
    case None =>
      CreateNote(plan.content.modelName, plan.targetManifest, plan.deck, plan.content.fields,
                 plan.content.tags + [marker], marker,
                 plan.inherit)
    case Some(note) =>
      UpdateNote(note.id, ContentOf(note), plan.migration, plan.content.fields, NewTags(plan.content.tags, note.tags),
                 plan.deck)
  }

  /** The collection already shows what the item asks for. */
  predicate AlreadyThere(pre: Resolved, desired: NoteProjection) {
    pre.observed.Some?
    && ProjectInherited(pre.observed.value, pre.observed.value.cards.Keys, Some((pre.targetModel, pre.targetManifest)),
                        {}) == desired
  }

  /** The frozen intent: upload steps at `base + 1` and up, then the main step `base`. */
  function MakeIntent(plan: Plan, col: Collection, base: Id): Option<Intent> {
    var pre := Resolve(plan, col);
    var media := NewMedia(col, plan.media);
    if pre.None? || media.None? then None
    else
      var desired := Desired(plan.content, pre.value, MarkerOf(base));
      if desired.None? || (media.value == [] && AlreadyThere(pre.value, desired.value)) then None
      else
        var main := IntentStep(base, MainBody(plan, pre.value, MarkerOf(base)), SeenNote(desired.value));
        var uploads := seq(|media.value|, k requires 0 <= k < |media.value| => MediaStep(media.value[k], base + 1 + k));
        Some(Intent(plan.item, plan.lineage, plan.approved, pre.value, uploads + [main]))
  }

  /** Each listed file is absent or there with the same bytes. */
  predicate NoCollision(col: Collection, media: seq<MediaFile>) {
    forall f <- media :: f.filename in col.media ==> col.media[f.filename] == f.media
  }

  lemma {:induction false} NewMediaExactly(col: Collection, media: seq<MediaFile>)
    ensures NewMedia(col, media).Some? <==> NoCollision(col, media)
    ensures NewMedia(col, media).Some? ==>
              && (forall f :: f in NewMedia(col, media).value <==> f in media && f.filename !in col.media)
              && |NewMedia(col, media).value| <= |media|
  {
    if media != [] {
      NewMediaExactly(col, media[1..]);
      assert forall f :: f in media <==> f == media[0] || f in media[1..];
    }
  }

  /** The note shows what the item asks for, its present cards kept. */
  predicate Shown(plan: Plan, col: Collection, desired: NoteProjection) {
    && plan.target.Some? && Observable(col, plan.target.value)
    && var note := Observe(col, plan.target.value);
       ProjectInherited(note, note.cards.Keys, Some((plan.targetModel, plan.targetManifest)), {}) == desired
  }

  /** An item becomes an intent exactly when its source note is there, no file collides, its schedules can be
      predicted and something is left to change. */
  lemma MadeExactly(plan: Plan, col: Collection, base: Id)
    ensures Resolve(plan, col).Some? <==> plan.target.None? || Observable(col, plan.target.value)
    ensures MakeIntent(plan, col, base).Some?
            <==> && Resolve(plan, col).Some? && NoCollision(col, plan.media)
                 && var desired := Desired(plan.content, Resolve(plan, col).value, MarkerOf(base));
                    && desired.Some?
                    && ((exists f <- plan.media :: f.filename !in col.media) || !Shown(plan, col, desired.value))
  {
    hide Desired, ProjectInherited;
    NewMediaExactly(col, plan.media);
    var media := NewMedia(col, plan.media);
    if media.Some? && media.value != [] { assert media.value[0] in media.value; }
  }

  predicate IsUpload(step: IntentStep, f: MediaFile) {
    step == MediaStep(f, step.id)
  }

  lemma UploadSteps(plan: Plan, col: Collection, base: Id)
    requires MakeIntent(plan, col, base).Some?
    ensures NewMedia(col, plan.media).Some?
    ensures var files, steps := NewMedia(col, plan.media).value, MakeIntent(plan, col, base).value.steps;
            |steps| == |files| + 1 && forall k | 0 <= k < |files| :: IsUpload(steps[k], files[k])
  {
    hide Desired, ProjectInherited, MainBody, MarkerOf, NewMedia;
    var files, steps := NewMedia(col, plan.media).value, MakeIntent(plan, col, base).value.steps;
    forall k | 0 <= k < |files| ensures IsUpload(steps[k], files[k]) {
      assert steps[k] == MediaStep(files[k], base + 1 + k);
    }
  }

  /** The step uploads one of the files that is absent. */
  predicate UploadsAbsent(plan: Plan, col: Collection, step: IntentStep) {
    exists f <- plan.media :: f.filename !in col.media && IsUpload(step, f)
  }

  /** It uploads exactly the absent files, each with its bytes. */
  lemma UploadsExactly(plan: Plan, col: Collection, base: Id)
    requires MakeIntent(plan, col, base).Some?
    ensures var steps := MakeIntent(plan, col, base).value.steps;
            && (forall f <- plan.media | f.filename !in col.media ::
                  exists k | 0 <= k < |steps| - 1 :: IsUpload(steps[k], f))
            && (forall k | 0 <= k < |steps| - 1 :: UploadsAbsent(plan, col, steps[k]))
  {
    hide MakeIntent, NewMedia, IsUpload;
    NewMediaExactly(col, plan.media);
    UploadSteps(plan, col, base);
    var files, steps := NewMedia(col, plan.media).value, MakeIntent(plan, col, base).value.steps;
    forall f <- plan.media | f.filename !in col.media ensures exists k | 0 <= k < |steps| - 1 :: IsUpload(steps[k], f) {
      var k :| 0 <= k < |files| && files[k] == f;
      assert IsUpload(steps[k], f);
    }
    forall k | 0 <= k < |steps| - 1 ensures UploadsAbsent(plan, col, steps[k]) {
      assert files[k] in files && IsUpload(steps[k], files[k]);
    }
  }

  lemma MadeIntentPlanned(plan: Plan, col: Collection, base: Id)
    requires MakeIntent(plan, col, base).Some?
    ensures var intent := MakeIntent(plan, col, base).value;
            WellPlanned(intent) && intent.item == plan.item && forall s <- intent.steps :: base <= s.id
  {
    var intent := MakeIntent(plan, col, base).value;
    forall i | 0 <= i < |intent.steps|
      ensures intent.steps[i].id == (if i < |intent.steps| - 1 then base + 1 + i else base)
    {}
  }

  // ---------------------------------------------------------------- earlier attempts

  function MainStep(intent: Intent): IntentStep
    requires intent.steps != []
  {
    intent.steps[|intent.steps| - 1]
  }

  /** Every effect of the attempt is a verified upload or a failure without effect, and one is a failure. */
  predicate SupersededSafely(op: Operation)
    requires op.journal.Some?
  {
    var j := op.journal.value;
    && j.state.NeedsRecovery? && |j.steps| == |op.intent.steps|
    && (forall i | 0 <= i < |j.steps| ::
          j.steps[i].state.ObservedFailure? || (j.steps[i].state.Verified? && op.intent.steps[i].body.StoreMedia?))
    && exists s <- j.steps :: s.state.ObservedFailure?
  }

  /** An earlier attempt that does not stand in the way of a new one. */
  predicate Admitted(op: Operation) {
    op.journal.Some? ==> !op.journal.value.state.Committed? && (J.Pending(op.journal.value) ==> SupersededSafely(op))
  }

  predicate PriorAdmits(ops: Operations, item: nat) {
    forall o <- ops :: ops[o].intent.item == item ==> Admitted(ops[o])
  }

  /** An attempt that can never make its main effect. */
  predicate Inert(j: J.Journal) {
    || j.state in {J.Prepared, J.Preflight, J.FailedBeforeWrite}
    || (j.state.NeedsRecovery? && (forall s <- j.steps :: s.state.ObservedFailure? || s.state.Verified?)
        && exists s <- j.steps :: s.state.ObservedFailure?)
  }

  predicate Dormant(op: Operation) {
    op.journal.Some? ==> Inert(op.journal.value)
  }

  predicate AtCheckpoint(op: Operation) {
    op.journal.Some? && op.journal.value.state.Checkpointed?
  }

  lemma FailureIsLast(j: J.Journal)
    requires J.Shaped(j.steps) && (forall s <- j.steps :: s.state.ObservedFailure? || s.state.Verified?)
    requires exists s <- j.steps :: s.state.ObservedFailure?
    ensures j.steps != [] && j.steps[|j.steps| - 1].state.ObservedFailure?
  {
    var k: nat :| J.ShapedAt(j.steps, k);
    var s :| s in j.steps && s.state.ObservedFailure?;
    var i :| 0 <= i < |j.steps| && j.steps[i] == s;
    assert i == k;
    assert j.steps[|j.steps| - 1] in j.steps;
  }

  /** Exactly what the test for earlier attempts lets through: attempts that can never make their main
      effect, and attempts that stopped at their checkpoint. */
  lemma AdmittedExactly(l: Ledger, net: set<Request>, past: set<Collection>, op: Operation)
    requires OpOk(l, net, past, op)
    ensures Admitted(op) <==> Dormant(op) || AtCheckpoint(op)
  {
    hide Bound, StepOk, J.Shaped;
    if op.journal.Some? {
      var j := op.journal.value;
      if J.NothingSent(j.steps) {
        assert forall s <- j.steps :: s.state.IntentRecorded?;
      }
      if j.state.NeedsRecovery? && Inert(j) {
        FailureIsLast(j);
        forall i | 0 <= i < |j.steps|
          ensures j.steps[i].state.ObservedFailure?
                  || (j.steps[i].state.Verified? && op.intent.steps[i].body.StoreMedia?)
        {
          assert j.steps[i] in j.steps;
        }
        assert SupersededSafely(op);
      }
      if SupersededSafely(op) {
        forall s <- j.steps ensures s.state.ObservedFailure? || s.state.Verified? {
          var i :| 0 <= i < |j.steps| && j.steps[i] == s;
        }
      }
    }
  }
}
