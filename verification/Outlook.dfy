/** When an intent is on track: the hypotheses of an undisturbed apply or recovery, in terms of the
    collection and the reviewed item. */
module Outlook {
  import opened Wrappers
  import opened Anki
  import opened Effects
  import opened EffectLaws
  import opened Undo
  import opened Prediction
  import opened Readback
  import opened Companion
  import opened System
  import opened Serving
  import opened Planning

  // ---------------------------------------------------------------- media aside

  function Aside(col: Collection, media: map<string, Media>): Collection {
    col.(media := media)
  }

  lemma ObserveAside(col: Collection, media: map<string, Media>, nid: NoteId)
    ensures CardsOf(Aside(col, media), nid) == CardsOf(col, nid)
    ensures Observable(col, nid) ==> Observe(Aside(col, media), nid) == Observe(col, nid)
  {}

  lemma UpdateAside(col: Collection, media: map<string, Media>, body: Body)
    requires body.UpdateNote?
    ensures PreflightUpdate(Aside(col, media), body) == PreflightUpdate(col, body)
  {
    ObserveAside(col, media, body.nid);
  }

  lemma {:induction false} InheritRefusalAside(col: Collection, media: map<string, Media>, templates: nat,
                                               entries: seq<Inherit>)
    ensures InheritRefusal(Aside(col, media), templates, entries) == InheritRefusal(col, templates, entries)
  {
    if entries != [] { InheritRefusalAside(col, media, templates, entries[1..]); }
  }

  lemma CreateAside(col: Collection, media: map<string, Media>, body: Body)
    requires body.CreateNote?
    ensures PreflightCreate(Aside(col, media), body) == PreflightCreate(col, body)
  {
    assert Tagged(Aside(col, media), body.marker) == Tagged(col, body.marker);
    assert ModelsNamed(Aside(col, media), body.modelName) == ModelsNamed(col, body.modelName);
    if ModelsNamed(col, body.modelName) != {} {
      InheritRefusalAside(col, media, |col.models[ModelNamed(col, body.modelName)].templates|, body.inherit);
    }
  }

  lemma WellFormedAside(col: Collection, media: map<string, Media>)
    requires WellFormed(col)
    ensures WellFormed(Aside(col, media))
  {}

  // ---------------------------------------------------------------- the main step

  /** The main step shows its precondition and will show its expectation, whatever media is stored. */
  ghost predicate MainGood(col: Collection, intent: Intent) {
    intent.steps != [] && ReadStep(col, intent.pre, MainStep(intent)) == Some(Unchanged)
        && Ready(col, intent, |intent.steps| - 1)
  }

  /** An update whose new content differs from the old, on a note unchanged since its preflight, with
      templates that render exactly the requested tasks where no old card lands. */
  ghost predicate GoodUpdate(col: Collection, plan: Plan, pre: Resolved) {
    && WellFormed(col) && pre.observed.Some? && ResolvedOn(col, plan.content, pre) && ValidMigration(plan.migration)
    && plan.migration == pre.migration && plan.deck == pre.deck
    && var body := MainBody(plan, pre, "");
       && PreflightUpdate(col, body).None?
       && Rewritable(col, body.nid, body.migration, body.fields)
       && RendersRequested(pre.observed.value.cards, RouteOf(pre.migration),
                           RenderedAfter(col, body.nid, pre.migration, plan.content.fields), plan.content.requested)
       && Observable(PerformUpdate(col, body), body.nid)
       && ContentOf(Observe(PerformUpdate(col, body), body.nid)) != body.pre
  }

  lemma UpdateReads(col: Collection, plan: Plan, pre: Resolved, step: IntentStep)
    requires GoodUpdate(col, plan, pre) && step.body == MainBody(plan, pre, "")
    requires Desired(plan.content, pre, "").Some? && step.expected == SeenNote(Desired(plan.content, pre, "").value)
    ensures ReadStep(col, pre, step) == Some(Unchanged)
    ensures ReadStep(PerformUpdate(col, step.body), pre, step) == Some(Expected(step.expected))
    ensures ReadsBack(PerformUpdate(col, step.body), step.body, step.body.nid)
  {
    hide PreflightUpdate, Rewritable, RendersRequested, PerformUpdate, Desired, ReadUpdate, WellFormed, ContentOf;
    NewTagsAre(plan.content.tags, pre.observed.value.tags);
    PreflightContent(col, step.body);
    UpdateAsPredicted(col, plan.content, pre, step.body);
    DesiredMarker(plan.content, pre, "");
    UpdateLeaves(col, step.body);
    assert step.body.fields + step.body.fields == step.body.fields;
  }

  lemma PreflightContent(col: Collection, body: Body)
    requires body.UpdateNote? && PreflightUpdate(col, body).None?
    ensures Observable(col, body.nid) && ContentOf(Observe(col, body.nid)) == body.pre
  {}

  /** The marker plays no part for an existing note. */
  lemma DesiredMarker(item: Item, pre: Resolved, marker: string)
    ensures pre.observed.Some? ==> Desired(item, pre, marker) == Desired(item, pre, "")
  {}

  /** A new note whose schedules can all be copied and whose templates render exactly the requested tasks. */
  ghost predicate GoodCreate(col: Collection, plan: Plan, pre: Resolved, marker: string) {
    && WellFormed(col) && pre.observed.None? && ResolvedOn(col, plan.content, pre)
    && plan.deck == pre.deck && plan.inherit == pre.inherit && plan.targetManifest == pre.targetManifest
    && Creates(col, MainBody(plan, pre, marker))
    && forall o: Ordinal ::
       RenderedBy(col.models[pre.targetModel], plan.content.fields)(o) <==> o in plan.content.requested
  }

  lemma CreateReads(col: Collection, plan: Plan, pre: Resolved, marker: string, step: IntentStep)
    requires GoodCreate(col, plan, pre, marker) && step.body == MainBody(plan, pre, marker)
    requires step.expected == SeenNote(Desired(plan.content, pre, marker).value)
    ensures ReadStep(col, pre, step) == Some(Unchanged)
    ensures var out := PerformCreate(col, step.body);
            && out.done && ReadStep(out.col, pre, step) == Some(Expected(step.expected))
            && ReadsBack(out.col, step.body, out.note)
  {
    hide PerformCreate, Desired, ReadCreate, WellFormed;
    var body := step.body;
    CreatedTags(plan, pre, marker);
    CreateUnmarked(col, body);
    CreateAsPredicted(col, plan.content, pre, body, marker);
    CreatedNote(col, body);
    CreatedId(col, body);
    assert Tagged(PerformCreate(col, body).col, marker) == {col.nextId};
    assert body.fields + body.fields == body.fields;
  }

  lemma CreatedTags(plan: Plan, pre: Resolved, marker: string)
    requires pre.observed.None?
    ensures var body := MainBody(plan, pre, marker);
            body.CreateNote? && marker in body.tags && Tags(body.tags) == Tags(plan.content.tags) + {marker}
  {
    var tags := plan.content.tags + [marker];
    assert tags[|tags| - 1] == marker;
    forall t <- plan.content.tags ensures t in tags {}
  }

  lemma CreateUnmarked(col: Collection, body: Body)
    requires body.CreateNote? && PreflightCreate(col, body).None?
    ensures Tagged(col, body.marker) == {}
  {}

  lemma CreatedId(col: Collection, body: Body)
    requires body.CreateNote? && PreflightCreate(col, body).None?
    ensures PerformCreate(col, body).note == col.nextId
  {
    InheritSourcesExist(col, |col.models[ModelNamed(col, body.modelName)].templates|, body.inherit);
    InheritFrame(AddNote(col, body), col.nextId, col.cards, body.inherit);
  }

  // ---------------------------------------------------------------- the main step after the uploads

  lemma GenerateAside(col: Collection, media: map<string, Media>, nid: NoteId, did: DeckId)
    requires Observable(col, nid)
    ensures Generate(Aside(col, media), nid, did) == Aside(Generate(col, nid, did), media)
  {
    var a, b := Generate(Aside(col, media), nid, did), Generate(col, nid, did);
    forall c: CardId ensures NewCard(Aside(col, media), nid, c) == NewCard(col, nid, c) {}
    assert a.cards == b.cards;
  }

  lemma RetypeAside(col: Collection, media: map<string, Media>, nid: NoteId, migration: Option<Migration>)
    requires nid in col.notes && (migration.Some? ==> migration.value.targetModel in col.models)
    ensures Retype(Aside(col, media), nid, migration) == Aside(Retype(col, nid, migration), media)
  {
    assert Retype(Aside(col, media), nid, migration).cards == Retype(col, nid, migration).cards;
  }

  lemma RewriteAside(col: Collection, media: map<string, Media>, nid: NoteId, migration: Option<Migration>,
                     fields: Fields, tags: seq<string>)
    requires Observable(col, nid) && (migration.Some? ==> migration.value.targetModel in col.models)
    ensures Rewrite(Aside(col, media), nid, migration, fields, tags)
            == Aside(Rewrite(col, nid, migration, fields, tags), media)
  {
    hide Generate;
    RetypeAside(col, media, nid, migration);
    var typed := Retype(col, nid, migration);
    GenerateAside(SetNote(typed, nid, typed.notes[nid].fields + fields, tags), media, nid, DEFAULT_DECK);
  }

  lemma PerformUpdateAside(col: Collection, media: map<string, Media>, body: Body)
    requires body.UpdateNote? && PreflightUpdate(col, body).None?
    ensures PreflightUpdate(Aside(col, media), body).None?
    ensures PerformUpdate(Aside(col, media), body) == Aside(PerformUpdate(col, body), media)
  {
    hide Rewrite;
    UpdateAside(col, media, body);
    var tags := AddTags(col.notes[body.nid].tags, body.addTags);
    RewriteAside(col, media, body.nid, body.migration, body.fields, tags);
    var after := Rewrite(col, body.nid, body.migration, body.fields, tags);
    ObserveAside(after, media, body.nid);
    assert MoveCards(Aside(after, media), Everywhere(CardsOf(after, body.nid).Keys, body.deck)).cards
           == MoveCards(after, Everywhere(CardsOf(after, body.nid).Keys, body.deck)).cards;
  }

  lemma RenderedAside(col: Collection, media: map<string, Media>, nid: NoteId, migration: Option<Migration>,
                      fields: Fields)
    requires Rewritable(col, nid, migration, fields)
    ensures Rewritable(Aside(col, media), nid, migration, fields)
    ensures forall o: Ordinal ::
            RenderedAfter(Aside(col, media), nid, migration, fields)(o) == RenderedAfter(col, nid, migration, fields)(o)
  {
    WellFormedAside(col, media);
    ObserveAside(col, media, nid);
  }

  lemma GoodUpdateAside(col: Collection, media: map<string, Media>, plan: Plan, pre: Resolved)
    requires GoodUpdate(col, plan, pre)
    ensures GoodUpdate(Aside(col, media), plan, pre)
  {
    hide PreflightUpdate, Rewritable, PerformUpdate, WellFormed, ContentOf;
    var body := MainBody(plan, pre, "");
    WellFormedAside(col, media);
    ObserveAside(col, media, body.nid);
    PerformUpdateAside(col, media, body);
    ObserveAside(PerformUpdate(col, body), media, body.nid);
    RenderedAside(col, media, body.nid, body.migration, body.fields);
    assert ModelsNamed(Aside(col, media), plan.content.modelName) == ModelsNamed(col, plan.content.modelName);
    SameRendered(pre.observed.value.cards, RouteOf(pre.migration),
                 RenderedAfter(col, body.nid, pre.migration, plan.content.fields),
                 RenderedAfter(Aside(col, media), body.nid, pre.migration, plan.content.fields),
                     plan.content.requested);
  }

  lemma SameRendered(cards: map<CardId, Card>, route: Route, a: Rendered, b: Rendered, requested: set<Ordinal>)
    requires RendersRequested(cards, route, a, requested) && forall o: Ordinal :: b(o) == a(o)
    ensures RendersRequested(cards, route, b, requested)
  {}

  lemma AddNoteAside(col: Collection, media: map<string, Media>, body: Body)
    requires body.CreateNote? && PreflightCreate(col, body).None?
    ensures PreflightCreate(Aside(col, media), body).None?
            && AddNote(Aside(col, media), body) == Aside(AddNote(col, body), media)
  {
    hide Generate;
    CreateAside(col, media, body);
    assert ModelsNamed(Aside(col, media), body.modelName) == ModelsNamed(col, body.modelName);
    GenerateAside(StartNote(col, ModelNamed(col, body.modelName), body), media, col.nextId, body.deck);
  }

  lemma CreatesAside(col: Collection, media: map<string, Media>, body: Body)
    requires Creates(col, body)
    ensures Creates(Aside(col, media), body)
  {
    hide WellFormed, AddNote;
    WellFormedAside(col, media);
    AddNoteAside(col, media, body);
    assert ModelsNamed(Aside(col, media), body.modelName) == ModelsNamed(col, body.modelName);
    InheritSourcesExist(col, |col.models[ModelNamed(col, body.modelName)].templates|, body.inherit);
    InheritSourcesExist(Aside(col, media), |col.models[ModelNamed(col, body.modelName)].templates|, body.inherit);
    InheritDone(AddNote(col, body), col.nextId, col.cards, body.inherit);
    InheritDone(AddNote(Aside(col, media), body), col.nextId, col.cards, body.inherit);
    forall e <- body.inherit ensures HasOrdinal(AddNote(Aside(col, media), body), col.nextId, e.ord) {
      assert HasOrdinal(AddNote(col, body), col.nextId, e.ord);
    }
  }

  lemma GoodCreateAside(col: Collection, media: map<string, Media>, plan: Plan, pre: Resolved, marker: string)
    requires GoodCreate(col, plan, pre, marker)
    ensures GoodCreate(Aside(col, media), plan, pre, marker)
  {
    hide Creates, WellFormed;
    WellFormedAside(col, media);
    CreatesAside(col, media, MainBody(plan, pre, marker));
    assert ModelsNamed(Aside(col, media), plan.content.modelName) == ModelsNamed(col, plan.content.modelName);
  }

  // ---------------------------------------------------------------- the whole intent

  /** The item's main step is good on this collection. */
  ghost predicate GoodItem(col: Collection, plan: Plan, pre: Resolved, marker: string) {
    if pre.observed.Some? then GoodUpdate(col, plan, pre) else GoodCreate(col, plan, pre, marker)
  }

  ghost predicate MainIs(intent: Intent, plan: Plan, pre: Resolved, marker: string) {
    && intent.steps != [] && intent.pre == pre && MainStep(intent).body == MainBody(plan, pre, marker)
    && Desired(plan.content, pre, marker).Some?
    && MainStep(intent).expected == SeenNote(Desired(plan.content, pre, marker).value)
  }

  lemma GoodIsReady(col: Collection, plan: Plan, pre: Resolved, marker: string, intent: Intent)
    requires GoodItem(col, plan, pre, marker) && MainIs(intent, plan, pre, marker)
    ensures MainGood(col, intent)
  {
    hide Creates, WellFormed, PreflightUpdate, PreflightCreate, PerformUpdate, PerformCreate, ReadStep, ReadsBack,
         Desired, Rewritable,
         RendersRequested, ContentOf, ResolvedOn;
    if pre.observed.Some? {
      DesiredMarker(plan.content, pre, marker);
      UpdateReads(col, plan, pre, MainStep(intent));
    } else {
      CreatedTags(plan, pre, marker);
      CreateReads(col, plan, pre, marker, MainStep(intent));
      CreatesGrants(col, MainStep(intent).body);
    }
  }

  lemma CreatesGrants(col: Collection, body: Body)
    requires Creates(col, body)
    ensures PreflightCreate(col, body).None? && DistinctEntries(body.inherit) && PerformCreate(col, body).done
  {}

  lemma GoodItemAside(col: Collection, media: map<string, Media>, plan: Plan, pre: Resolved, marker: string)
    requires GoodItem(col, plan, pre, marker)
    ensures GoodItem(Aside(col, media), plan, pre, marker)
  {
    hide GoodUpdate, GoodCreate;
    if pre.observed.Some? {
      GoodUpdateAside(col, media, plan, pre);
    } else {
      GoodCreateAside(col, media, plan, pre, marker);
    }
  }

  ghost predicate Uploads(intent: Intent, k: nat, files: seq<MediaFile>) {
    && |intent.steps| == k + |files| + 1
    && forall i | 0 <= i < |files| :: intent.steps[k + i] == MediaStep(files[i], intent.steps[k + i].id)
  }

  ghost predicate Absent(col: Collection, files: seq<MediaFile>) {
    && (forall f <- files :: f.filename !in col.media)
    && forall i, j | 0 <= i < j < |files| :: files[i].filename != files[j].filename
  }

  /** An upload whose file is absent goes through, and reads back as expected. */
  lemma UploadReady(col: Collection, intent: Intent, k: nat, f: MediaFile)
    requires k < |intent.steps| && intent.steps[k] == MediaStep(f, intent.steps[k].id) && f.filename !in col.media
    ensures ReadStep(col, intent.pre, intent.steps[k]) == Some(Unchanged) && Ready(col, intent, k)
    ensures var next := Aside(col, col.media[f.filename := f.media]);
            && Perform(col, intent.steps[k].body).col == next
            && ReadStep(next, intent.pre, intent.steps[k]) == Some(Expected(intent.steps[k].expected))
  {
    assert Aside(col, col.media[f.filename := f.media]) == PerformMedia(col, intent.steps[k].body);
  }

  /** Upload after upload, each absent before and present after, then the main step. */
  lemma {:induction false} UploadsOnTrack(col: Collection, plan: Plan, pre: Resolved, marker: string, intent: Intent,
                                          k: nat, files: seq<MediaFile>)
    requires GoodItem(col, plan, pre, marker) && MainIs(intent, plan, pre, marker)
    requires Uploads(intent, k, files) && Absent(col, files)
    requires k > 0 ==> ReadStep(col, intent.pre, intent.steps[k - 1]) == Some(Expected(intent.steps[k - 1].expected))
    ensures OnTrack(col, intent, k)
    decreases |files|
  {
    hide GoodItem, MainIs, ReadStep, Perform;
    if files == [] {
      GoodIsReady(col, plan, pre, marker, intent);
      assert intent.steps[k] == MainStep(intent);
    } else {
      var f := files[0];
      assert intent.steps[k + 0] == MediaStep(f, intent.steps[k].id);
      var next := Aside(col, col.media[f.filename := f.media]);
      UploadReady(col, intent, k, f);
      GoodItemAside(col, next.media, plan, pre, marker);
      forall i | 0 <= i < |files| - 1
        ensures intent.steps[k + 1 + i] == MediaStep(files[1..][i], intent.steps[k + 1 + i].id)
      {
        assert intent.steps[k + (1 + i)] == MediaStep(files[1 + i], intent.steps[k + (1 + i)].id);
      }
      UploadsOnTrack(next, plan, pre, marker, intent, k + 1, files[1..]);
    }
  }

  lemma {:induction false} NewMediaAbsent(col: Collection, media: seq<MediaFile>)
    requires NewMedia(col, media).Some?
    requires forall i, j | 0 <= i < j < |media| :: media[i].filename != media[j].filename
    ensures Absent(col, NewMedia(col, media).value)
    ensures forall f <- NewMedia(col, media).value :: f in media
  {
    if media != [] {
      NewMediaAbsent(col, media[1..]);
      forall f <- NewMedia(col, media[1..]).value ensures f.filename != media[0].filename {
        var i :| 0 <= i < |media[1..]| && media[1..][i] == f;
        assert media[i + 1] == f;
      }
    }
  }

  /** The intent of a good item, with new files that have different names, is on track from the start. */
  lemma IntentOnTrack(plan: Plan, col: Collection, base: Id)
    requires MakeIntent(plan, col, base).Some?
    requires GoodItem(col, plan, Resolve(plan, col).value, MarkerOf(base))
    requires forall i, j | 0 <= i < j < |plan.media| :: plan.media[i].filename != plan.media[j].filename
    ensures OnTrack(col, MakeIntent(plan, col, base).value, 0)
  {
    hide GoodItem, OnTrack;
    var intent, pre := MakeIntent(plan, col, base).value, Resolve(plan, col).value;
    NewMediaAbsent(col, plan.media);
    UploadsOnTrack(col, plan, pre, MarkerOf(base), intent, 0, NewMedia(col, plan.media).value);
  }
}
