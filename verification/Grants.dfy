/** What each effect is granted on: the exact condition of every preflight, in terms of the collection. */
module Grants {
  import opened Wrappers
  import opened Anki
  import opened Effects

  // ---------------------------------------------------------------- the parts of a precondition

  /** The note exists with exactly the content that was reviewed. */
  predicate AsReviewed(col: Collection, nid: NoteId, pre: Content) {
    Observable(col, nid) && ContentOf(Observe(col, nid)) == pre
  }

  predicate InNote(col: Collection, nid: NoteId, c: CardId) {
    c in col.cards && col.cards[c].nid == nid
  }

  predicate Unfiltered(col: Collection, nid: NoteId) {
    forall c <- col.cards :: InNote(col, nid, c) ==> col.cards[c].odid == 0
  }

  predicate Ordinary(col: Collection, deck: DeckId) {
    deck in col.decks && !col.decks[deck].filtered
  }

  /** The card stays, has no memory state, or goes to a deck of the same preset. */
  predicate KeepsPreset(col: Collection, c: CardId, deck: DeckId) {
    c in col.cards ==>
      || col.cards[c].did == deck || col.cards[c].sched.memory.None?
      || (col.cards[c].did in col.decks && deck in col.decks
          && col.decks[col.cards[c].did].preset == col.decks[deck].preset)
  }

  predicate Unstudied(card: Card) {
    card.history == [] && card.sched.reps == 0
  }

  /** The note has the source type, the target type has the reviewed name, and each ordinal of the map exists. */
  predicate TypesFit(col: Collection, nid: NoteId, migration: Migration) {
    && nid in col.notes && col.notes[nid].mid == migration.sourceModel && migration.sourceModel in col.models
    && migration.targetModel in col.models && col.models[migration.targetModel].name == migration.targetName
    && forall m <- migration.ordinals :: && m.source < |col.models[migration.sourceModel].templates|
                                         && m.target < |col.models[migration.targetModel].templates|
  }

  /** The request names every field the note has afterwards, and no other. */
  predicate FieldsFit(col: Collection, nid: NoteId, migration: Option<Migration>, fields: Fields) {
    match migration
    case None => nid in col.notes && fields.Keys == col.notes[nid].fields.Keys
    case Some(m) => m.targetModel in col.models && fields.Keys == col.models[m.targetModel].fields
  }

  predicate Mapped(migration: Option<Migration>, ord: Ordinal) {
    migration.None? || exists m <- migration.value.ordinals :: m.source == ord
  }

  /** A card whose schedule a new note copies is still there, outside filtered decks, and as it was seen. */
  predicate SourceFits(col: Collection, templates: nat, e: Inherit) {
    && e.ord < templates && e.source in col.cards
    && col.cards[e.source].odid == 0 && col.cards[e.source].sched == e.sched
  }

  // ---------------------------------------------------------------- the preconditions

  predicate GrantsUpdate(col: Collection, body: Body)
    requires body.UpdateNote?
  {
    && AsReviewed(col, body.nid, body.pre) && Unfiltered(col, body.nid) && Ordinary(col, body.deck)
    && (forall c <- col.cards :: InNote(col, body.nid, c) ==>
          KeepsPreset(col, c, body.deck) && Mapped(body.migration, col.cards[c].ord))
    && (body.migration.Some? ==> TypesFit(col, body.nid, body.migration.value))
    && FieldsFit(col, body.nid, body.migration, body.fields)
  }

  /** Removed are exactly the cards the reverse map drops, none of them studied; every other card of the note
      gets a deck. */
  ghost predicate GrantsRestore(col: Collection, body: Body)
    requires body.RestoreNote?
  {
    && AsReviewed(col, body.nid, body.pre) && Unfiltered(col, body.nid)
    && (forall c :: c in body.removed <==> InNote(col, body.nid, c) && !Mapped(body.migration, col.cards[c].ord))
    && (forall c <- body.removed :: c in col.cards ==> Unstudied(col.cards[c]))
    && (forall c :: c in body.decks <==> InNote(col, body.nid, c) && c !in body.removed)
    && (forall c <- body.decks :: Ordinary(col, body.decks[c]) && KeepsPreset(col, c, body.decks[c]))
    && (body.migration.Some? ==> TypesFit(col, body.nid, body.migration.value))
    && FieldsFit(col, body.nid, body.migration, body.fields)
  }

  /** No note carries the marker, and the named type, the deck and each copied schedule are as reviewed. */
  predicate GrantsCreate(col: Collection, body: Body)
    requires body.CreateNote?
  {
    && (forall n <- col.notes :: body.marker !in col.notes[n].tags)
    && Ordinary(col, body.deck)
    && exists m <- col.models :: NamedModel(col, body.modelName, m) && ModelFits(col.models[m], body)
                                 && forall e <- body.inherit :: SourceFits(col, |col.models[m].templates|, e)
  }

  /** The note type a name finds: the first with that name. */
  predicate NamedModel(col: Collection, name: string, m: ModelId) {
    && m in col.models && col.models[m].name == name
    && forall k <- col.models :: col.models[k].name == name ==> m <= k
  }

  predicate ModelFits(model: Model, body: Body)
    requires body.CreateNote?
  {
    model.manifest == body.manifest && model.fields == body.fields.Keys
  }

  predicate GrantsDelete(col: Collection, body: Body)
    requires body.DeleteCreated?
  {
    && AsReviewed(col, body.nid, body.pre)
    && forall c <- col.cards :: InNote(col, body.nid, c) ==> Unstudied(col.cards[c])
  }

  /** A file of that name, if there is one, has the same content. */
  predicate GrantsMedia(col: Collection, body: Body)
    requires body.StoreMedia?
  {
    body.filename in col.media ==> col.media[body.filename].sha256 == body.sha256
  }

  ghost predicate Granted(col: Collection, body: Body) {
    match body
    case StoreMedia(_, _, _) => GrantsMedia(col, body)
    case CreateNote(_, _, _, _, _, _, _) => GrantsCreate(col, body)
    case UpdateNote(_, _, _, _, _, _) => GrantsUpdate(col, body)
    case RestoreNote(_, _, _, _, _, _, _) => GrantsRestore(col, body)
    case DeleteCreated(_, _) => GrantsDelete(col, body)
    case ExportCheckpoint(_) => true
  }

  // ---------------------------------------------------------------- the preflights test exactly these

  lemma ObservedCards(col: Collection, nid: NoteId)
    requires Observable(col, nid)
    ensures forall c :: c in Observe(col, nid).cards <==> InNote(col, nid, c)
    ensures forall c <- Observe(col, nid).cards :: Observe(col, nid).cards[c] == col.cards[c]
  {}

  lemma MigrationExactly(col: Collection, migration: Migration, nid: NoteId)
    requires Observable(col, nid)
    ensures MigrationRefusal(col, migration, Observe(col, nid)).None? <==> TypesFit(col, nid, migration)
  {}

  lemma UpdateExactly(col: Collection, body: Body)
    requires body.UpdateNote?
    ensures PreflightUpdate(col, body).None? <==> GrantsUpdate(col, body)
  {
    if Observable(col, body.nid) {
      ObservedCards(col, body.nid);
      if body.migration.Some? { MigrationExactly(col, body.migration.value, body.nid); }
    }
    hide ContentOf;
  }

  lemma RestoreExactly(col: Collection, body: Body)
    requires body.RestoreNote?
    ensures PreflightRestore(col, body).None? <==> GrantsRestore(col, body)
  {
    hide ContentOf;
    if Observable(col, body.nid) {
      ObservedCards(col, body.nid);
      if body.migration.Some? { MigrationExactly(col, body.migration.value, body.nid); }
    }
  }

  lemma {:induction false} InheritExactly(col: Collection, templates: nat, entries: seq<Inherit>)
    ensures InheritRefusal(col, templates, entries).None? <==> forall e <- entries :: SourceFits(col, templates, e)
  {
    if entries != [] {
      InheritExactly(col, templates, entries[1..]);
      assert entries[0] in entries && forall e <- entries[1..] :: e in entries;
      assert forall e <- entries :: e == entries[0] || e in entries[1..];
    }
  }

  lemma CreateExactly(col: Collection, body: Body)
    requires body.CreateNote?
    ensures PreflightCreate(col, body).None? <==> GrantsCreate(col, body)
  {
    assert Tagged(col, body.marker) == {} <==> forall n <- col.notes :: body.marker !in col.notes[n].tags by {
      if n :| n in col.notes && body.marker in col.notes[n].tags { assert n in Tagged(col, body.marker); }
    }
    forall m | NamedModel(col, body.modelName, m)
      ensures ModelsNamed(col, body.modelName) != {} && m == ModelNamed(col, body.modelName)
    {
      assert m in ModelsNamed(col, body.modelName);
    }
    if ModelsNamed(col, body.modelName) != {} {
      var m := ModelNamed(col, body.modelName);
      assert NamedModel(col, body.modelName, m) by {
        assert forall k <- col.models :: col.models[k].name == body.modelName ==> k in ModelsNamed(col, body.modelName);
      }
      InheritExactly(col, |col.models[m].templates|, body.inherit);
    }
  }

  /** The preflight accepts exactly what is granted. */
  lemma AcceptsExactly(col: Collection, body: Body)
    ensures Accepts(col, body) <==> Granted(col, body)
  {
    hide PreflightUpdate, PreflightRestore, PreflightCreate, GrantsUpdate, GrantsRestore, GrantsCreate, ContentOf;
    match body
    case CreateNote(_, _, _, _, _, _, _) => CreateExactly(col, body);
    case UpdateNote(_, _, _, _, _, _) => UpdateExactly(col, body);
    case RestoreNote(_, _, _, _, _, _, _) => RestoreExactly(col, body);
    case DeleteCreated(_, _) => DeleteExactly(col, body);
    case _ =>
  }

  lemma DeleteExactly(col: Collection, body: Body)
    requires body.DeleteCreated?
    ensures PreflightDelete(col, body).None? <==> GrantsDelete(col, body)
  {
    if Observable(col, body.nid) { ObservedCards(col, body.nid); }
  }

  // ---------------------------------------------------------------- what the validator accepts

  predicate Bijective(migration: Option<Migration>) {
    migration.Some? ==>
      var m := migration.value.ordinals;
      && 1 <= |m| <= 64
      && forall i, j | 0 <= i < |m| && 0 <= j < |m| && i != j ::
         m[i].source != m[j].source && m[i].target != m[j].target
  }

  /** Mapped changes are bounded partial bijections, no card is both kept and removed and one is kept, a new note
      has its marker, and no task takes two schedules. */
  predicate Structured(body: Body) {
    match body
    case UpdateNote(_, _, migration, _, _, _) => Bijective(migration)
    case RestoreNote(_, _, migration, _, _, decks, removed) =>
      Bijective(migration) && (forall c <- decks :: c !in removed) && decks != map[]
    case CreateNote(_, _, _, _, tags, marker, inherit) =>
      && marker in tags
      && forall i, j | 0 <= i < |inherit| && 0 <= j < |inherit| && i != j :: inherit[i].ord != inherit[j].ord
    case _ => true
  }

  lemma StructuredExactly(body: Body)
    ensures ValidBody(body) <==> Structured(body)
  {}
}
