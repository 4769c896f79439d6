/** The CLI's prediction of an effect: the post-state it freezes into an intent before anything is
    sent, and the read-back projection it is compared with. */
module Prediction {
  import opened Wrappers
  import opened Anki
  import opened Effects
  import opened EffectLaws
  import opened Undo

  datatype ModelEvidence = Exact(manifest: string) | Unverified(manifest: string)

  /** A new card has no ID, schedule (unless inherited) or history; a retained card keeps its own. */
  datatype CardProjection = CardProjection(
    ord: Ordinal, did: DeckId, id: Option<CardId>, sched: Option<Scheduler>,
    history: Option<seq<Review>>, reviews: nat)

  datatype NoteProjection = NoteProjection(
    modelName: string, model: ModelEvidence, fields: Fields, tags: set<string>, cards: set<CardProjection>)

  function ProjectCard(c: CardId, card: Card, retained: set<CardId>, inherited: set<Ordinal>): CardProjection {
    var kept := c in retained;
    CardProjection(card.ord, card.did, if kept then Some(c) else None,
                   if kept || card.ord in inherited then Some(card.sched) else None,
                   if kept then Some(card.history) else None, |card.history|)
  }

  function ProjectCards(cards: map<CardId, Card>, retained: set<CardId>,
                        inherited: set<Ordinal>): map<CardId, CardProjection> {
    map c | c in cards :: ProjectCard(c, cards[c], retained, inherited)
  }

  function ProjectInherited(note: ObservedNote, retained: set<CardId>, exact: Option<(ModelId, string)>,
                            inherited: set<Ordinal>)
    : NoteProjection
  {
    NoteProjection(note.modelName,
                   if exact.Some? && exact.value.0 == note.mid then Exact(exact.value.1) else Unverified(note.manifest),
                   note.fields, Tags(note.tags),
                   ProjectCards(note.cards, retained, inherited).Values)
  }

  /** The reviewed item: target model, requested task ordinals, tags and rendered fields. */
  datatype Item = Item(modelName: string, requested: set<Ordinal>, tags: seq<string>, fields: Fields)

  /** Everything resolved against the live collection before any intent. */
  datatype Resolved = Resolved(
    observed: Option<ObservedNote>, targetModel: ModelId, targetManifest: string, deck: DeckId,
    migration: Option<Migration>, inherit: seq<Inherit>)

  function InheritedScheduler(source: Scheduler): Scheduler {
    source.(reps := 0, lapses := 0, flags := 0, odue := 0)
  }

  function FindInherit(entries: seq<Inherit>, ord: Ordinal): Option<Inherit> {
    if entries == [] then None
    else if entries[0].ord == ord then Some(entries[0])
    else FindInherit(entries[1..], ord)
  }

  function NewProjection(ord: Ordinal, deck: DeckId, sched: Option<Scheduler>): CardProjection {
    CardProjection(ord, deck, None, sched, None, 0)
  }

  function PredictedTask(o: Ordinal, pre: Resolved): CardProjection {
    NewProjection(o, pre.deck, var e := FindInherit(pre.inherit, o);
                               if e.Some? then Some(InheritedScheduler(e.value.sched)) else None)
  }

  function PredictedTasks(requested: set<Ordinal>, pre: Resolved): set<CardProjection> {
    set o | o in requested :: PredictedTask(o, pre)
  }

  function PredictedCard(c: CardId, card: Card, migration: Option<Migration>, deck: DeckId): CardProjection
    requires Kept(migration, card.ord)
  {
    CardProjection(NewOrdinal(migration, card.ord), deck, Some(c), Some(card.sched), Some(card.history), |card.history|)
  }

  predicate DropsCard(note: ObservedNote, migration: Option<Migration>) {
    exists c <- note.cards :: !Kept(migration, note.cards[c].ord)
  }

  function PredictedCards(note: ObservedNote, migration: Option<Migration>, deck: DeckId,
                          requested: set<Ordinal>): set<CardProjection>
    requires !DropsCard(note, migration)
  {
    var covered := set c | c in note.cards :: NewOrdinal(migration, note.cards[c].ord);
    (set c | c in note.cards :: PredictedCard(c, note.cards[c], migration, deck))
    + set o | o in requested - covered :: NewProjection(o, deck, None)
  }

  /** The desired projection; an error when the migration would drop a card of the note. */
  function Desired(item: Item, pre: Resolved, marker: string): Option<NoteProjection> {
    if pre.observed.None? then
      Some(NoteProjection(item.modelName, Exact(pre.targetManifest), item.fields, Tags(item.tags) + {marker},
                          PredictedTasks(item.requested, pre)))
    else
      var note := pre.observed.value;
      if DropsCard(note, pre.migration) then None
      else
        Some(NoteProjection(item.modelName, Exact(pre.targetManifest), item.fields, Tags(item.tags) + Tags(note.tags),
                            PredictedCards(note, pre.migration, pre.deck, item.requested)))
  }

  // ---------------------------------------------------------------- the bodies the CLI sends

  /** Added tags are the item's own in some order, without the ones the note already carries. */
  ghost predicate AddsTags(add: seq<string>, item: Item, note: ObservedNote) {
    Tags(add) == Tags(item.tags) - Tags(note.tags)
  }

  ghost predicate IsUpdateBody(body: Body, item: Item, pre: Resolved) {
    && body.UpdateNote? && pre.observed.Some? && body.nid == pre.observed.value.id
    && body.pre == ContentOf(pre.observed.value) && body.migration == pre.migration
    && body.fields == item.fields && body.deck == pre.deck
    && AddsTags(body.addTags, item, pre.observed.value)
  }

  ghost predicate IsCreateBody(body: Body, item: Item, pre: Resolved, marker: string) {
    && body.CreateNote? && pre.observed.None?
    && body.modelName == item.modelName && body.manifest == pre.targetManifest && body.deck == pre.deck
    && body.fields == item.fields && Tags(body.tags) == Tags(item.tags) + {marker} && body.marker == marker
    && body.inherit == pre.inherit
  }

  /** The preflight was made on this very collection. */
  ghost predicate ResolvedOn(col: Collection, item: Item, pre: Resolved) {
    && pre.targetModel in col.models && col.models[pre.targetModel].name == item.modelName
    && ModelsNamed(col, item.modelName) == {pre.targetModel}
    && col.models[pre.targetModel].manifest == pre.targetManifest
    && match pre.observed
       case None => true
       case Some(note) =>
         && Observable(col, note.id) && note == Observe(col, note.id)
         && match pre.migration
            case None => note.mid == pre.targetModel
            case Some(m) => m.sourceModel == note.mid && m.targetModel == pre.targetModel
                            && m.targetName == item.modelName
  }

  // ---------------------------------------------------------------- prediction of an update

  lemma {:induction false} AddTagsUnites(tags: seq<string>, add: seq<string>)
    ensures Tags(AddTags(tags, add)) == Tags(tags) + Tags(add)
    decreases |add|
  {
    if add != [] {
      var next := if add[0] in tags then tags else tags + [add[0]];
      AddTagsUnites(next, add[1..]);
      assert Tags(next) == Tags(tags) + {add[0]};
      assert Tags(add) == {add[0]} + Tags(add[1..]);
    }
  }

  /** The guard of a prediction: where no kept card lands, the templates render exactly the requested tasks. */
  ghost predicate RendersRequested(cards: map<CardId, Card>, route: Route, rendered: Rendered, requested: set<Ordinal>)
      {
    forall o: Ordinal :: (exists c <- cards :: route(cards[c].ord) == Some(o)) || (rendered(o) <==> o in requested)
  }

  /** A note's cards, their rewrite, and the deck they all end in. */
  ghost predicate PredictionSetting(note: ObservedNote, next: nat, migration: Option<Migration>, rendered: Rendered,
                                    out: map<CardId, Card>, deck: DeckId)
  {
    && Rewritten(note.cards, next, RouteOf(migration), rendered, out)
    && !DropsCard(note, migration)
    && forall c <- out :: out[c].did == deck
  }

  lemma OldAsPredicted(note: ObservedNote, next: nat, migration: Option<Migration>, rendered: Rendered,
                       out: map<CardId, Card>, deck: DeckId, c: CardId)
    requires PredictionSetting(note, next, migration, rendered, out, deck) && c in note.cards
    ensures c in out && ProjectCard(c, out[c], note.cards.Keys, {}) == PredictedCard(c, note.cards[c], migration, deck)
  {
    assert KeptCard(note.cards[c], RouteOf(migration), out[c]);
  }

  lemma NewAsPredicted(note: ObservedNote, next: nat, migration: Option<Migration>, rendered: Rendered,
                       out: map<CardId, Card>, deck: DeckId, c: CardId)
    requires PredictionSetting(note, next, migration, rendered, out, deck) && c in out && c !in note.cards
    ensures c >= next && Uncovered(note.cards, RouteOf(migration), rendered, c - next)
    ensures ProjectCard(c, out[c], note.cards.Keys, {}) == NewProjection(c - next, deck, None)
  {
    assert FreshCard(c - next, out[c]);
  }

  ghost predicate Lands(note: ObservedNote, migration: Option<Migration>, o: Ordinal) {
    exists c <- note.cards :: RouteOf(migration)(note.cards[c].ord) == Some(o)
  }

  lemma CoveredIsLanding(note: ObservedNote, migration: Option<Migration>, o: Ordinal)
    requires !DropsCard(note, migration)
    ensures o in (set c | c in note.cards :: NewOrdinal(migration, note.cards[c].ord)) <==> Lands(note, migration, o)
  {
    if c :| c in note.cards && NewOrdinal(migration, note.cards[c].ord) == o {
      assert RouteOf(migration)(note.cards[c].ord) == Some(o);
    }
  }

  /** A projected new card is predicted exactly when its task is requested. */
  lemma PredictedNew(note: ObservedNote, migration: Option<Migration>, deck: DeckId, requested: set<Ordinal>,
                     o: Ordinal)
    requires !DropsCard(note, migration)
    ensures NewProjection(o, deck, None) in PredictedCards(note, migration, deck, requested)
            <==> o in requested && !Lands(note, migration, o)
  {
    CoveredIsLanding(note, migration, o);
  }

  lemma CardAsPredicted(note: ObservedNote, next: nat, migration: Option<Migration>, rendered: Rendered,
                        out: map<CardId, Card>, deck: DeckId, requested: set<Ordinal>, c: CardId)
    requires PredictionSetting(note, next, migration, rendered, out, deck)
    requires RendersRequested(note.cards, RouteOf(migration), rendered, requested) && c in out
    ensures ProjectCard(c, out[c], note.cards.Keys, {}) in PredictedCards(note, migration, deck, requested)
  {
    if c in note.cards {
      OldAsPredicted(note, next, migration, rendered, out, deck, c);
    } else {
      NewAsPredicted(note, next, migration, rendered, out, deck, c);
      PredictedNew(note, migration, deck, requested, c - next);
    }
  }

  lemma PredictedIsCard(note: ObservedNote, next: nat, migration: Option<Migration>, rendered: Rendered,
                        out: map<CardId, Card>, deck: DeckId, requested: set<Ordinal>, p: CardProjection)
    requires PredictionSetting(note, next, migration, rendered, out, deck)
    requires RendersRequested(note.cards, RouteOf(migration), rendered, requested)
    requires p in PredictedCards(note, migration, deck, requested)
    ensures exists c <- out :: p == ProjectCard(c, out[c], note.cards.Keys, {})
  {
    if c :| c in note.cards && p == PredictedCard(c, note.cards[c], migration, deck) {
      OldAsPredicted(note, next, migration, rendered, out, deck, c);
    } else {
      PredictedNew(note, migration, deck, requested, p.ord);
      assert Uncovered(note.cards, RouteOf(migration), rendered, p.ord);
      NewAsPredicted(note, next, migration, rendered, out, deck, next + p.ord);
    }
  }

  lemma AsPredictedIf(note: ObservedNote, next: nat, migration: Option<Migration>, rendered: Rendered,
                      out: map<CardId, Card>, deck: DeckId, requested: set<Ordinal>)
    requires PredictionSetting(note, next, migration, rendered, out, deck)
    requires RendersRequested(note.cards, RouteOf(migration), rendered, requested)
    ensures ProjectCards(out, note.cards.Keys, {}).Values == PredictedCards(note, migration, deck, requested)
  {
    hide ProjectCard, PredictedCard, Rewritten, RendersRequested, PredictedCards;
    var projected := ProjectCards(out, note.cards.Keys, {});
    var predicted := PredictedCards(note, migration, deck, requested);
    forall c <- projected ensures projected[c] in predicted {
      CardAsPredicted(note, next, migration, rendered, out, deck, requested, c);
    }
    forall p <- predicted ensures p in projected.Values {
      PredictedIsCard(note, next, migration, rendered, out, deck, requested, p);
      var c :| c in out && p == ProjectCard(c, out[c], note.cards.Keys, {});
      assert projected[c] == p;
    }
  }

  lemma AsPredictedOnlyIf(note: ObservedNote, next: nat, migration: Option<Migration>, rendered: Rendered,
                          out: map<CardId, Card>, deck: DeckId, requested: set<Ordinal>)
    requires PredictionSetting(note, next, migration, rendered, out, deck)
    requires ProjectCards(out, note.cards.Keys, {}).Values == PredictedCards(note, migration, deck, requested)
    ensures RendersRequested(note.cards, RouteOf(migration), rendered, requested)
  {
    var projected := ProjectCards(out, note.cards.Keys, {});
    forall o: Ordinal | !Lands(note, migration, o) ensures rendered(o) <==> o in requested {
      PredictedNew(note, migration, deck, requested, o);
      if rendered(o) {
        assert Uncovered(note.cards, RouteOf(migration), rendered, o);
        NewAsPredicted(note, next, migration, rendered, out, deck, next + o);
        assert projected[next + o] in projected.Values;
      }
      if o in requested {
        assert NewProjection(o, deck, None) in projected.Values;
        var c :| c in projected && NewProjection(o, deck, None) == projected[c];
        NewAsPredicted(note, next, migration, rendered, out, deck, c);
      }
    }
  }

  /** The retained set and exact model the CLI reads an update back with. */
  function ReadUpdate(col: Collection, pre: Resolved): NoteProjection
    requires pre.observed.Some? && Observable(col, pre.observed.value.id)
  {
    var note := pre.observed.value;
    ProjectInherited(Observe(col, note.id), note.cards.Keys, Some((pre.targetModel, pre.targetManifest)), {})
  }

  /** An accepted update of a note unchanged since the preflight: the read-back equals the frozen
      prediction exactly when the templates render the requested tasks where no old card lands. */
  lemma UpdateAsPredicted(col: Collection, item: Item, pre: Resolved, body: Body)
    requires WellFormed(col) && ResolvedOn(col, item, pre) && IsUpdateBody(body, item, pre) && Accepts(col, body)
    ensures Desired(item, pre, "").Some? && Observable(PerformUpdate(col, body), body.nid)
    ensures Rewritable(col, body.nid, body.migration, body.fields)
    ensures ReadUpdate(PerformUpdate(col, body), pre) == Desired(item, pre, "").value
            <==> RendersRequested(pre.observed.value.cards, RouteOf(pre.migration),
                                  RenderedAfter(col, body.nid, pre.migration, item.fields), item.requested)
  {
    var note := pre.observed.value;
    var after := PerformUpdate(col, body);
    UpdateLeaves(col, body);
    UpdateRewritable(col, body);
    AddTagsUnites(col.notes[body.nid].tags, body.addTags);
    assert !DropsCard(note, pre.migration);
    var rendered := RenderedAfter(col, body.nid, pre.migration, item.fields);
    var out := CardsOf(after, body.nid);
    assert ModelAfter(col, body.nid, pre.migration) == pre.targetModel;
    var read, want := ReadUpdate(after, pre), Desired(item, pre, "").value;
    assert read.(cards := {}) == want.(cards := {});
    if RendersRequested(note.cards, RouteOf(pre.migration), rendered, item.requested) {
      AsPredictedIf(note, col.nextId, pre.migration, rendered, out, pre.deck, item.requested);
    }
    if read == want {
      AsPredictedOnlyIf(note, col.nextId, pre.migration, rendered, out, pre.deck, item.requested);
    }
  }

  // ---------------------------------------------------------------- prediction of a create

  ghost predicate DistinctOrdinals(col: Collection, nid: NoteId) {
    forall c <- col.cards, d <- col.cards ::
      c != d && col.cards[c].nid == nid && col.cards[d].nid == nid ==> col.cards[c].ord != col.cards[d].ord
  }

  ghost predicate DistinctEntries(entries: seq<Inherit>) {
    forall i, j | 0 <= i < j < |entries| :: entries[i].ord != entries[j].ord
  }

  /** The card after the inheritance loop: the schedule of the entry for its ordinal, if any. */
  function Inherited(card: Card, sources: map<CardId, Card>, entries: seq<Inherit>): Card {
    var e := FindInherit(entries, card.ord);
    if e.Some? && e.value.source in sources then Copied(card, sources[e.value.source]) else card
  }

  lemma {:induction false} FindsEntry(entries: seq<Inherit>, ord: Ordinal)
    ensures FindInherit(entries, ord).Some? <==> exists e <- entries :: e.ord == ord
    ensures FindInherit(entries, ord).Some? ==> FindInherit(entries, ord).value in entries
                                                && FindInherit(entries, ord).value.ord == ord
  {
    if entries != [] {
      FindsEntry(entries[1..], ord);
      assert forall e <- entries :: e == entries[0] || e in entries[1..];
    }
  }

  function InheritStep(col: Collection, c: CardId, source: Card): Collection
    requires c in col.cards
  {
    col.(cards := col.cards[c := Copied(col.cards[c], source)])
  }

  /** Copying schedules changes nothing but schedules. */
  lemma {:induction false} InheritFrame(col: Collection, nid: NoteId, sources: map<CardId, Card>, entries: seq<Inherit>)
    requires forall e <- entries :: e.source in sources
    ensures var r := InheritAll(col, nid, sources, entries);
            && r.note == nid && r.col == col.(cards := r.col.cards) && r.col.cards.Keys == col.cards.Keys
            && forall c <- col.cards ::
               r.col.cards[c].(sched := col.cards[c].sched, retention := col.cards[c].retention) == col.cards[c]
    decreases |entries|
  {
    if entries != [] && HasOrdinal(col, nid, entries[0].ord) {
      InheritFrame(InheritStep(col, CardAt(col, nid, entries[0].ord), sources[entries[0].source]), nid, sources,
                   entries[1..]);
    }
  }

  lemma InheritStepOrdinals(col: Collection, nid: NoteId, c: CardId, source: Card, o: Ordinal)
    requires c in col.cards
    ensures HasOrdinal(InheritStep(col, c, source), nid, o) <==> HasOrdinal(col, nid, o)
  {
    var next := InheritStep(col, c, source);
    if d :| d in col.cards && col.cards[d].nid == nid && col.cards[d].ord == o { assert next.cards[d].ord == o; }
    if d :| d in next.cards && next.cards[d].nid == nid && next.cards[d].ord == o { assert col.cards[d].ord == o; }
  }

  /** The loop completes exactly when the note has a card for every listed task. */
  lemma {:induction false} InheritDone(col: Collection, nid: NoteId, sources: map<CardId, Card>, entries: seq<Inherit>)
    requires forall e <- entries :: e.source in sources
    ensures InheritAll(col, nid, sources, entries).done <==> forall e <- entries :: HasOrdinal(col, nid, e.ord)
    decreases |entries|
  {
    if entries != [] {
      assert forall e <- entries :: e == entries[0] || e in entries[1..];
      if HasOrdinal(col, nid, entries[0].ord) {
        var c := CardAt(col, nid, entries[0].ord);
        InheritDone(InheritStep(col, c, sources[entries[0].source]), nid, sources, entries[1..]);
        forall e <- entries[1..] { InheritStepOrdinals(col, nid, c, sources[entries[0].source], e.ord); }
      }
    }
  }

  lemma {:induction false} InheritLeaves(col: Collection, nid: NoteId, sources: map<CardId, Card>,
                                         entries: seq<Inherit>, c: CardId)
    requires DistinctOrdinals(col, nid) && DistinctEntries(entries) && forall e <- entries :: e.source in sources
    requires InheritAll(col, nid, sources, entries).done
    requires c in col.cards && col.cards[c].nid == nid
    ensures c in InheritAll(col, nid, sources, entries).col.cards
    ensures InheritAll(col, nid, sources, entries).col.cards[c] == Inherited(col.cards[c], sources, entries)
    decreases |entries|
  {
    if entries != [] {
      var e, rest := entries[0], entries[1..];
      var at := CardAt(col, nid, e.ord);
      var next := InheritStep(col, at, sources[e.source]);
      InheritLeaves(next, nid, sources, rest, c);
      FindsEntry(rest, e.ord);
      assert FindInherit(rest, e.ord).None?;
    }
  }

  function StartNote(col: Collection, mid: ModelId, body: Body): Collection
    requires body.CreateNote?
  {
    col.(notes := col.notes[col.nextId := NoteRow(mid, body.fields, body.tags)], nextId := col.nextId + 1)
  }

  lemma AddNoteRow(col: Collection, body: Body)
    requires WellFormed(col) && body.CreateNote? && PreflightCreate(col, body).None?
    ensures var added := AddNote(col, body);
            && added.notes == col.notes[col.nextId := NoteRow(ModelNamed(col, body.modelName), body.fields, body.tags)]
            && added.models == col.models && added.media == col.media && added.decks == col.decks
  {}

  /** A card of the new note right after `add_note`: there is one for each rendered ordinal. */
  lemma AddedCard(col: Collection, body: Body, c: CardId)
    requires WellFormed(col) && body.CreateNote? && PreflightCreate(col, body).None?
    ensures var cards, next := CardsOf(AddNote(col, body), col.nextId), col.nextId + 1;
            && (c in cards <==> c >= next && Shows(col.models[ModelNamed(col, body.modelName)], body.fields, c - next))
            && (c in cards ==> cards[c] == Card(col.nextId, c - next, body.deck, 0, NewScheduler(next), 0, []))
  {
    var with := StartNote(col, ModelNamed(col, body.modelName), body);
    GeneratedCards(with, col.nextId, body.deck);
    if c >= col.nextId + 1 {
      assert NewCard(with, col.nextId, c)
             <==> Shows(col.models[ModelNamed(col, body.modelName)], body.fields, c - (col.nextId + 1));
    }
  }

  function InheritedOrdinals(entries: seq<Inherit>): set<Ordinal> {
    set e | e in entries :: e.ord
  }

  /** The projection a created note is read back with. */
  function ReadCreate(col: Collection, nid: NoteId, pre: Resolved): NoteProjection
    requires Observable(col, nid)
  {
    ProjectInherited(Observe(col, nid), {}, Some((pre.targetModel, pre.targetManifest)), InheritedOrdinals(pre.inherit))
  }

  ghost predicate Creates(col: Collection, body: Body) {
    && WellFormed(col) && body.CreateNote? && PreflightCreate(col, body).None?
    && DistinctEntries(body.inherit) && PerformCreate(col, body).done
  }

  lemma AddedOrdinals(col: Collection, body: Body)
    requires WellFormed(col) && body.CreateNote? && PreflightCreate(col, body).None?
    ensures DistinctOrdinals(AddNote(col, body), col.nextId)
  {
    var nid, added := col.nextId, AddNote(col, body);
    forall a <- added.cards, b <- added.cards | a != b && added.cards[a].nid == nid && added.cards[b].nid == nid
      ensures added.cards[a].ord != added.cards[b].ord
    {
      AddedCard(col, body, a);
      AddedCard(col, body, b);
      assert a in CardsOf(added, nid) && b in CardsOf(added, nid);
    }
  }

  lemma InheritedProjection(card: Card, c: CardId, col: Collection, templates: nat, pre: Resolved)
    requires InheritRefusal(col, templates, pre.inherit).None?
    requires card == Card(card.nid, card.ord, pre.deck, 0, NewScheduler(card.sched.due), 0, [])
    ensures ProjectCard(c, Inherited(card, col.cards, pre.inherit), {}, InheritedOrdinals(pre.inherit))
            == PredictedTask(card.ord, pre)
  {
    FindsEntry(pre.inherit, card.ord);
    InheritSourcesExist(col, templates, pre.inherit);
  }

  /** The one note after a create. */
  lemma CreatedNote(col: Collection, body: Body)
    requires Creates(col, body)
    ensures var after := PerformCreate(col, body).col;
            && after.notes == col.notes[col.nextId := NoteRow(ModelNamed(col, body.modelName), body.fields, body.tags)]
            && after.models == col.models && after.media == col.media && after.decks == col.decks
            && CardsOf(after, col.nextId).Keys == CardsOf(AddNote(col, body), col.nextId).Keys
  {
    AddNoteRow(col, body);
    InheritSourcesExist(col, |col.models[ModelNamed(col, body.modelName)].templates|, body.inherit);
    InheritFrame(AddNote(col, body), col.nextId, col.cards, body.inherit);
  }

  lemma CreatedValue(col: Collection, body: Body, c: CardId)
    requires Creates(col, body) && c in CardsOf(AddNote(col, body), col.nextId)
    ensures var added, after := CardsOf(AddNote(col, body), col.nextId),
            CardsOf(PerformCreate(col, body).col, col.nextId);
            c in after && after[c] == Inherited(added[c], col.cards, body.inherit)
  {
    CreatedNote(col, body);
    AddedOrdinals(col, body);
    InheritSourcesExist(col, |col.models[ModelNamed(col, body.modelName)].templates|, body.inherit);
    InheritLeaves(AddNote(col, body), col.nextId, col.cards, body.inherit, c);
  }

  lemma CreatedMember(col: Collection, body: Body, c: CardId)
    requires Creates(col, body)
    ensures c in CardsOf(PerformCreate(col, body).col, col.nextId)
            <==> c >= col.nextId + 1
                 && RenderedBy(col.models[ModelNamed(col, body.modelName)], body.fields)(c - (col.nextId + 1))
  {
    CreatedNote(col, body);
    AddedCard(col, body, c);
  }

  lemma CreatedCard(col: Collection, pre: Resolved, body: Body, c: CardId)
    requires Creates(col, body) && body.deck == pre.deck && body.inherit == pre.inherit
    requires c in CardsOf(AddNote(col, body), col.nextId) && c in CardsOf(PerformCreate(col, body).col, col.nextId)
    ensures c >= col.nextId + 1
    ensures ProjectCard(c, CardsOf(PerformCreate(col, body).col, col.nextId)[c], {}, InheritedOrdinals(pre.inherit))
            == PredictedTask(c - (col.nextId + 1), pre)
  {
    AddedCard(col, body, c);
    CreatedValue(col, body, c);
    InheritedProjection(CardsOf(AddNote(col, body), col.nextId)[c], c, col,
                        |col.models[ModelNamed(col, body.modelName)].templates|, pre);
  }

  /** Projections indexed by fresh IDs are the images of the requested ordinals exactly when those render. */
  lemma TasksAsPredicted(got: map<CardId, CardProjection>, next: nat, rendered: Rendered,
                         task: Ordinal -> CardProjection, requested: set<Ordinal>)
    requires forall c: CardId :: c in got <==> c >= next && rendered(c - next)
    requires forall c <- got :: got[c] == task(c - next)
    requires forall o: Ordinal :: task(o).ord == o
    ensures got.Values == (set o | o in requested :: task(o)) <==> forall o: Ordinal :: rendered(o) <==> o in requested
  {
    var want := set o | o in requested :: task(o);
    forall o: Ordinal | rendered(o) ensures task(o) in got.Values {
      assert next + o in got && got[next + o] == task(o);
    }
    if forall o: Ordinal :: rendered(o) <==> o in requested {
      forall p <- got.Values ensures p in want { var c :| c in got && got[c] == p; }
      assert got.Values == want;
    }
    if got.Values == want {
      forall o: Ordinal ensures rendered(o) <==> o in requested {
        if o in requested {
          assert task(o) in got.Values;
          var c :| c in got && got[c] == task(o);
        }
        if rendered(o) { assert task(o) in want; }
      }
    }
  }

  lemma MarkerFinds(col: Collection, body: Body)
    requires Creates(col, body) && body.marker in body.tags
    ensures Tagged(PerformCreate(col, body).col, body.marker) == {col.nextId}
  {
    CreatedNote(col, body);
    var after := PerformCreate(col, body).col;
    assert Tagged(col, body.marker) == {};
    assert forall n <- Tagged(after, body.marker) :: n == col.nextId || n in Tagged(col, body.marker);
    assert col.nextId in Tagged(after, body.marker);
  }

  /** The created note's projection by card ID. */
  ghost function CreatedProjection(col: Collection, body: Body, inherit: seq<Inherit>): map<CardId, CardProjection>
    requires Creates(col, body)
  {
    ProjectCards(CardsOf(PerformCreate(col, body).col, col.nextId), {}, InheritedOrdinals(inherit))
  }

  lemma CreatedProjectionAt(col: Collection, pre: Resolved, body: Body, c: CardId)
    requires Creates(col, body) && body.deck == pre.deck && body.inherit == pre.inherit
    ensures var got, next := CreatedProjection(col, body, pre.inherit), col.nextId + 1;
            && (c in got <==> c >= next
                              && RenderedBy(col.models[ModelNamed(col, body.modelName)], body.fields)(c - next))
            && (c in got ==> got[c] == PredictedTask(c - next, pre))
  {
    CreatedMember(col, body, c);
    CreatedNote(col, body);
    if c in CardsOf(AddNote(col, body), col.nextId) { CreatedCard(col, pre, body, c); }
  }

  lemma CreatedTasks(col: Collection, pre: Resolved, body: Body, requested: set<Ordinal>)
    requires Creates(col, body) && body.deck == pre.deck && body.inherit == pre.inherit
    ensures CreatedProjection(col, body, pre.inherit).Values == PredictedTasks(requested, pre)
            <==> forall o: Ordinal ::
                   RenderedBy(col.models[ModelNamed(col, body.modelName)], body.fields)(o) <==> o in requested
  {
    hide WellFormed, PerformCreate, CreatedProjection, PredictedTasks, InheritRefusal;
    var task := (o: Ordinal) => PredictedTask(o, pre);
    var got := CreatedProjection(col, body, pre.inherit);
    forall c: CardId { CreatedProjectionAt(col, pre, body, c); }
    TasksAsPredicted(got, col.nextId + 1, RenderedBy(col.models[ModelNamed(col, body.modelName)], body.fields), task,
                     requested);
    SameTasks(task, requested, pre);
  }

  lemma SameTasks(task: Ordinal -> CardProjection, requested: set<Ordinal>, pre: Resolved)
    requires forall o: Ordinal :: task(o) == PredictedTask(o, pre)
    ensures (set o | o in requested :: task(o)) == PredictedTasks(requested, pre)
  {}

  /** An accepted create whose schedules were all copied: its marker finds exactly the new note, and the
      read-back equals the frozen prediction exactly when the templates render the requested tasks. */
  lemma CreateAsPredicted(col: Collection, item: Item, pre: Resolved, body: Body, marker: string)
    requires ResolvedOn(col, item, pre) && IsCreateBody(body, item, pre, marker) && body.marker in body.tags
             && Creates(col, body)
    ensures var after := PerformCreate(col, body).col;
            && Observable(after, col.nextId) && Tagged(after, marker) == {col.nextId}
            && (ReadCreate(after, col.nextId, pre) == Desired(item, pre, marker).value
                <==> forall o: Ordinal ::
                    RenderedBy(col.models[pre.targetModel], item.fields)(o) <==> o in item.requested)
  {
    var nid, after := col.nextId, PerformCreate(col, body).col;
    assert ModelNamed(col, body.modelName) == pre.targetModel;
    CreatedNote(col, body);
    MarkerFinds(col, body);
    CreatedTasks(col, pre, body, item.requested);
  }
}
