/** What every effect keeps, whatever the collection: identifiers stay well formed, and study is
    conserved even when an effect is cut short. */
module EffectLaws {
  import opened Wrappers
  import opened Anki
  import opened Effects

  // ---------------------------------------------------------------- study is conserved

  /** Scheduling and history of a card, which no effect may change. */
  predicate SameStudy(a: Card, b: Card) {
    a.nid == b.nid && a.sched == b.sched && a.retention == b.retention && a.history == b.history
  }

  /** Every card of `before` keeps its schedule and history, unless it is gone and was never studied. */
  ghost predicate StudyConserved(before: Collection, after: Collection) {
    forall c <- before.cards ::
      if c in after.cards then SameStudy(before.cards[c], after.cards[c]) else !Studied(before.cards[c])
  }

  lemma GenerateKeeps(col: Collection, nid: NoteId, did: DeckId)
    requires Observable(col, nid)
    requires forall c <- col.cards :: c < col.nextId
    ensures var g := Generate(col, nid, did);
            forall c <- col.cards :: c in g.cards && g.cards[c] == col.cards[c]
  {}

  lemma RetypeKeeps(col: Collection, nid: NoteId, migration: Option<Migration>)
    requires nid in col.notes && (migration.Some? ==> migration.value.targetModel in col.models)
    ensures var t := Retype(col, nid, migration);
            && t.cards.Keys <= col.cards.Keys && t.nextId == col.nextId
            && (forall c <- t.cards :: SameStudy(col.cards[c], t.cards[c])
                                       && t.cards[c].did == col.cards[c].did && t.cards[c].odid == col.cards[c].odid)
            && (forall c <- col.cards ::
                  c !in t.cards <==> col.cards[c].nid == nid && migration.Some?
                                     && !Maps(migration.value.ordinals, col.cards[c].ord))
  {}

  lemma RewriteConserves(col: Collection, nid: NoteId, migration: Option<Migration>, fields: Fields, tags: seq<string>)
    requires WellFormed(col) && Observable(col, nid)
    requires migration.Some? ==> migration.value.targetModel in col.models
    requires forall c <- col.cards ::
               col.cards[c].nid == nid && migration.Some? && !Maps(migration.value.ordinals, col.cards[c].ord)
               ==> !Studied(col.cards[c])
    ensures StudyConserved(col, Retype(col, nid, migration))
    ensures StudyConserved(col, Rewrite(col, nid, migration, fields, tags))
  {
    RetypeKeeps(col, nid, migration);
    var typed := Retype(col, nid, migration);
    var written := SetNote(typed, nid, typed.notes[nid].fields + fields, tags);
    GenerateKeeps(written, nid, DEFAULT_DECK);
  }

  lemma MoveConserves(before: Collection, mid: Collection, decks: map<CardId, DeckId>)
    requires StudyConserved(before, mid)
    ensures StudyConserved(before, MoveCards(mid, decks))
  {}

  lemma {:induction false} InheritConserves(before: Collection, col: Collection, nid: NoteId,
                                            sources: map<CardId, Card>, entries: seq<Inherit>)
    requires forall e <- entries :: e.source in sources
    requires StudyConserved(before, col)
    requires forall c <- before.cards :: before.cards[c].nid != nid
    ensures StudyConserved(before, InheritAll(col, nid, sources, entries).col)
    decreases |entries|
  {
    if entries != [] && HasOrdinal(col, nid, entries[0].ord) {
      var c := CardAt(col, nid, entries[0].ord);
      var next := col.(cards := col.cards[c := Copied(col.cards[c], sources[entries[0].source])]);
      assert c !in before.cards;
      InheritConserves(before, next, nid, sources, entries[1..]);
    }
  }

  lemma AddNoteConserves(col: Collection, body: Body)
    requires WellFormed(col) && body.CreateNote? && PreflightCreate(col, body).None?
    ensures StudyConserved(col, AddNote(col, body))
    ensures forall c <- col.cards :: col.cards[c].nid != col.nextId
  {
    var mid := ModelNamed(col, body.modelName);
    var with := col.(notes := col.notes[col.nextId := NoteRow(mid, body.fields, body.tags)], nextId := col.nextId + 1);
    GenerateKeeps(with, col.nextId, body.deck);
  }

  lemma UpdateConserves(col: Collection, body: Body, decks: map<CardId, DeckId>)
    requires WellFormed(col) && body.UpdateNote? && PreflightUpdate(col, body).None?
    ensures var after := Rewrite(col, body.nid, body.migration, body.fields,
                                 AddTags(col.notes[body.nid].tags, body.addTags));
            && StudyConserved(col, Retype(col, body.nid, body.migration))
            && StudyConserved(col, MoveCards(after, decks))
  {
    var note := Observe(col, body.nid);
    forall c <- col.cards | col.cards[c].nid == body.nid && body.migration.Some?
      ensures Maps(body.migration.value.ordinals, col.cards[c].ord)
    {
      assert c in note.cards;
    }
    var tags := AddTags(col.notes[body.nid].tags, body.addTags);
    RewriteConserves(col, body.nid, body.migration, body.fields, tags);
    MoveConserves(col, Rewrite(col, body.nid, body.migration, body.fields, tags), decks);
  }

  lemma RestoreConserves(col: Collection, body: Body, decks: map<CardId, DeckId>)
    requires WellFormed(col) && body.RestoreNote? && PreflightRestore(col, body).None?
    ensures StudyConserved(col, Retype(col, body.nid, body.migration))
    ensures StudyConserved(col, MoveCards(Rewrite(col, body.nid, body.migration, body.fields, body.tags), decks))
  {
    var note := Observe(col, body.nid);
    forall c <- col.cards | col.cards[c].nid == body.nid && body.migration.Some?
                            && !Maps(body.migration.value.ordinals, col.cards[c].ord)
      ensures !Studied(col.cards[c])
    {
      assert c in Dropped(note, body.migration) && c in note.cards;
    }
    RewriteConserves(col, body.nid, body.migration, body.fields, body.tags);
    MoveConserves(col, Rewrite(col, body.nid, body.migration, body.fields, body.tags), decks);
  }

  lemma CreateConserves(col: Collection, body: Body, k: nat)
    requires WellFormed(col) && body.CreateNote? && PreflightCreate(col, body).None?
    requires k <= |body.inherit|
    requires forall e <- body.inherit[..k] :: e.source in col.cards
    ensures StudyConserved(col, InheritAll(AddNote(col, body), col.nextId, col.cards, body.inherit[..k]).col)
  {
    AddNoteConserves(col, body);
    InheritConserves(col, AddNote(col, body), col.nextId, col.cards, body.inherit[..k]);
  }

  lemma DeleteConserves(col: Collection, body: Body)
    requires body.DeleteCreated? && PreflightDelete(col, body).None?
    ensures StudyConserved(col, RemoveNote(col, body.nid))
  {
    var note := Observe(col, body.nid);
    forall c <- col.cards | col.cards[c].nid == body.nid ensures !Studied(col.cards[c]) { assert c in note.cards; }
  }

  lemma StudySame(col: Collection)
    ensures StudyConserved(col, col)
  {}

  lemma UpdateCutsConserve(col: Collection, body: Body, mid: Collection)
    requires WellFormed(col) && body.UpdateNote? && Accepts(col, body) && Passes(col, body, mid)
    ensures StudyConserved(col, mid)
  {
    hide WellFormed, StudyConserved, Rewrite, PreflightUpdate;
    StudySame(col);
    forall decks { UpdateConserves(col, body, decks); }
  }

  lemma RestoreCutsConserve(col: Collection, body: Body, mid: Collection)
    requires WellFormed(col) && body.RestoreNote? && Accepts(col, body) && Passes(col, body, mid)
    ensures StudyConserved(col, mid)
  {
    hide WellFormed, StudyConserved, Rewrite, PreflightRestore;
    StudySame(col);
    forall decks { RestoreConserves(col, body, decks); }
  }

  lemma CreateCutsConserve(col: Collection, body: Body, mid: Collection)
    requires WellFormed(col) && body.CreateNote? && Accepts(col, body) && Passes(col, body, mid)
    ensures StudyConserved(col, mid)
  {
    InheritSourcesExist(col, |col.models[ModelNamed(col, body.modelName)].templates|, body.inherit);
    forall k | 0 <= k <= |body.inherit| { CreateConserves(col, body, k); }
    assert body.inherit[..|body.inherit|] == body.inherit;
  }

  /** No effect, complete or cut short anywhere, removes a studied card or changes the schedule
      or history of a card that existed before it. */
  lemma EffectsConserveStudy(col: Collection, body: Body, mid: Collection)
    requires WellFormed(col) && Accepts(col, body)
    requires Passes(col, body, mid)
    ensures StudyConserved(col, mid)
  {
    match body
    case StoreMedia(_, _, _) =>
    case ExportCheckpoint(_) =>
    case DeleteCreated(_, _) => DeleteConserves(col, body);
    case UpdateNote(_, _, _, _, _, _) => UpdateCutsConserve(col, body, mid);
    case RestoreNote(_, _, _, _, _, _, _) => RestoreCutsConserve(col, body, mid);
    case CreateNote(_, _, _, _, _, _, _) => CreateCutsConserve(col, body, mid);
  }

  // ---------------------------------------------------------------- ordinal maps

  lemma {:induction false} TargetIsMapped(ordinals: seq<Mapping>, source: Ordinal)
    requires Maps(ordinals, source)
    ensures Mapping(source, TargetOf(ordinals, source)) in ordinals
    decreases |ordinals|
  {
    if ordinals[0].source != source {
      assert forall m <- ordinals :: m == ordinals[0] || m in ordinals[1..];
      TargetIsMapped(ordinals[1..], source);
    }
  }

  lemma InjectiveEntries(ordinals: seq<Mapping>, a: Mapping, b: Mapping)
    requires InjectiveMap(ordinals) && a in ordinals && b in ordinals
    requires a.source == b.source || a.target == b.target
    ensures a == b
  {
    var i :| 0 <= i < |ordinals| && ordinals[i] == a;
    var j :| 0 <= j < |ordinals| && ordinals[j] == b;
    assert i == j;
  }

  lemma TargetsInjective(ordinals: seq<Mapping>, a: Ordinal, b: Ordinal)
    requires InjectiveMap(ordinals) && Maps(ordinals, a) && Maps(ordinals, b)
    requires TargetOf(ordinals, a) == TargetOf(ordinals, b)
    ensures a == b
  {
    TargetIsMapped(ordinals, a);
    TargetIsMapped(ordinals, b);
    InjectiveEntries(ordinals, Mapping(a, TargetOf(ordinals, a)), Mapping(b, TargetOf(ordinals, b)));
  }

  predicate Kept(migration: Option<Migration>, ord: Ordinal) {
    migration.Some? ==> Maps(migration.value.ordinals, ord)
  }

  /** Where a kept card's ordinal goes. */
  function NewOrdinal(migration: Option<Migration>, ord: Ordinal): Ordinal
    requires Kept(migration, ord)
  {
    if migration.Some? then TargetOf(migration.value.ordinals, ord) else ord
  }

  // ---------------------------------------------------------------- what one rewrite leaves

  lemma RetypeWellFormed(col: Collection, nid: NoteId, migration: Option<Migration>)
    requires WellFormed(col) && nid in col.notes && ValidMigration(migration)
    requires migration.Some? ==> migration.value.targetModel in col.models
    ensures WellFormed(Retype(col, nid, migration))
  {
    var t := Retype(col, nid, migration);
    forall c <- t.cards, d <- t.cards | c != d && t.cards[c].nid == t.cards[d].nid
      ensures t.cards[c].ord != t.cards[d].ord
    {
      if t.cards[c].nid == nid && migration.Some? && t.cards[c].ord == t.cards[d].ord {
        TargetsInjective(migration.value.ordinals, col.cards[c].ord, col.cards[d].ord);
      }
    }
  }

  lemma GenerateWellFormed(col: Collection, nid: NoteId, did: DeckId)
    requires WellFormed(col) && nid in col.notes
    ensures WellFormed(Generate(col, nid, did))
  {
    GenerateKeeps(col, nid, did);
  }

  lemma RewriteWellFormed(col: Collection, nid: NoteId, migration: Option<Migration>, fields: Fields, tags: seq<string>)
    requires WellFormed(col) && nid in col.notes && ValidMigration(migration)
    requires migration.Some? ==> migration.value.targetModel in col.models
    requires fields.Keys == FinalFields(col, migration, Observe(col, nid))
    ensures WellFormed(Rewrite(col, nid, migration, fields, tags))
  {
    RetypeWellFormed(col, nid, migration);
    var typed := Retype(col, nid, migration);
    assert typed.notes[nid].fields.Keys == fields.Keys;
    assert typed.notes[nid].fields + fields == fields;
    GenerateWellFormed(SetNote(typed, nid, fields, tags), nid, DEFAULT_DECK);
  }

  lemma {:induction false} InheritWellFormed(col: Collection, nid: NoteId, sources: map<CardId, Card>,
                                             entries: seq<Inherit>)
    requires WellFormed(col) && forall e <- entries :: e.source in sources
    ensures WellFormed(InheritAll(col, nid, sources, entries).col)
    decreases |entries|
  {
    if entries != [] && HasOrdinal(col, nid, entries[0].ord) {
      var c := CardAt(col, nid, entries[0].ord);
      InheritWellFormed(col.(cards := col.cards[c := Copied(col.cards[c], sources[entries[0].source])]),
                        nid, sources, entries[1..]);
    }
  }

  lemma MoveWellFormed(col: Collection, decks: map<CardId, DeckId>)
    requires WellFormed(col)
    ensures WellFormed(MoveCards(col, decks))
  {}

  lemma CreateWellFormed(col: Collection, body: Body)
    requires WellFormed(col) && body.CreateNote? && PreflightCreate(col, body).None?
    ensures WellFormed(AddNote(col, body)) && WellFormed(PerformCreate(col, body).col)
  {
    var mid := ModelNamed(col, body.modelName);
    var with := col.(notes := col.notes[col.nextId := NoteRow(mid, body.fields, body.tags)], nextId := col.nextId + 1);
    GenerateWellFormed(with, col.nextId, body.deck);
    InheritSourcesExist(col, |col.models[mid].templates|, body.inherit);
    InheritWellFormed(AddNote(col, body), col.nextId, col.cards, body.inherit);
  }

  lemma UpdateWellFormed(col: Collection, body: Body, decks: map<CardId, DeckId>)
    requires WellFormed(col) && body.UpdateNote? && PreflightUpdate(col, body).None? && ValidBody(body)
    ensures WellFormed(MoveCards(Rewrite(col, body.nid, body.migration, body.fields,
                                         AddTags(col.notes[body.nid].tags, body.addTags)), decks))
  {
    var tags := AddTags(col.notes[body.nid].tags, body.addTags);
    RewriteWellFormed(col, body.nid, body.migration, body.fields, tags);
    MoveWellFormed(Rewrite(col, body.nid, body.migration, body.fields, tags), decks);
  }

  lemma RestoreWellFormed(col: Collection, body: Body, decks: map<CardId, DeckId>)
    requires WellFormed(col) && body.RestoreNote? && PreflightRestore(col, body).None? && ValidBody(body)
    ensures WellFormed(MoveCards(Rewrite(col, body.nid, body.migration, body.fields, body.tags), decks))
  {
    RewriteWellFormed(col, body.nid, body.migration, body.fields, body.tags);
    MoveWellFormed(Rewrite(col, body.nid, body.migration, body.fields, body.tags), decks);
  }

  /** A complete effect of a validated body keeps the collection well formed: the validator's
      injectivity is what keeps a note's card ordinals distinct. */
  lemma EffectsKeepWellFormed(col: Collection, body: Body)
    requires WellFormed(col) && Accepts(col, body) && ValidBody(body)
    ensures WellFormed(Perform(col, body).col)
  {
    match body
    case StoreMedia(_, _, _) =>
    case ExportCheckpoint(_) =>
    case DeleteCreated(nid, _) =>
    case UpdateNote(nid, _, migration, fields, addTags, deck) =>
      var after := Rewrite(col, nid, migration, fields, AddTags(col.notes[nid].tags, addTags));
      UpdateWellFormed(col, body, Everywhere(CardsOf(after, nid).Keys, deck));
    case RestoreNote(_, _, _, _, _, decks, _) => RestoreWellFormed(col, body, decks);
    case CreateNote(_, _, _, _, _, _, _) => CreateWellFormed(col, body);
  }

  // ---------------------------------------------------------------- the cards a rewrite leaves

  function ModelAfter(col: Collection, nid: NoteId, migration: Option<Migration>): ModelId
    requires nid in col.notes
  {
    if migration.Some? then migration.value.targetModel else col.notes[nid].mid
  }

  /** Where a migration sends an ordinal, if anywhere, and which ordinals render. */
  type Route = Ordinal -> Option<Ordinal>
  type Rendered = Ordinal -> bool

  function RouteOf(migration: Option<Migration>): Route {
    (o: Ordinal) => if Kept(migration, o) then Some(NewOrdinal(migration, o)) else None
  }

  function RenderedBy(model: Model, fields: Fields): Rendered {
    (o: Ordinal) => Shows(model, fields, o)
  }

  /** An ordinal that gets a fresh card: its template renders and no kept card lands on it. */
  ghost predicate Uncovered(cards: map<CardId, Card>, route: Route, rendered: Rendered, ord: Ordinal) {
    rendered(ord) && forall c <- cards :: route(cards[c].ord) != Some(ord)
  }

  ghost predicate KeptCard(card: Card, route: Route, out: Card) {
    && route(card.ord) == Some(out.ord)
    && SameStudy(card, out) && out.odid == card.odid
  }

  ghost predicate FreshCard(ord: Ordinal, out: Card) {
    out.ord == ord && out.odid == 0 && out.history == [] && out.sched == NewScheduler(out.sched.due)
  }

  /** `out` has exactly the kept cards of `cards`, at their new ordinals, and one fresh card for each
      uncovered ordinal, whatever the decks. */
  ghost predicate Rewritten(cards: map<CardId, Card>, next: nat, route: Route, rendered: Rendered,
                            out: map<CardId, Card>) {
    && (forall c <- cards :: c < next && (route(cards[c].ord).Some? ==> c in out))
    && (forall c <- out :: if c in cards then KeptCard(cards[c], route, out[c])
                           else c >= next && Uncovered(cards, route, rendered, c - next) && FreshCard(c - next, out[c]))
    && (forall o: Ordinal | Uncovered(cards, route, rendered, o) :: next + o in out)
  }

  function Written(col: Collection, nid: NoteId, migration: Option<Migration>, fields: Fields,
                   tags: seq<string>): Collection
    requires nid in col.notes && (migration.Some? ==> migration.value.targetModel in col.models)
  {
    SetNote(Retype(col, nid, migration), nid, fields, tags)
  }

  lemma GeneratedCards(col: Collection, nid: NoteId, did: DeckId)
    requires Observable(col, nid) && forall c <- col.cards :: c < col.nextId
    ensures var cards := CardsOf(Generate(col, nid, did), nid);
            && (forall c <- cards :: if c in col.cards then col.cards[c].nid == nid && cards[c] == col.cards[c]
                                     else NewCard(col, nid, c)
                                          && cards[c] == Card(nid, c - col.nextId, did, 0, NewScheduler(col.nextId), 0,
                                                              []))
            && (forall c <- col.cards | col.cards[c].nid == nid :: c in cards)
            && (forall c: CardId | NewCard(col, nid, c) :: c in cards && c !in col.cards)
  {}

  lemma WrittenKeeps(col: Collection, nid: NoteId, migration: Option<Migration>, fields: Fields, tags: seq<string>,
                     c: CardId)
    requires Observable(col, nid) && (migration.Some? ==> migration.value.targetModel in col.models)
    ensures var w, cards := Written(col, nid, migration, fields, tags), CardsOf(col, nid);
            && (c in w.cards && w.cards[c].nid == nid
                ==> c in cards && KeptCard(cards[c], RouteOf(migration), w.cards[c]))
            && (c in cards && RouteOf(migration)(cards[c].ord).Some? ==> c in w.cards && w.cards[c].nid == nid)
  {}

  lemma WrittenLacks(col: Collection, nid: NoteId, migration: Option<Migration>, fields: Fields, tags: seq<string>,
                     c: CardId)
    requires Observable(col, nid) && (migration.Some? ==> migration.value.targetModel in col.models)
    requires c >= col.nextId
    ensures NewCard(Written(col, nid, migration, fields, tags), nid, c)
            <==> Uncovered(CardsOf(col, nid), RouteOf(migration),
                           RenderedBy(col.models[ModelAfter(col, nid, migration)], fields), c - col.nextId)
  {
    var w, cards := Written(col, nid, migration, fields, tags), CardsOf(col, nid);
    if d :| d in cards && RouteOf(migration)(cards[d].ord) == Some(c - col.nextId) {
      WrittenKeeps(col, nid, migration, fields, tags, d);
      assert w.cards[d].ord == c - col.nextId;
    }
    if HasOrdinal(w, nid, c - col.nextId) {
      var d :| d in w.cards && w.cards[d].nid == nid && w.cards[d].ord == c - col.nextId;
      WrittenKeeps(col, nid, migration, fields, tags, d);
    }
  }

  ghost predicate Rewritable(col: Collection, nid: NoteId, migration: Option<Migration>, fields: Fields) {
    && WellFormed(col) && nid in col.notes
    && (migration.Some? ==> migration.value.targetModel in col.models)
    && fields.Keys == FinalFields(col, migration, Observe(col, nid))
  }

  lemma RewriteIsGenerate(col: Collection, nid: NoteId, migration: Option<Migration>, fields: Fields, tags: seq<string>)
    requires Rewritable(col, nid, migration, fields)
    ensures Rewrite(col, nid, migration, fields, tags)
            == Generate(Written(col, nid, migration, fields, tags), nid, DEFAULT_DECK)
  {
    assert Retype(col, nid, migration).notes[nid].fields + fields == fields;
  }

  lemma RewriteRow(col: Collection, nid: NoteId, migration: Option<Migration>, fields: Fields, tags: seq<string>)
    requires Rewritable(col, nid, migration, fields)
    ensures var r := Rewrite(col, nid, migration, fields, tags);
            && r.notes == col.notes[nid := NoteRow(ModelAfter(col, nid, migration), fields, tags)]
            && r.models == col.models && r.decks == col.decks && r.media == col.media && r.nextId >= col.nextId
  {
    RewriteIsGenerate(col, nid, migration, fields, tags);
  }

  /** The rendered ordinals of a note after a rewrite. */
  function RenderedAfter(col: Collection, nid: NoteId, migration: Option<Migration>, fields: Fields): Rendered
    requires nid in col.notes && ModelAfter(col, nid, migration) in col.models
  {
    RenderedBy(col.models[ModelAfter(col, nid, migration)], fields)
  }

  /** `Rewritten`, read at one card ID. */
  ghost predicate RewrittenAt(cards: map<CardId, Card>, next: nat, route: Route, rendered: Rendered,
                              out: map<CardId, Card>, c: CardId) {
    && (c in cards ==> c < next && (route(cards[c].ord).Some? ==> c in out))
    && (c in out ==> if c in cards then KeptCard(cards[c], route, out[c])
                     else c >= next && Uncovered(cards, route, rendered, c - next) && FreshCard(c - next, out[c]))
    && (c >= next && Uncovered(cards, route, rendered, c - next) ==> c in out)
  }

  lemma RewrittenEverywhere(cards: map<CardId, Card>, next: nat, route: Route, rendered: Rendered,
                            out: map<CardId, Card>)
    requires forall c: CardId :: RewrittenAt(cards, next, route, rendered, out, c)
    ensures Rewritten(cards, next, route, rendered, out)
  {
    forall o: Ordinal | Uncovered(cards, route, rendered, o) ensures next + o in out {
      assert RewrittenAt(cards, next, route, rendered, out, next + o);
    }
    assert forall c <- cards :: RewrittenAt(cards, next, route, rendered, out, c);
    assert forall c <- out :: RewrittenAt(cards, next, route, rendered, out, c);
  }

  lemma GeneratedCard(col: Collection, nid: NoteId, migration: Option<Migration>, fields: Fields, tags: seq<string>,
                      c: CardId)
    requires Rewritable(col, nid, migration, fields)
    ensures RewrittenAt(CardsOf(col, nid), col.nextId, RouteOf(migration), RenderedAfter(col, nid, migration, fields),
                        CardsOf(Generate(Written(col, nid, migration, fields, tags), nid, DEFAULT_DECK), nid), c)
  {
    RetypeKeeps(col, nid, migration);
    var w := Written(col, nid, migration, fields, tags);
    assert w.nextId == col.nextId;
    GeneratedCards(w, nid, DEFAULT_DECK);
    WrittenKeeps(col, nid, migration, fields, tags, c);
    if c >= col.nextId { WrittenLacks(col, nid, migration, fields, tags, c); }
  }

  lemma RewriteCards(col: Collection, nid: NoteId, migration: Option<Migration>, fields: Fields, tags: seq<string>)
    requires Rewritable(col, nid, migration, fields)
    ensures Rewritten(CardsOf(col, nid), col.nextId, RouteOf(migration), RenderedAfter(col, nid, migration, fields),
                      CardsOf(Rewrite(col, nid, migration, fields, tags), nid))
  {
    RewriteIsGenerate(col, nid, migration, fields, tags);
    forall c: CardId { GeneratedCard(col, nid, migration, fields, tags, c); }
    RewrittenEverywhere(CardsOf(col, nid), col.nextId, RouteOf(migration), RenderedAfter(col, nid, migration, fields),
                        CardsOf(Rewrite(col, nid, migration, fields, tags), nid));
  }

  /** Moving cards changes decks only. */
  lemma MovedCards(col: Collection, nid: NoteId, decks: map<CardId, DeckId>)
    ensures var out, moved := CardsOf(col, nid), CardsOf(MoveCards(col, decks), nid);
            && moved.Keys == out.Keys
            && forall c <- out :: moved[c] == if c in decks then out[c].(did := decks[c]) else out[c]
  {}

  lemma RewrittenAnyDeck(cards: map<CardId, Card>, next: nat, route: Route, rendered: Rendered,
                         out: map<CardId, Card>, moved: map<CardId, Card>)
    requires Rewritten(cards, next, route, rendered, out)
    requires moved.Keys == out.Keys && forall c <- out :: moved[c] == out[c].(did := moved[c].did)
    ensures Rewritten(cards, next, route, rendered, moved)
  {}
}
