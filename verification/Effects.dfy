/** The companion's typed effects: a read-only preflight that refuses before any write, and a
    perform that writes.  Both are functions of the collection here; module `LiveCollection`
    performs the same writes in place. */
module Effects {
  import opened Wrappers
  import opened Anki

  datatype Inherit = Inherit(ord: Ordinal, source: CardId, sched: Scheduler)

  datatype Body =
    | StoreMedia(filename: string, sha256: string, size: nat)
    | CreateNote(modelName: string, manifest: string, deck: DeckId, fields: Fields,
                 tags: seq<string>, marker: string, inherit: seq<Inherit>)
    | UpdateNote(nid: NoteId, pre: Content, migration: Option<Migration>, fields: Fields,
                 addTags: seq<string>, deck: DeckId)
    | RestoreNote(nid: NoteId, pre: Content, migration: Option<Migration>, fields: Fields,
                  tags: seq<string>, decks: map<CardId, DeckId>, removed: set<CardId>)
    | DeleteCreated(nid: NoteId, pre: Content)
    | ExportCheckpoint(includeMedia: bool)

  datatype Refusal =
    | NoteMissing | PreconditionFailed | FilteredDeck | DeckInvalid | FsrsPresetChange
    | MigrationDropsCard | ModelMismatch | MigrationMapInvalid | FieldsMismatch
    | RemovalRequiresMapping | ReverseMappingMismatch | StudiedCardRemoval | CardSetMismatch
    | StudiedNote | MediaCollision | InheritOrdinalInvalid

  // ---------------------------------------------------------------- payload validation

  predicate InjectiveMap(ordinals: seq<Mapping>) {
    && (forall i, j | 0 <= i < j < |ordinals| :: ordinals[i].source != ordinals[j].source)
    && (forall i, j | 0 <= i < j < |ordinals| :: ordinals[i].target != ordinals[j].target)
  }

  predicate ValidMigration(migration: Option<Migration>) {
    migration.Some? ==> 1 <= |migration.value.ordinals| <= 64 && InjectiveMap(migration.value.ordinals)
  }

  /** What the payload validator grants for a body. */
  predicate ValidBody(body: Body) {
    match body
    case UpdateNote(_, _, migration, _, _, _) => ValidMigration(migration)
    case RestoreNote(_, _, migration, _, _, decks, removed) =>
      ValidMigration(migration) && decks.Keys !! removed && decks.Keys != {}
    case CreateNote(_, _, _, _, tags, marker, inherit) =>
      marker in tags && forall i, j | 0 <= i < j < |inherit| :: inherit[i].ord != inherit[j].ord
    case _ => true
  }

  // ---------------------------------------------------------------- preflights

  predicate ValidDeck(col: Collection, deck: DeckId) {
    deck in col.decks && !col.decks[deck].filtered
  }

  /** A move is refused when it would carry an FSRS memory state into another preset. */
  predicate MovesPreset(col: Collection, card: Card, deck: DeckId) {
    && card.did != deck
    && card.sched.memory.Some?
    && !(card.did in col.decks && deck in col.decks && col.decks[card.did].preset == col.decks[deck].preset)
  }

  predicate InFilteredDeck(note: ObservedNote) {
    exists c <- note.cards :: note.cards[c].odid != 0
  }

  function MigrationRefusal(col: Collection, migration: Migration, note: ObservedNote): Option<Refusal> {
    if migration.sourceModel !in col.models || migration.targetModel !in col.models
       || note.mid != migration.sourceModel
       || col.models[migration.targetModel].name != migration.targetName then
      Some(ModelMismatch)
    else if exists m <- migration.ordinals ::
              || m.source >= |col.models[migration.sourceModel].templates|
              || m.target >= |col.models[migration.targetModel].templates| then
      Some(MigrationMapInvalid)
    else None
  }

  function FinalFields(col: Collection, migration: Option<Migration>, note: ObservedNote): set<string>
    requires migration.Some? ==> migration.value.targetModel in col.models
  {
    if migration.Some? then col.models[migration.value.targetModel].fields else note.fields.Keys
  }

  function FieldsRefusal(col: Collection, migration: Option<Migration>, note: ObservedNote, fields: Fields)
    : Option<Refusal>
    requires migration.Some? ==> migration.value.targetModel in col.models
  {
    if FinalFields(col, migration, note) != fields.Keys then Some(FieldsMismatch) else None
  }

  function PreflightUpdate(col: Collection, body: Body): Option<Refusal>
    requires body.UpdateNote?
  {
    if !Observable(col, body.nid) then Some(NoteMissing)
    else
      var note := Observe(col, body.nid);
      if ContentOf(note) != body.pre then Some(PreconditionFailed)
      else if InFilteredDeck(note) then Some(FilteredDeck)
      else if !ValidDeck(col, body.deck) then Some(DeckInvalid)
      else if exists c <- note.cards :: MovesPreset(col, note.cards[c], body.deck) then Some(FsrsPresetChange)
      else if body.migration.None? then FieldsRefusal(col, None, note, body.fields)
      else
        var migration := body.migration.value;
        if exists c <- note.cards :: !Maps(migration.ordinals, note.cards[c].ord) then Some(MigrationDropsCard)
        else if MigrationRefusal(col, migration, note).Some? then MigrationRefusal(col, migration, note)
        else FieldsRefusal(col, body.migration, note, body.fields)
  }

  /** Cards of the note that the reverse mapping drops. */
  function Dropped(note: ObservedNote, migration: Option<Migration>): set<CardId> {
    if migration.None? then {}
    else set c | c in note.cards && !Maps(migration.value.ordinals, note.cards[c].ord)
  }

  function PreflightRestore(col: Collection, body: Body): Option<Refusal>
    requires body.RestoreNote?
  {
    if !Observable(col, body.nid) then Some(NoteMissing)
    else
      var note := Observe(col, body.nid);
      if ContentOf(note) != body.pre then Some(PreconditionFailed)
      else if InFilteredDeck(note) then Some(FilteredDeck)
      else if body.migration.None? && body.removed != {} then Some(RemovalRequiresMapping)
      else if Dropped(note, body.migration) != body.removed then Some(ReverseMappingMismatch)
      else if exists c <- note.cards :: c in body.removed && Studied(note.cards[c]) then Some(StudiedCardRemoval)
      else if note.cards.Keys - body.removed != body.decks.Keys then Some(CardSetMismatch)
      else if exists c <- body.decks :: !ValidDeck(col, body.decks[c]) then Some(DeckInvalid)
      else if exists c <- note.cards :: c in body.decks && MovesPreset(col, note.cards[c], body.decks[c]) then
        Some(FsrsPresetChange)
      else if body.migration.None? then FieldsRefusal(col, None, note, body.fields)
      else if MigrationRefusal(col, body.migration.value, note).Some? then
        MigrationRefusal(col, body.migration.value, note)
      else FieldsRefusal(col, body.migration, note, body.fields)
  }

  function ModelsNamed(col: Collection, name: string): set<ModelId> {
    set m | m in col.models && col.models[m].name == name
  }

  function ModelNamed(col: Collection, name: string): ModelId
    requires ModelsNamed(col, name) != {}
  {
    Least(ModelsNamed(col, name))
  }

  /** The first refusal of the cards whose schedule a new note copies. */
  function InheritRefusal(col: Collection, templates: nat, entries: seq<Inherit>): Option<Refusal> {
    if entries == [] then None
    else
      var e := entries[0];
      if e.ord >= templates then Some(InheritOrdinalInvalid)
      else if e.source !in col.cards then Some(PreconditionFailed)
      else if col.cards[e.source].odid != 0 then Some(FilteredDeck)
      else if col.cards[e.source].sched != e.sched then Some(PreconditionFailed)
      else InheritRefusal(col, templates, entries[1..])
  }

  function PreflightCreate(col: Collection, body: Body): Option<Refusal>
    requires body.CreateNote?
  {
    if Tagged(col, body.marker) != {} then Some(PreconditionFailed)
    else if ModelsNamed(col, body.modelName) == {} then Some(ModelMismatch)
    else
      var model := col.models[ModelNamed(col, body.modelName)];
      if model.manifest != body.manifest then Some(ModelMismatch)
      else if !ValidDeck(col, body.deck) then Some(DeckInvalid)
      else if model.fields != body.fields.Keys then Some(FieldsMismatch)
      else InheritRefusal(col, |model.templates|, body.inherit)
  }

  function PreflightDelete(col: Collection, body: Body): Option<Refusal>
    requires body.DeleteCreated?
  {
    if !Observable(col, body.nid) then Some(NoteMissing)
    else
      var note := Observe(col, body.nid);
      if ContentOf(note) != body.pre then Some(PreconditionFailed)
      else if exists c <- note.cards :: Studied(note.cards[c]) then Some(StudiedNote)
      else None
  }

  function PreflightMedia(col: Collection, body: Body): Option<Refusal>
    requires body.StoreMedia?
  {
    if body.filename in col.media && col.media[body.filename].sha256 != body.sha256 then Some(MediaCollision)
    else None
  }

  function Preflight(col: Collection, body: Body): Option<Refusal> {
    match body
    case StoreMedia(_, _, _) => PreflightMedia(col, body)
    case CreateNote(_, _, _, _, _, _, _) => PreflightCreate(col, body)
    case UpdateNote(_, _, _, _, _, _) => PreflightUpdate(col, body)
    case RestoreNote(_, _, _, _, _, _, _) => PreflightRestore(col, body)
    case DeleteCreated(_, _) => PreflightDelete(col, body)
    case ExportCheckpoint(_) => None
  }

  predicate Accepts(col: Collection, body: Body) {
    Preflight(col, body).None?
  }

  // ---------------------------------------------------------------- performs

  function AddTags(tags: seq<string>, add: seq<string>): seq<string>
    decreases |add|
  {
    if add == [] then tags
    else AddTags(if add[0] in tags then tags else tags + [add[0]], add[1..])
  }

  /** Optional note-type change, then one note write, after which Anki generates missing cards. */
  function Retype(col: Collection, nid: NoteId, migration: Option<Migration>): Collection
    requires nid in col.notes
    requires migration.Some? ==> migration.value.targetModel in col.models
  {
    if migration.Some? then ChangeType(col, nid, migration.value) else col
  }

  function Rewrite(col: Collection, nid: NoteId, migration: Option<Migration>, fields: Fields, tags: seq<string>)
    : Collection
    requires Observable(col, nid)
    requires migration.Some? ==> migration.value.targetModel in col.models
  {
    var typed := Retype(col, nid, migration);
    Generate(SetNote(typed, nid, typed.notes[nid].fields + fields, tags), nid, DEFAULT_DECK)
  }

  function Everywhere(cards: set<CardId>, deck: DeckId): map<CardId, DeckId> {
    map c | c in cards :: deck
  }

  function PerformUpdate(col: Collection, body: Body): Collection
    requires body.UpdateNote? && PreflightUpdate(col, body).None?
  {
    var after := Rewrite(col, body.nid, body.migration, body.fields,
                         AddTags(col.notes[body.nid].tags, body.addTags));
    MoveCards(after, Everywhere(CardsOf(after, body.nid).Keys, body.deck))
  }

  function PerformRestore(col: Collection, body: Body): Collection
    requires body.RestoreNote? && PreflightRestore(col, body).None?
  {
    MoveCards(Rewrite(col, body.nid, body.migration, body.fields, body.tags), body.decks)
  }

  /** The schedule a new card takes over from its source; it keeps its own reviews, lapses and flag. */
  function Copied(card: Card, source: Card): Card {
    var s := source.sched;
    card.(sched := card.sched.(queue := s.queue, kind := s.kind, due := s.due, ivl := s.ivl,
                               factor := s.factor, left := s.left, memory := s.memory),
          retention := source.retention)
  }

  function CardAt(col: Collection, nid: NoteId, ord: Ordinal): (c: CardId)
    requires HasOrdinal(col, nid, ord)
    ensures c in col.cards && col.cards[c].nid == nid && col.cards[c].ord == ord
  {
    var at := set c | c in col.cards && col.cards[c].nid == nid && col.cards[c].ord == ord;
    assert at != {} by {
      var c :| c in col.cards && col.cards[c].nid == nid && col.cards[c].ord == ord;
      assert c in at;
    }
    Least(at)
  }

  datatype Outcome = Outcome(col: Collection, note: NoteId, done: bool)

  /** Copies the schedules one by one; stops with the note written when a card is missing. */
  function InheritAll(col: Collection, nid: NoteId, sources: map<CardId, Card>, entries: seq<Inherit>): Outcome
    requires forall e <- entries :: e.source in sources
    decreases |entries|
  {
    if entries == [] then Outcome(col, nid, true)
    else
      var e := entries[0];
      if !HasOrdinal(col, nid, e.ord) then Outcome(col, nid, false)
      else
        var c := CardAt(col, nid, e.ord);
        InheritAll(col.(cards := col.cards[c := Copied(col.cards[c], sources[e.source])]), nid, sources, entries[1..])
  }

  lemma InheritSourcesExist(col: Collection, templates: nat, entries: seq<Inherit>)
    requires InheritRefusal(col, templates, entries).None?
    ensures forall e <- entries :: e.source in col.cards && col.cards[e.source].sched == e.sched && e.ord < templates
  {
    if entries != [] {
      InheritSourcesExist(col, templates, entries[1..]);
      assert forall e <- entries :: e == entries[0] || e in entries[1..];
    }
  }

  /** The collection after `add_note`, before any schedule is copied. */
  function AddNote(col: Collection, body: Body): Collection
    requires body.CreateNote? && PreflightCreate(col, body).None?
  {
    var mid := ModelNamed(col, body.modelName);
    Generate(col.(notes := col.notes[col.nextId := NoteRow(mid, body.fields, body.tags)], nextId := col.nextId + 1),
             col.nextId, body.deck)
  }

  function PerformCreate(col: Collection, body: Body): Outcome
    requires body.CreateNote? && PreflightCreate(col, body).None?
  {
    InheritSourcesExist(col, |col.models[ModelNamed(col, body.modelName)].templates|, body.inherit);
    InheritAll(AddNote(col, body), col.nextId, col.cards, body.inherit)
  }

  function PerformMedia(col: Collection, body: Body): Collection
    requires body.StoreMedia?
  {
    if body.filename in col.media then col
    else col.(media := col.media[body.filename := Media(body.sha256, body.size)])
  }

  /** The complete effect of an accepted body; `done` is false when it raises after a write. */
  function Perform(col: Collection, body: Body): Outcome
    requires Accepts(col, body)
  {
    match body
    case StoreMedia(_, _, _) => Outcome(PerformMedia(col, body), 0, true)
    case CreateNote(_, _, _, _, _, _, _) => PerformCreate(col, body)
    case UpdateNote(nid, _, _, _, _, _) => Outcome(PerformUpdate(col, body), nid, true)
    case RestoreNote(nid, _, _, _, _, _, _) => Outcome(PerformRestore(col, body), nid, true)
    case DeleteCreated(nid, _) => Outcome(RemoveNote(col, nid), nid, true)
    case ExportCheckpoint(_) => Outcome(col, 0, true)
  }

  /** A create stopped after copying the first `k` schedules. */
  function CutCreate(col: Collection, body: Body, k: nat): Collection
    requires body.CreateNote? && PreflightCreate(col, body).None? && k <= |body.inherit|
  {
    InheritSourcesExist(col, |col.models[ModelNamed(col, body.modelName)].templates|, body.inherit);
    InheritAll(AddNote(col, body), col.nextId, col.cards, body.inherit[..k]).col
  }

  /** An update stopped after moving some of the cards. */
  function CutUpdate(col: Collection, body: Body, moved: set<CardId>): Collection
    requires body.UpdateNote? && PreflightUpdate(col, body).None?
  {
    MoveCards(Rewrite(col, body.nid, body.migration, body.fields, AddTags(col.notes[body.nid].tags, body.addTags)),
              Everywhere(moved, body.deck))
  }

  function CutRestore(col: Collection, body: Body, rest: set<CardId>): Collection
    requires body.RestoreNote? && PreflightRestore(col, body).None?
  {
    MoveCards(Rewrite(col, body.nid, body.migration, body.fields, body.tags), body.decks - rest)
  }

  /** An update or a restore stopped after the note-type change. */
  function CutType(col: Collection, body: Body): Collection
    requires (body.UpdateNote? && PreflightUpdate(col, body).None?)
             || (body.RestoreNote? && PreflightRestore(col, body).None?)
  {
    Retype(col, body.nid, body.migration)
  }

  /** The collections a perform passes through: what a crash or an error in the middle leaves. */
  predicate Passes(col: Collection, body: Body, mid: Collection)
    requires Accepts(col, body)
  {
    || mid == col
    || mid == Perform(col, body).col
    || match body
       case CreateNote(_, _, _, _, _, _, inherit) => exists k | 0 <= k <= |inherit| :: mid == CutCreate(col, body, k)
       case UpdateNote(_, _, _, _, _, _) =>
         || mid == CutType(col, body)
         || exists moved | moved <= col.cards.Keys + mid.cards.Keys :: mid == CutUpdate(col, body, moved)
       case RestoreNote(_, _, _, _, _, decks, _) =>
         || mid == CutType(col, body)
         || exists rest | rest <= decks.Keys :: mid == CutRestore(col, body, rest)
       case _ => false
  }
}
