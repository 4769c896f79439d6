/** The part of an Anki collection that the companion reads and writes, as plain values.

    A digest is modelled by the value it is taken over, so two digests are equal exactly
    when the digested values are.  A list that the program sorts before it digests it is
    modelled by the set or map of its elements. */
module Anki {
  import opened Wrappers

  type NoteId = nat
  type CardId = nat
  type ModelId = nat
  type DeckId = nat
  type Ordinal = nat
  type Fields = map<string, string>

  datatype Memory = Memory(stability: real, difficulty: real)

  /** Every scheduler key the companion observes for a card. */
  datatype Scheduler = Scheduler(
    queue: int, kind: int, due: int, ivl: int, factor: int, reps: nat, lapses: nat,
    left: int, odue: int, flags: int, memory: Option<Memory>)

  datatype Review = Review(at: nat, ease: nat)

  /** `retention` stands for the FSRS parameters a card carries but an observation omits. */
  datatype Card = Card(
    nid: NoteId, ord: Ordinal, did: DeckId, odid: DeckId,
    sched: Scheduler, retention: int, history: seq<Review>)

  datatype NoteRow = NoteRow(mid: ModelId, fields: Fields, tags: seq<string>)

  /** A template yields a card exactly when the set of non-empty fields is in `fronts`. */
  datatype Template = Template(fronts: set<set<string>>)

  datatype Model = Model(name: string, manifest: string, fields: set<string>, templates: seq<Template>)

  datatype Deck = Deck(filtered: bool, preset: nat)

  datatype Media = Media(sha256: string, size: nat)

  /** `nextId` is above every note and card ID, so it yields fresh ones. */
  datatype Collection = Collection(
    notes: map<NoteId, NoteRow>, cards: map<CardId, Card>, models: map<ModelId, Model>,
    decks: map<DeckId, Deck>, media: map<string, Media>, nextId: nat)

  predicate WellFormed(col: Collection) {
    && (forall n <- col.notes :: n < col.nextId && col.notes[n].mid in col.models
                              && col.notes[n].fields.Keys == col.models[col.notes[n].mid].fields)
    && (forall c <- col.cards :: c < col.nextId && col.cards[c].nid in col.notes)
    && (forall c <- col.cards, d <- col.cards ::
          c != d && col.cards[c].nid == col.cards[d].nid ==> col.cards[c].ord != col.cards[d].ord)
  }

  // ---------------------------------------------------------------- observation

  datatype ObservedNote = ObservedNote(
    id: NoteId, mid: ModelId, modelName: string, manifest: string,
    fields: Fields, tags: seq<string>, cards: map<CardId, Card>)

  function CardsOf(col: Collection, nid: NoteId): map<CardId, Card> {
    map c | c in col.cards && col.cards[c].nid == nid :: col.cards[c]
  }

  predicate Observable(col: Collection, nid: NoteId) {
    nid in col.notes && col.notes[nid].mid in col.models
  }

  function Observe(col: Collection, nid: NoteId): ObservedNote
    requires Observable(col, nid)
  {
    var row := col.notes[nid];
    var model := col.models[row.mid];
    ObservedNote(nid, row.mid, model.name, model.manifest, row.fields, row.tags, CardsOf(col, nid))
  }

  /** Notes that carry a tag: the exact-tag search. */
  function Tagged(col: Collection, tag: string): set<NoteId> {
    set n | n in col.notes && tag in col.notes[n].tags
  }

  function Tags(tags: seq<string>): set<string> {
    set t | t in tags
  }

  datatype Placement = Placement(ord: Ordinal, did: DeckId, odid: DeckId)

  /** The content precondition: model, fields, tags and card placement, without scheduling,
      so that study between preparation and apply is allowed. */
  datatype Content = Content(
    modelName: string, manifest: string, fields: Fields, tags: set<string>,
    cards: map<CardId, Placement>)

  function ContentOf(note: ObservedNote): Content {
    Content(note.modelName, note.manifest, note.fields, Tags(note.tags),
            map c | c in note.cards :: Placement(note.cards[c].ord, note.cards[c].did, note.cards[c].odid))
  }

  predicate Studied(card: Card) {
    |card.history| > 0 || card.sched.reps != 0
  }

  lemma LeastOf(s: set<nat>) returns (m: nat)
    requires s != {}
    ensures m in s && forall k <- s :: m <= k
  {
    var x :| x in s;
    m := x;
    var rest := s - {x};
    if rest != {} {
      var r := LeastOf(rest);
      if r < m { m := r; }
    }
    assert forall k <- s :: k == x || k in rest;
  }

  function Least(s: set<nat>): (m: nat)
    requires s != {}
    ensures m in s && forall k <- s :: m <= k
  {
    assert exists m <- s :: forall k <- s :: m <= k by {
      var m := LeastOf(s);
    }
    var m :| m in s && forall k <- s :: m <= k;
    m
  }

  // ---------------------------------------------------------------- what Anki does

  const DEFAULT_DECK: DeckId := 1

  function NewScheduler(due: int): Scheduler {
    Scheduler(0, 0, due, 0, 0, 0, 0, 0, 0, 0, None)
  }

  function Filled(fields: Fields): set<string> {
    set f | f in fields && fields[f] != ""
  }

  /** Ordinals whose template renders a card for these fields. */
  predicate Shows(model: Model, fields: Fields, ord: Ordinal) {
    ord < |model.templates| && Filled(fields) in model.templates[ord].fronts
  }

  predicate HasOrdinal(col: Collection, nid: NoteId, ord: Ordinal) {
    exists c <- col.cards :: col.cards[c].nid == nid && col.cards[c].ord == ord
  }

  /** True of the IDs that card generation gives out: template `o` gets card `nextId + o`
      when it renders and has no card yet. */
  predicate NewCard(col: Collection, nid: NoteId, c: CardId)
    requires Observable(col, nid)
  {
    var row := col.notes[nid];
    && c >= col.nextId
    && Shows(col.models[row.mid], row.fields, c - col.nextId)
    && !HasOrdinal(col, nid, c - col.nextId)
  }

  /** Card generation after a note was written. */
  function Generate(col: Collection, nid: NoteId, did: DeckId): Collection
    requires Observable(col, nid)
  {
    var bound := col.nextId + |col.models[col.notes[nid].mid].templates|;
    var added := map c | col.nextId <= c < bound && NewCard(col, nid, c)
                      :: Card(nid, c - col.nextId, did, 0, NewScheduler(col.nextId), 0, []);
    col.(cards := col.cards + added, nextId := bound)
  }

  datatype Mapping = Mapping(source: Ordinal, target: Ordinal)

  datatype Migration = Migration(
    sourceModel: ModelId, targetModel: ModelId, targetName: string, ordinals: seq<Mapping>)

  predicate Maps(ordinals: seq<Mapping>, source: Ordinal) {
    exists m <- ordinals :: m.source == source
  }

  /** The first entry for `source`. */
  function TargetOf(ordinals: seq<Mapping>, source: Ordinal): Ordinal
    requires Maps(ordinals, source)
  {
    if ordinals[0].source == source then ordinals[0].target
    else
      assert forall m <- ordinals :: m == ordinals[0] || m in ordinals[1..];
      TargetOf(ordinals[1..], source)
  }

  /** Mapped note-type change: a card of a mapped template keeps its ID, schedule and history,
      any other card of the note is removed, and the fields start empty. */
  function ChangeType(col: Collection, nid: NoteId, migration: Migration): Collection
    requires nid in col.notes && migration.targetModel in col.models
  {
    var target := col.models[migration.targetModel];
    var row := NoteRow(migration.targetModel, map f | f in target.fields :: "", col.notes[nid].tags);
    var cards := map c | c in col.cards && (col.cards[c].nid != nid || Maps(migration.ordinals, col.cards[c].ord))
                      :: if col.cards[c].nid != nid then col.cards[c]
                         else col.cards[c].(ord := TargetOf(migration.ordinals, col.cards[c].ord));
    col.(notes := col.notes[nid := row], cards := cards)
  }

  function SetNote(col: Collection, nid: NoteId, fields: Fields, tags: seq<string>): Collection
    requires nid in col.notes
  {
    col.(notes := col.notes[nid := col.notes[nid].(fields := fields, tags := tags)])
  }

  /** Write the listed cards with their new decks; every other part of a card stays. */
  function MoveCards(col: Collection, decks: map<CardId, DeckId>): Collection {
    col.(cards := map c | c in col.cards ::
           if c in decks then col.cards[c].(did := decks[c]) else col.cards[c])
  }

  function RemoveNote(col: Collection, nid: NoteId): Collection {
    col.(notes := col.notes - {nid}, cards := map c | c in col.cards && col.cards[c].nid != nid :: col.cards[c])
  }
}
