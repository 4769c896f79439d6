/** The collection as the effects write it: notes and cards in place, one write at a time.  `writes` is how
    many more writes succeed before a crash or an error.  Each method ends exactly when the writes it needs are
    left, and is proved against the complete effect then and against the cuts of module `Effects` otherwise. */
module LiveCollection {
  import opened Wrappers
  import opened Anki
  import opened Effects
  import opened EffectLaws
  import opened Undo

  /** `request[t]` is the source template whose cards move to target template `t`. */
  ghost predicate Requests(request: seq<Option<Ordinal>>, ordinals: seq<Mapping>) {
    forall t | 0 <= t < |request| ::
      match request[t]
      case Some(s) => Mapping(s, t) in ordinals
      case None => forall m <- ordinals :: m.target != t
  }

  /** What the note-type change does with a request: a card whose source is requested moves, any other goes. */
  ghost predicate Retypes(before: map<CardId, Card>, nid: NoteId, request: seq<Option<Ordinal>>,
                          after: map<CardId, Card>) {
    && after.Keys <= before.Keys
    && (forall c <- before | before[c].nid != nid :: c in after && after[c] == before[c])
    && (forall c <- before | before[c].nid == nid ::
          (c in after <==> Some(before[c].ord) in request)
          && (c in after ==> after[c] == before[c].(ord := after[c].ord)
                             && after[c].ord < |request| && request[after[c].ord] == Some(before[c].ord)))
  }

  /** The request built from target to source makes exactly the mapped change from source to target. */
  lemma RequestRetypes(col: Collection, nid: NoteId, migration: Migration, request: seq<Option<Ordinal>>)
    requires nid in col.notes && migration.targetModel in col.models && InjectiveMap(migration.ordinals)
    requires Requests(request, migration.ordinals) && forall m <- migration.ordinals :: m.target < |request|
    ensures Retypes(col.cards, nid, request, ChangeType(col, nid, migration).cards)
  {
    var after := ChangeType(col, nid, migration).cards;
    forall c <- col.cards | col.cards[c].nid == nid
      ensures c in after <==> Some(col.cards[c].ord) in request
      ensures c in after ==> after[c].ord < |request| && request[after[c].ord] == Some(col.cards[c].ord)
    {
      RequestedIffMapped(migration.ordinals, request, col.cards[c].ord);
    }
  }

  lemma RequestedIffMapped(ordinals: seq<Mapping>, request: seq<Option<Ordinal>>, source: Ordinal)
    requires InjectiveMap(ordinals) && Requests(request, ordinals) && forall m <- ordinals :: m.target < |request|
    ensures Some(source) in request <==> Maps(ordinals, source)
    ensures Maps(ordinals, source)
            ==> TargetOf(ordinals, source) < |request| && request[TargetOf(ordinals, source)] == Some(source)
  {
    if Maps(ordinals, source) {
      TargetIsMapped(ordinals, source);
      var t := TargetOf(ordinals, source);
      assert request[t].Some?;
      InjectiveEntries(ordinals, Mapping(request[t].value, t), Mapping(source, t));
    }
    if Some(source) in request {
      var t :| 0 <= t < |request| && request[t] == Some(source);
      assert Mapping(source, t) in ordinals;
    }
  }

  /** The change is the only one a request allows. */
  lemma RetypeIsDetermined(before: map<CardId, Card>, nid: NoteId, request: seq<Option<Ordinal>>,
                           ordinals: seq<Mapping>,
                           a: map<CardId, Card>, b: map<CardId, Card>)
    requires InjectiveMap(ordinals) && Requests(request, ordinals)
    requires Retypes(before, nid, request, a) && Retypes(before, nid, request, b)
    ensures a == b
  {
    forall c <- before ensures c in a <==> c in b ensures c in a ==> a[c] == b[c] {
      if c in a && before[c].nid == nid {
        InjectiveEntries(ordinals, Mapping(before[c].ord, a[c].ord), Mapping(before[c].ord, b[c].ord));
      }
    }
  }

  // ---------------------------------------------------------------- how many writes an effect takes

  /** The cards a move writes: those in another deck. */
  function Misplaced(cards: map<CardId, Card>, ids: set<CardId>, target: map<CardId, DeckId>): set<CardId>
    requires ids <= target.Keys && ids <= cards.Keys
  {
    set c | c in ids && cards[c].did != target[c]
  }

  function TypeWrites(migration: Option<Migration>): nat {
    if migration.Some? then 1 else 0
  }

  function UpdateWrites(col: Collection, body: Body): nat
    requires body.UpdateNote? && PreflightUpdate(col, body).None?
  {
    var after := Rewrite(col, body.nid, body.migration, body.fields, AddTags(col.notes[body.nid].tags, body.addTags));
    var ids := CardsOf(after, body.nid).Keys;
    TypeWrites(body.migration) + 1 + |Misplaced(after.cards, ids, Everywhere(ids, body.deck))|
  }

  function RestoreWrites(col: Collection, body: Body): nat
    requires body.RestoreNote? && PreflightRestore(col, body).None? && WellFormed(col)
  {
    var after := Rewrite(col, body.nid, body.migration, body.fields, body.tags);
    KeptCardsStay(col, body);
    TypeWrites(body.migration) + 1 + |Misplaced(after.cards, body.decks.Keys, body.decks)|
  }

  /** The writes of a complete effect: the note-type change, the note, each card that moves or copies a schedule. */
  function Needed(col: Collection, body: Body): nat
    requires Accepts(col, body) && WellFormed(col)
  {
    match body
    case StoreMedia(filename, _, _) => if filename in col.media then 0 else 1
    case CreateNote(_, _, _, _, _, _, inherit) => 1 + |inherit|
    case UpdateNote(_, _, _, _, _, _) => UpdateWrites(col, body)
    case RestoreNote(_, _, _, _, _, _, _) => RestoreWrites(col, body)
    case DeleteCreated(_, _) => 1
    case ExportCheckpoint(_) => 0
  }

  class LiveCollection {
    var notes: map<NoteId, NoteRow>
    var cards: map<CardId, Card>
    var models: map<ModelId, Model>
    var decks: map<DeckId, Deck>
    var media: map<string, Media>
    var nextId: nat
    var writes: nat

    function View(): Collection
      reads this
    {
      Collection(notes, cards, models, decks, media, nextId)
    }

    constructor (col: Collection, budget: nat)
      ensures View() == col && writes == budget
    {
      notes, cards, models, decks, media, nextId := col.notes, col.cards, col.models, col.decks, col.media, col.nextId;
      writes := budget;
    }

    /** One write to the collection. */
    method Write(col: Collection) returns (ok: bool)
      modifies this
      ensures ok <==> old(writes) > 0
      ensures View() == if ok then col else old(View())
      ensures writes == if ok then old(writes) - 1 else 0
    {
      ok := writes > 0;
      if ok {
        notes, cards, models, decks, media, nextId := col.notes, col.cards, col.models, col.decks, col.media,
            col.nextId;
        writes := writes - 1;
      }
    }

    /** The template list of a note-type change, one entry per target template. */
    static method TemplateRequest(ordinals: seq<Mapping>, templates: nat) returns (request: seq<Option<Ordinal>>)
      ensures |request| == templates && Requests(request, ordinals)
    {
      request := [];
      for t := 0 to templates
        invariant |request| == t && Requests(request, ordinals)
      {
        var source: Option<Ordinal> := None;
        for i := 0 to |ordinals|
          invariant source.Some? ==> Mapping(source.value, t) in ordinals
          invariant source.None? ==> forall m <- ordinals[..i] :: m.target != t
        {
          if ordinals[i].target == t {
            source := Some(ordinals[i].source);
            assert ordinals[i] == Mapping(source.value, t);
          }
        }
        assert ordinals[..|ordinals|] == ordinals;
        request := request + [source];
      }
    }

    /** Mapped note-type change; unmapped ordinals lose their cards. */
    method ChangeNotetype(nid: NoteId, migration: Migration) returns (ok: bool)
      requires nid in notes && migration.targetModel in models && InjectiveMap(migration.ordinals)
      requires forall m <- migration.ordinals :: m.target < |models[migration.targetModel].templates|
      modifies this
      ensures ok <==> old(writes) > 0
      ensures View() == if ok then ChangeType(old(View()), nid, migration) else old(View())
      ensures writes == if ok then old(writes) - 1 else 0
    {
      var request := TemplateRequest(migration.ordinals, |models[migration.targetModel].templates|);
      ghost var before := View();
      RequestRetypes(before, nid, migration, request);
      var kept := map c | c in cards && (cards[c].nid != nid || Some(cards[c].ord) in request) ::
                    if cards[c].nid != nid then cards[c] else cards[c].(ord := IndexOf(request, cards[c].ord));
      RetypeIsDetermined(before.cards, nid, request, migration.ordinals, kept,
                         ChangeType(before, nid, migration).cards);
      var blank := map f | f in models[migration.targetModel].fields :: "";
      var row := NoteRow(migration.targetModel, blank, notes[nid].tags);
      ok := Write(View().(notes := notes[nid := row], cards := kept));
    }

    /** Sets each listed field of a note object, which keeps its other fields. */
    static method SetFields(start: Fields, fields: Fields) returns (out: Fields)
      ensures out == start + fields
    {
      out := start;
      var todo := fields.Keys;
      while todo != {}
        invariant todo <= fields.Keys
        invariant out.Keys == start.Keys + (fields.Keys - todo)
        invariant forall f <- out :: out[f] == if f in fields && f !in todo then fields[f] else start[f]
      {
        var name :| name in todo;
        out, todo := out[name := fields[name]], todo - {name};
      }
    }

    static method AppendTags(start: seq<string>, add: seq<string>) returns (tags: seq<string>)
      ensures tags == AddTags(start, add)
    {
      tags := start;
      for i := 0 to |add|
        invariant AddTags(tags, add[i..]) == AddTags(start, add)
      {
        assert add[i..][1..] == add[i + 1..];
        if add[i] !in tags { tags := tags + [add[i]]; }
      }
    }

    /** Moves cards one by one; a card already in its deck is not written. */
    method Move(ids: set<CardId>, target: map<CardId, DeckId>) returns (ok: bool, left: set<CardId>)
      requires ids <= target.Keys && ids <= cards.Keys
      modifies this
      ensures left <= ids && (ok <==> left == {})
      ensures View() == MoveCards(old(View()), Placed(ids - left, target))
      ensures ok <==> old(writes) >= |Misplaced(old(cards), ids, target)|
    {
      hide MoveCards;
      left := ids;
      ghost var before := View();
      MovedNone(before, target);
      while left != {}
        invariant left <= ids
        invariant View() == MoveCards(before, Placed(ids - left, target))
        invariant writes + |Misplaced(before.cards, ids, target)| == old(writes)
                  + |Misplaced(before.cards, left, target)|
      {
        var c :| c in left;
        MovedKeys(before, Placed(ids - left, target));
        MovedOne(before, ids - left, target, c);
        MisplacedOne(before.cards, left, target, c);
        if cards[c].did != target[c] {
          var done := Write(View().(cards := cards[c := cards[c].(did := target[c])]));
          if !done { return false, left; }
        }
        assert ids - (left - {c}) == ids - left + {c};
        left := left - {c};
      }
      assert Misplaced(before.cards, {}, target) == {};
      return true, left;
    }

    method Update(body: Body) returns (done: bool)
      requires body.UpdateNote? && PreflightUpdate(View(), body).None? && ValidBody(body)
      modifies this
      ensures done <==> old(writes) >= UpdateWrites(old(View()), body)
      ensures done ==> View() == PerformUpdate(old(View()), body)
      ensures Passes(old(View()), body, View())
    {
      hide PreflightUpdate, MoveCards, Generate, ChangeType, CardsOf;
      ghost var before := View();
      UpdateGrants(before, body);
      if body.migration.Some? {
        var typed := ChangeNotetype(body.nid, body.migration.value);
        if !typed { return false; }
      }
      assert View() == CutType(before, body);
      RetypeObservable(before, body.nid, body.migration);
      var fields := SetFields(notes[body.nid].fields, body.fields);
      var tags := AppendTags(notes[body.nid].tags, body.addTags);
      var written := Write(Generate(SetNote(View(), body.nid, fields, tags), body.nid, DEFAULT_DECK));
      if !written { return false; }
      ghost var after := View();
      var ids := CardsOf(View(), body.nid).Keys;
      var left;
      CardsAreCards(after, body.nid);
      done, left := Move(ids, Everywhere(ids, body.deck));
      assert Placed(ids - left, Everywhere(ids, body.deck)) == Everywhere(ids - left, body.deck);
      assert View() == CutUpdate(before, body, ids - left);
      if done { assert ids - left == ids; }
      MovedKeys(after, Everywhere(ids - left, body.deck));
    }

    method Restore(body: Body) returns (done: bool)
      requires body.RestoreNote? && PreflightRestore(View(), body).None? && ValidBody(body) && WellFormed(View())
      modifies this
      ensures done <==> old(writes) >= RestoreWrites(old(View()), body)
      ensures done ==> View() == PerformRestore(old(View()), body)
      ensures Passes(old(View()), body, View())
    {
      hide PreflightRestore, MoveCards, Generate, ChangeType, WellFormed;
      ghost var before := View();
      RestoreGrants(before, body);
      KeptCardsStay(before, body);
      if body.migration.Some? {
        var typed := ChangeNotetype(body.nid, body.migration.value);
        if !typed { return false; }
      }
      assert View() == CutType(before, body);
      RetypeObservable(before, body.nid, body.migration);
      var fields := SetFields(notes[body.nid].fields, body.fields);
      var written := Write(Generate(SetNote(View(), body.nid, fields, body.tags), body.nid, DEFAULT_DECK));
      if !written { return false; }
      var left;
      done, left := Move(body.decks.Keys, body.decks);
      assert Placed(body.decks.Keys - left, body.decks) == body.decks - left;
      assert View() == CutRestore(before, body, left);
      if done { assert body.decks - left == body.decks; }
    }

    /** Copies schedules into the new note's cards, looked up once by ordinal; stops at a missing card. */
    method CopySchedules(nid: NoteId, sources: map<CardId, Card>, entries: seq<Inherit>)
      returns (done: bool, copied: nat)
      requires forall e <- entries :: e.source in sources
      modifies this
      ensures copied <= |entries|
              && InheritAll(old(View()), nid, sources, entries[..copied]) == Outcome(View(), nid, true)
      ensures done ==> InheritAll(old(View()), nid, sources, entries) == Outcome(View(), nid, true)
      ensures !done && old(writes) >= |entries| ==>
                InheritAll(old(View()), nid, sources, entries) == Outcome(View(), nid, false)
      ensures done <==> old(writes) >= |entries| && InheritAll(old(View()), nid, sources, entries).done
    {
      ghost var before := View();
      copied := 0;
      while copied < |entries|
        invariant copied <= |entries| && writes + copied == old(writes)
                  && InheritAll(before, nid, sources, entries[..copied]) == Outcome(View(), nid, true)
      {
        var e := entries[copied];
        InheritSplits(before, nid, sources, entries, copied);
        if !HasOrdinal(View(), nid, e.ord) { return false, copied; }
        var c := CardAt(View(), nid, e.ord);
        var written := Write(View().(cards := cards[c := Copied(cards[c], sources[e.source])]));
        if !written { return false, copied; }
        InheritOneMore(before, nid, sources, entries, copied, c);
        copied := copied + 1;
      }
      assert entries[..copied] == entries;
      return true, copied;
    }

    method Create(body: Body) returns (done: bool, note: NoteId)
      requires body.CreateNote? && PreflightCreate(View(), body).None?
      modifies this
      ensures done <==> old(writes) >= 1 + |body.inherit| && PerformCreate(old(View()), body).done
      ensures done ==> PerformCreate(old(View()), body) == Outcome(View(), note, true)
      ensures !done && old(writes) >= 1 + |body.inherit|
              ==> PerformCreate(old(View()), body) == Outcome(View(), note, false)
      ensures Passes(old(View()), body, View())
    {
      ghost var before := View();
      var mid := ModelNamed(View(), body.modelName);
      InheritSourcesExist(before, |models[mid].templates|, body.inherit);
      var sources := cards;
      note := nextId;
      var added := Write(AddNote(View(), body));
      if !added { return false, note; }
      var copied;
      done, copied := CopySchedules(note, sources, body.inherit);
      assert View() == CutCreate(before, body, copied);
    }

    method Delete(body: Body) returns (done: bool)
      requires body.DeleteCreated? && PreflightDelete(View(), body).None?
      modifies this
      ensures done <==> old(writes) > 0
      ensures done ==> View() == RemoveNote(old(View()), body.nid)
      ensures Passes(old(View()), body, View())
    {
      done := Write(RemoveNote(View(), body.nid));
    }

    /** Verified bytes under the exact name; an existing file with these bytes is left alone. */
    method StoreMedia(body: Body) returns (done: bool)
      requires body.StoreMedia? && PreflightMedia(View(), body).None?
      modifies this
      ensures done <==> old(writes) > 0 || body.filename in old(media)
      ensures done ==> View() == PerformMedia(old(View()), body)
      ensures Passes(old(View()), body, View())
    {
      if body.filename in media { return true; }
      done := Write(View().(media := media[body.filename := Media(body.sha256, body.size)]));
    }

    /** The effect of an accepted body, as far as the writes last: complete exactly when they do and the effect
        itself can be. */
    method Perform(body: Body) returns (done: bool, note: NoteId)
      requires Accepts(View(), body) && ValidBody(body) && WellFormed(View())
      modifies this
      ensures done <==> old(writes) >= Needed(old(View()), body) && Effects.Perform(old(View()), body).done
      ensures old(writes) >= Needed(old(View()), body)
              ==> Effects.Perform(old(View()), body) == Outcome(View(), note, done)
      ensures Passes(old(View()), body, View())
    {
      match body
      case StoreMedia(_, _, _) => done := StoreMedia(body); note := 0;
      case CreateNote(_, _, _, _, _, _, _) => done, note := Create(body);
      case UpdateNote(nid, _, _, _, _, _) => done := Update(body); note := nid;
      case RestoreNote(nid, _, _, _, _, _, _) => done := Restore(body); note := nid;
      case DeleteCreated(nid, _) => done := Delete(body); note := nid;
      case ExportCheckpoint(_) => done, note := true, 0;
    }
  }

  function IndexOf(request: seq<Option<Ordinal>>, source: Ordinal): (t: nat)
    requires Some(source) in request
    ensures t < |request| && request[t] == Some(source)
  {
    if request[0] == Some(source) then 0
    else
      assert forall r <- request :: r == request[0] || r in request[1..];
      1 + IndexOf(request[1..], source)
  }

  function Placed(ids: set<CardId>, target: map<CardId, DeckId>): map<CardId, DeckId>
    requires ids <= target.Keys
  {
    map c | c in ids :: target[c]
  }

  lemma MisplacedOne(cards: map<CardId, Card>, left: set<CardId>, target: map<CardId, DeckId>, c: CardId)
    requires left <= target.Keys && left <= cards.Keys && c in left
    ensures var rest := Misplaced(cards, left - {c}, target);
            |Misplaced(cards, left, target)| == |rest| + (if cards[c].did != target[c] then 1 else 0)
  {
    var all, rest := Misplaced(cards, left, target), Misplaced(cards, left - {c}, target);
    if cards[c].did != target[c] { assert all == rest + {c}; } else { assert all == rest; }
  }

  lemma UpdateGrants(col: Collection, body: Body)
    requires body.UpdateNote? && PreflightUpdate(col, body).None?
    ensures Observable(col, body.nid)
    ensures body.migration.Some? ==>
      var m := body.migration.value; m.targetModel in col.models
                                     && forall e <- m.ordinals :: e.target < |col.models[m.targetModel].templates|
  {}

  lemma RestoreGrants(col: Collection, body: Body)
    requires body.RestoreNote? && PreflightRestore(col, body).None?
    ensures Observable(col, body.nid)
    ensures body.migration.Some? ==>
      var m := body.migration.value; m.targetModel in col.models
                                     && forall e <- m.ordinals :: e.target < |col.models[m.targetModel].templates|
  {}

  lemma RetypeObservable(col: Collection, nid: NoteId, migration: Option<Migration>)
    requires Observable(col, nid) && (migration.Some? ==> migration.value.targetModel in col.models)
    ensures Observable(Retype(col, nid, migration), nid)
            && Retype(col, nid, migration).notes[nid].tags == col.notes[nid].tags
  {}

  lemma CardsAreCards(col: Collection, nid: NoteId)
    ensures CardsOf(col, nid).Keys <= col.cards.Keys
  {}

  lemma MovedKeys(col: Collection, decks: map<CardId, DeckId>)
    ensures MoveCards(col, decks).cards.Keys == col.cards.Keys
  {}

  lemma MovedNone(col: Collection, target: map<CardId, DeckId>)
    ensures Placed({}, target) == map[] && MoveCards(col, map[]) == col
  {
    assert MoveCards(col, map[]).cards == col.cards;
  }

  lemma MovedOne(before: Collection, done: set<CardId>, target: map<CardId, DeckId>, c: CardId)
    requires c in before.cards && c !in done && done + {c} <= target.Keys
    ensures var was := MoveCards(before, Placed(done, target));
            && c in was.cards && was.cards[c] == before.cards[c]
            && MoveCards(before, Placed(done + {c}, target))
               == was.(cards := was.cards[c := was.cards[c].(did := target[c])])
            && (before.cards[c].did == target[c] ==> MoveCards(before, Placed(done + {c}, target)) == was)
  {
    var was, now := MoveCards(before, Placed(done, target)), MoveCards(before, Placed(done + {c}, target));
    assert now.cards == was.cards[c := was.cards[c].(did := target[c])];
    if before.cards[c].did == target[c] { assert now.cards == was.cards; }
  }

  /** The cards a restore places are there after its rewrite. */
  lemma KeptCardsStay(col: Collection, body: Body)
    requires WellFormed(col) && body.RestoreNote? && PreflightRestore(col, body).None?
    ensures body.decks.Keys <= Rewrite(col, body.nid, body.migration, body.fields, body.tags).cards.Keys
  {
    var note := Observe(col, body.nid);
    RetypeKeeps(col, body.nid, body.migration);
    forall c <- body.decks ensures c in Retype(col, body.nid, body.migration).cards {
      assert c in note.cards && c !in body.removed;
    }
  }

  /** The loop over a prefix, then over the rest. */
  lemma {:induction false} InheritSplits(col: Collection, nid: NoteId, sources: map<CardId, Card>,
                                         entries: seq<Inherit>, k: nat)
    requires k <= |entries| && forall e <- entries :: e.source in sources
    ensures var head := InheritAll(col, nid, sources, entries[..k]);
            InheritAll(col, nid, sources, entries)
            == if head.done then InheritAll(head.col, nid, sources, entries[k..]) else head
    decreases k
  {
    if k == 0 {
      assert entries[k..] == entries;
    } else {
      var e, rest := entries[0], entries[1..];
      assert entries[..k][1..] == rest[..k - 1] && entries[..k][0] == e && rest[k - 1..] == entries[k..];
      if HasOrdinal(col, nid, e.ord) {
        var c := CardAt(col, nid, e.ord);
        InheritSplits(col.(cards := col.cards[c := Copied(col.cards[c], sources[e.source])]), nid, sources, rest,
                      k - 1);
      }
    }
  }

  lemma InheritOneMore(col: Collection, nid: NoteId, sources: map<CardId, Card>, entries: seq<Inherit>, k: nat,
                       c: CardId)
    requires k < |entries| && forall e <- entries :: e.source in sources
    requires var head := InheritAll(col, nid, sources, entries[..k]);
             head.done && HasOrdinal(head.col, nid, entries[k].ord) && c == CardAt(head.col, nid, entries[k].ord)
    ensures var head := InheritAll(col, nid, sources, entries[..k]);
            InheritAll(col, nid, sources, entries[..k + 1])
            == Outcome(head.col.(cards := head.col.cards[c := Copied(head.col.cards[c], sources[entries[k].source])]),
                       nid, true)
  {
    InheritSplits(col, nid, sources, entries[..k + 1], k);
    assert entries[..k + 1][..k] == entries[..k] && entries[..k + 1][k..] == [entries[k]];
    var head := InheritAll(col, nid, sources, entries[..k]);
    var next := head.col.(cards := head.col.cards[c := Copied(head.col.cards[c], sources[entries[k].source])]);
    assert [entries[k]][1..] == [];
    assert InheritAll(next, nid, sources, []) == Outcome(next, nid, true);
  }
}
