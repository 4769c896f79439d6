/** Restore against update: the reverse effect built from an update brings the content back exactly
    when no card was generated that the note did not have, and it never touches study. */
module Undo {
  import opened Wrappers
  import opened Anki
  import opened Effects
  import opened EffectLaws

  function Swap(ordinals: seq<Mapping>): seq<Mapping> {
    seq(|ordinals|, i requires 0 <= i < |ordinals| => Mapping(ordinals[i].target, ordinals[i].source))
  }

  lemma SwapInverts(ordinals: seq<Mapping>, s: Ordinal)
    requires InjectiveMap(ordinals) && Maps(ordinals, s)
    ensures Maps(Swap(ordinals), TargetOf(ordinals, s))
    ensures TargetOf(Swap(ordinals), TargetOf(ordinals, s)) == s
  {
    TargetIsMapped(ordinals, s);
    var t := TargetOf(ordinals, s);
    var i :| 0 <= i < |ordinals| && ordinals[i] == Mapping(s, t);
    assert Swap(ordinals)[i] == Mapping(t, s);
    TargetIsMapped(Swap(ordinals), t);
    InjectiveEntries(Swap(ordinals), Mapping(t, s), Mapping(t, TargetOf(Swap(ordinals), t)));
  }

  lemma SwapTwice(ordinals: seq<Mapping>)
    ensures Swap(Swap(ordinals)) == ordinals
    ensures InjectiveMap(ordinals) <==> InjectiveMap(Swap(ordinals))
  {
    assert forall i | 0 <= i < |ordinals| ::
      Swap(ordinals)[i].source == ordinals[i].target && Swap(ordinals)[i].target == ordinals[i].source;
  }

  /** The reverse of an optional migration, back to the note type the note had. */
  function Reverse(before: Collection, nid: NoteId, migration: Option<Migration>): Option<Migration>
    requires Observable(before, nid)
  {
    if migration.None? then None
    else
      var m := migration.value;
      Some(Migration(m.targetModel, before.notes[nid].mid, before.models[before.notes[nid].mid].name, Swap(m.ordinals)))
  }

  /** An ordinal a kept card can come from, seen from the reverse side. */
  lemma ReverseInverts(before: Collection, nid: NoteId, migration: Option<Migration>, o: Ordinal)
    requires Observable(before, nid) && ValidMigration(migration) && Kept(migration, o)
    ensures Kept(Reverse(before, nid, migration), NewOrdinal(migration, o))
    ensures NewOrdinal(Reverse(before, nid, migration), NewOrdinal(migration, o)) == o
  {
    if migration.Some? { SwapInverts(migration.value.ordinals, o); }
  }

  lemma ReverseCovers(before: Collection, nid: NoteId, migration: Option<Migration>, t: Ordinal)
    requires Observable(before, nid) && ValidMigration(migration) && Kept(Reverse(before, nid, migration), t)
    ensures var o := NewOrdinal(Reverse(before, nid, migration), t);
            Kept(migration, o) && NewOrdinal(migration, o) == t
  {
    if migration.Some? {
      SwapTwice(migration.value.ordinals);
      SwapInverts(Swap(migration.value.ordinals), t);
    }
  }

  /** `mid` is `after` with any study of the note's cards, and anything else outside the note. */
  ghost predicate OnlyStudied(after: Collection, mid: Collection, nid: NoteId) {
    && nid in after.notes && nid in mid.notes && mid.notes[nid] == after.notes[nid]
    && mid.models == after.models && mid.nextId >= after.nextId
    && CardsOf(mid, nid).Keys == CardsOf(after, nid).Keys
    && forall c <- CardsOf(after, nid) ::
         mid.cards[c].(sched := after.cards[c].sched, retention := after.cards[c].retention,
                       history := after.cards[c].history)
         == after.cards[c]
  }

  /** The reverse effect of `update`, as planned against the collection `mid`. */
  function ReverseBody(before: Collection, update: Body, mid: Collection): (body: Body)
    requires update.UpdateNote? && Observable(before, update.nid) && Observable(mid, update.nid)
    ensures body.RestoreNote?
  {
    var note := Observe(mid, update.nid);
    var migration := Reverse(before, update.nid, update.migration);
    var removed := Dropped(note, migration);
    RestoreNote(update.nid, ContentOf(note), migration,
                before.notes[update.nid].fields, before.notes[update.nid].tags,
                map c | c in note.cards && c !in removed ::
                  if c in before.cards then before.cards[c].did else note.cards[c].did,
                removed)
  }

  lemma UpdateRewritable(before: Collection, update: Body)
    requires WellFormed(before) && update.UpdateNote? && PreflightUpdate(before, update).None?
    ensures Rewritable(before, update.nid, update.migration, update.fields)
    ensures update.migration.Some? ==> before.notes[update.nid].mid == update.migration.value.sourceModel
    ensures forall c <- CardsOf(before, update.nid) ::
              Kept(update.migration, before.cards[c].ord) && before.cards[c].odid == 0
  {
    var note := Observe(before, update.nid);
    assert note.cards == CardsOf(before, update.nid);
    assert forall c <- note.cards :: note.cards[c] == before.cards[c];
  }

  /** The note right after an update: the new row, every old card at its new ordinal, one deck. */
  lemma UpdateLeaves(before: Collection, update: Body)
    requires WellFormed(before) && update.UpdateNote? && PreflightUpdate(before, update).None?
    ensures Rewritable(before, update.nid, update.migration, update.fields)
    ensures var after := PerformUpdate(before, update);
            && after.notes == before.notes[update.nid := NoteRow(ModelAfter(before, update.nid, update.migration),
                                                                 update.fields,
                                             AddTags(before.notes[update.nid].tags, update.addTags))]
            && after.models == before.models && after.decks == before.decks && after.media == before.media
            && after.nextId >= before.nextId
            && Rewritten(CardsOf(before, update.nid), before.nextId, RouteOf(update.migration),
                         RenderedAfter(before, update.nid, update.migration, update.fields), CardsOf(after, update.nid))
            && forall c <- CardsOf(after, update.nid) :: CardsOf(after, update.nid)[c].did == update.deck
  {
    UpdateRewritable(before, update);
    var tags := AddTags(before.notes[update.nid].tags, update.addTags);
    var r := Rewrite(before, update.nid, update.migration, update.fields, tags);
    RewriteRow(before, update.nid, update.migration, update.fields, tags);
    RewriteCards(before, update.nid, update.migration, update.fields, tags);
    var out := CardsOf(r, update.nid);
    var decks := Everywhere(out.Keys, update.deck);
    MovedCards(r, update.nid, decks);
    RewrittenAnyDeck(CardsOf(before, update.nid), before.nextId, RouteOf(update.migration),
                     RenderedAfter(before, update.nid, update.migration, update.fields), out,
                     CardsOf(MoveCards(r, decks), update.nid));
  }

  lemma RestoreRewritable(mid: Collection, body: Body)
    requires WellFormed(mid) && body.RestoreNote? && PreflightRestore(mid, body).None?
    ensures Rewritable(mid, body.nid, body.migration, body.fields)
  {}

  lemma RestoreLeaves(mid: Collection, body: Body)
    requires WellFormed(mid) && body.RestoreNote? && PreflightRestore(mid, body).None?
    ensures Rewritable(mid, body.nid, body.migration, body.fields)
    ensures var after := PerformRestore(mid, body);
            && after.notes == mid.notes[body.nid := NoteRow(ModelAfter(mid, body.nid, body.migration), body.fields,
                                                            body.tags)]
            && after.models == mid.models
            && Rewritten(CardsOf(mid, body.nid), mid.nextId, RouteOf(body.migration),
                         RenderedAfter(mid, body.nid, body.migration, body.fields), CardsOf(after, body.nid))
            && forall c <- CardsOf(after, body.nid) | c in body.decks ::
               CardsOf(after, body.nid)[c].did == body.decks[c]
  {
    RestoreRewritable(mid, body);
    RewriteRow(mid, body.nid, body.migration, body.fields, body.tags);
    RewriteCards(mid, body.nid, body.migration, body.fields, body.tags);
    var r := Rewrite(mid, body.nid, body.migration, body.fields, body.tags);
    MovedCards(r, body.nid, body.decks);
    RewrittenAnyDeck(CardsOf(mid, body.nid), mid.nextId, RouteOf(body.migration),
                     RenderedAfter(mid, body.nid, body.migration, body.fields), CardsOf(r, body.nid),
                     CardsOf(MoveCards(r, body.decks), body.nid));
  }

  // ---------------------------------------------------------------- the round trip on card maps

  ghost predicate Covered(cards: map<CardId, Card>, ord: Ordinal) {
    exists c <- cards :: cards[c].ord == ord
  }

  /** The guard: neither the old fields, nor the new fields at a mapped ordinal, render a template
      for which the note had no card. */
  ghost predicate Complete(cards: map<CardId, Card>, there: Route, original: Rendered, changed: Rendered) {
    && (forall o: Ordinal | original(o) :: Covered(cards, o))
    && (forall o: Ordinal | there(o).Some? && changed(there(o).value) :: Covered(cards, o))
  }

  ghost predicate Inverse(there: Route, back: Route) {
    forall o: Ordinal, t: Ordinal :: there(o) == Some(t) <==> back(t) == Some(o)
  }

  /** A note's cards before an update, after it, after later study, and after the reverse effect. */
  datatype Trip = Trip(b: map<CardId, Card>, u: map<CardId, Card>, m: map<CardId, Card>, r: map<CardId, Card>,
                       n0: nat, n1: nat)

  ghost predicate RoundTrip(trip: Trip, there: Route, back: Route, original: Rendered, changed: Rendered) {
    && trip.n0 <= trip.n1
    && (forall c <- trip.b :: there(trip.b[c].ord).Some? && trip.b[c].odid == 0)
    && Rewritten(trip.b, trip.n0, there, changed, trip.u)
    && trip.m.Keys == trip.u.Keys
    && (forall c <- trip.u :: trip.m[c].ord == trip.u[c].ord && trip.m[c].odid == trip.u[c].odid)
    && Rewritten(trip.m, trip.n1, back, original, trip.r)
  }

  lemma OldCardsReturn(trip: Trip, there: Route, back: Route, original: Rendered, changed: Rendered)
    requires Inverse(there, back) && RoundTrip(trip, there, back, original, changed)
    ensures forall c <- trip.b :: c in trip.m && c in trip.r && SameStudy(trip.m[c], trip.r[c])
                                  && trip.r[c].ord == trip.b[c].ord && trip.r[c].odid == 0 && back(trip.m[c].ord).Some?
  {
    forall c <- trip.b
      ensures c in trip.m && c in trip.r && SameStudy(trip.m[c], trip.r[c])
      ensures trip.r[c].ord == trip.b[c].ord && trip.r[c].odid == 0 && back(trip.m[c].ord).Some?
    {
      assert c in trip.u && KeptCard(trip.b[c], there, trip.u[c]);
      assert c in trip.m && back(trip.m[c].ord) == Some(trip.b[c].ord);
      assert c in trip.r && KeptCard(trip.m[c], back, trip.r[c]);
    }
  }

  lemma GeneratedOf(cards: map<CardId, Card>, next: nat, route: Route, rendered: Rendered, out: map<CardId, Card>,
                    c: CardId)
    requires Rewritten(cards, next, route, rendered, out) && c in out && c !in cards
    ensures c >= next && Uncovered(cards, route, rendered, c - next) && FreshCard(c - next, out[c])
  {}

  /** A left-over card that the update generated sits at a mapped ordinal no old card covered. */
  lemma LeftByUpdate(trip: Trip, there: Route, back: Route, original: Rendered, changed: Rendered, c: CardId)
    requires RoundTrip(trip, there, back, original, changed)
    requires c in trip.r && c !in trip.b && c in trip.m
    requires there(trip.r[c].ord) == Some(trip.m[c].ord)
    ensures !Complete(trip.b, there, original, changed)
  {
    hide Rewritten;
    GeneratedOf(trip.b, trip.n0, there, changed, trip.u, c);
    assert !Covered(trip.b, trip.r[c].ord);
  }

  /** A left-over card that the restore generated renders from the old fields, and no old card had its ordinal. */
  lemma LeftByRestore(trip: Trip, there: Route, back: Route, original: Rendered, changed: Rendered, c: CardId)
    requires Inverse(there, back) && RoundTrip(trip, there, back, original, changed)
    requires c in trip.r && c !in trip.m
    ensures !Complete(trip.b, there, original, changed)
  {
    OldCardsReturn(trip, there, back, original, changed);
    var o := c - trip.n1;
    assert Uncovered(trip.m, back, original, o);
    forall d <- trip.b ensures trip.b[d].ord != o {
      assert KeptCard(trip.m[d], back, trip.r[d]);
    }
    assert !Covered(trip.b, o);
  }

  lemma CompleteLeavesNoOther(trip: Trip, there: Route, back: Route, original: Rendered, changed: Rendered)
    requires Inverse(there, back) && RoundTrip(trip, there, back, original, changed)
    requires Complete(trip.b, there, original, changed)
    ensures trip.r.Keys <= trip.b.Keys
  {
    forall c <- trip.r ensures c in trip.b {
      if c !in trip.b {
        if c in trip.m {
          assert KeptCard(trip.m[c], back, trip.r[c]);
          LeftByUpdate(trip, there, back, original, changed, c);
        }
        else { LeftByRestore(trip, there, back, original, changed, c); }
      }
    }
  }

  lemma UncoveredTargetStays(trip: Trip, there: Route, back: Route, original: Rendered, changed: Rendered, o: Ordinal,
                             t: Ordinal)
    requires RoundTrip(trip, there, back, original, changed)
    requires back(t) == Some(o) && changed(t) && !Covered(trip.b, o)
    requires forall p: Ordinal | there(p) == Some(t) :: p == o
    ensures var c := trip.n0 + t; c in trip.r && c !in trip.b
  {
    assert Uncovered(trip.b, there, changed, t);
    var c := trip.n0 + t;
    assert c in trip.u && c !in trip.b;
    assert FreshCard(t, trip.u[c]);
  }

  lemma UncoveredOriginalStays(trip: Trip, there: Route, back: Route, original: Rendered, changed: Rendered, o: Ordinal)
    requires Inverse(there, back) && RoundTrip(trip, there, back, original, changed)
    requires original(o) && !Covered(trip.b, o)
    ensures exists c <- trip.r :: c !in trip.b
  {
    OldCardsReturn(trip, there, back, original, changed);
    if c :| c in trip.m && back(trip.m[c].ord) == Some(o) {
      assert c in trip.r && KeptCard(trip.m[c], back, trip.r[c]);
    } else {
      assert Uncovered(trip.m, back, original, o);
      assert trip.n1 + o in trip.r && trip.n1 + o !in trip.b;
    }
  }

  lemma IncompleteLeavesAnother(trip: Trip, there: Route, back: Route, original: Rendered, changed: Rendered)
    requires Inverse(there, back) && RoundTrip(trip, there, back, original, changed)
    requires !Complete(trip.b, there, original, changed)
    ensures exists c <- trip.r :: c !in trip.b
  {
    if o: Ordinal :| there(o).Some? && changed(there(o).value) && !Covered(trip.b, o) {
      var t := there(o).value;
      assert back(t) == Some(o);
      UncoveredTargetStays(trip, there, back, original, changed, o, t);
    } else {
      var o: Ordinal :| original(o) && !Covered(trip.b, o);
      UncoveredOriginalStays(trip, there, back, original, changed, o);
    }
  }

  // ---------------------------------------------------------------- the theorem

  /** The setting: an accepted update, later study only, and the planned reverse effect accepted by
      its own preflight. */
  ghost predicate Reversible(before: Collection, update: Body, mid: Collection) {
    && WellFormed(before) && update.UpdateNote? && ValidBody(update) && PreflightUpdate(before, update).None?
    && WellFormed(mid) && OnlyStudied(PerformUpdate(before, update), mid, update.nid)
    && Observable(mid, update.nid) && PreflightRestore(mid, ReverseBody(before, update, mid)).None?
  }

  /** The collection after the update, and after undoing it. */
  ghost function Updated(before: Collection, update: Body, mid: Collection): Collection
    requires Reversible(before, update, mid)
  {
    PerformUpdate(before, update)
  }

  ghost function Restored(before: Collection, update: Body, mid: Collection): Collection
    requires Reversible(before, update, mid)
  {
    PerformRestore(mid, ReverseBody(before, update, mid))
  }

  ghost predicate CompleteFor(before: Collection, update: Body)
    requires update.UpdateNote? && Rewritable(before, update.nid, update.migration, update.fields)
  {
    var row := before.notes[update.nid];
    Complete(CardsOf(before, update.nid), RouteOf(update.migration), RenderedBy(before.models[row.mid], row.fields),
             RenderedAfter(before, update.nid, update.migration, update.fields))
  }

  ghost function TripOf(before: Collection, update: Body, mid: Collection): Trip
    requires Reversible(before, update, mid)
  {
    var nid := update.nid;
    Trip(CardsOf(before, nid), CardsOf(Updated(before, update, mid), nid), CardsOf(mid, nid),
         CardsOf(Restored(before, update, mid), nid), before.nextId, mid.nextId)
  }

  lemma RoutesInvert(before: Collection, nid: NoteId, migration: Option<Migration>)
    requires Observable(before, nid) && ValidMigration(migration)
    ensures Inverse(RouteOf(migration), RouteOf(Reverse(before, nid, migration)))
  {
    var there, back := RouteOf(migration), RouteOf(Reverse(before, nid, migration));
    forall o: Ordinal, t: Ordinal ensures there(o) == Some(t) <==> back(t) == Some(o) {
      if there(o) == Some(t) { ReverseInverts(before, nid, migration, o); }
      if back(t) == Some(o) { ReverseCovers(before, nid, migration, t); }
    }
  }

  /** The note's cards before the update, after it, and after later study. */
  lemma UpdateHalf(before: Collection, update: Body, mid: Collection)
    requires Reversible(before, update, mid)
    ensures Rewritable(before, update.nid, update.migration, update.fields) && before.nextId <= mid.nextId
    ensures var nid := update.nid;
            var b, u, m := CardsOf(before, nid), CardsOf(Updated(before, update, mid), nid), CardsOf(mid, nid);
            && (forall c <- b :: RouteOf(update.migration)(b[c].ord).Some? && b[c].odid == 0)
            && Rewritten(b, before.nextId, RouteOf(update.migration),
                         RenderedAfter(before, nid, update.migration, update.fields), u)
            && m.Keys == u.Keys && forall c <- u :: m[c].ord == u[c].ord && m[c].odid == u[c].odid
  {
    UpdateRewritable(before, update);
    UpdateLeaves(before, update);
    hide Rewritten, PerformUpdate, PreflightUpdate, PreflightRestore, WellFormed, Rewritable;
    var after := Updated(before, update, mid);
    assert OnlyStudied(after, mid, update.nid);
    forall c <- CardsOf(after, update.nid)
      ensures c in CardsOf(mid, update.nid) && CardsOf(mid, update.nid)[c].ord == CardsOf(after, update.nid)[c].ord
      ensures CardsOf(mid, update.nid)[c].odid == CardsOf(after, update.nid)[c].odid
    {
      assert c in CardsOf(mid, update.nid) && mid.cards[c].ord == after.cards[c].ord;
    }
  }

  /** The note's cards after the reverse effect. */
  lemma RestoreHalf(before: Collection, update: Body, mid: Collection)
    requires Reversible(before, update, mid) && Observable(before, update.nid)
    ensures var nid, row := update.nid, before.notes[update.nid];
            Rewritten(CardsOf(mid, nid), mid.nextId, RouteOf(Reverse(before, nid, update.migration)),
                      RenderedBy(before.models[row.mid], row.fields), CardsOf(Restored(before, update, mid), nid))
  {
    var nid, reverse := update.nid, ReverseBody(before, update, mid);
    RestoreLeaves(mid, reverse);
    RestoredModel(before, update, mid);
  }

  lemma RestoredModel(before: Collection, update: Body, mid: Collection)
    requires Reversible(before, update, mid) && Observable(before, update.nid)
    ensures ModelAfter(mid, update.nid, Reverse(before, update.nid, update.migration)) == before.notes[update.nid].mid
    ensures mid.models == before.models
  {
    UpdateLeaves(before, update);
  }

  lemma TripIsRoundTrip(before: Collection, update: Body, mid: Collection)
    requires Reversible(before, update, mid)
    ensures Rewritable(before, update.nid, update.migration, update.fields)
    ensures Inverse(RouteOf(update.migration), RouteOf(Reverse(before, update.nid, update.migration)))
    ensures var row := before.notes[update.nid];
            RoundTrip(TripOf(before, update, mid), RouteOf(update.migration),
                      RouteOf(Reverse(before, update.nid, update.migration)),
                      RenderedBy(before.models[row.mid], row.fields),
                      RenderedAfter(before, update.nid, update.migration, update.fields))
  {
    assert Observable(before, update.nid);
    RoutesInvert(before, update.nid, update.migration);
    hide Reversible, Rewritten, RouteOf, Reverse, RenderedBy, RenderedAfter, Inverse, Updated, Restored, CardsOf,
         WellFormed;
    UpdateHalf(before, update, mid);
    RestoreHalf(before, update, mid);
  }

  /** Every old card is in the reverse body's deck list with its old deck. */
  lemma ReverseDecks(before: Collection, update: Body, mid: Collection, c: CardId)
    requires Reversible(before, update, mid) && c in CardsOf(before, update.nid) && c in CardsOf(mid, update.nid)
    requires RouteOf(Reverse(before, update.nid, update.migration))(CardsOf(mid, update.nid)[c].ord).Some?
    ensures var decks := ReverseBody(before, update, mid).decks;
            c in decks && decks[c] == before.cards[c].did
  {}

  /** Every old card returns to its ordinal and deck with the study it has now. */
  lemma RestoreKeepsOldCards(before: Collection, update: Body, mid: Collection)
    requires Reversible(before, update, mid)
    ensures var nid := update.nid;
            var m, r := CardsOf(mid, nid), CardsOf(Restored(before, update, mid), nid);
            forall c <- CardsOf(before, nid) :: c in m && c in r && SameStudy(m[c], r[c])
              && r[c].ord == before.cards[c].ord && r[c].did == before.cards[c].did && r[c].odid == before.cards[c].odid
  {
    var nid, row := update.nid, before.notes[update.nid];
    TripIsRoundTrip(before, update, mid);
    var trip := TripOf(before, update, mid);
    OldCardsReturn(trip, RouteOf(update.migration), RouteOf(Reverse(before, nid, update.migration)),
                   RenderedBy(before.models[row.mid], row.fields),
                   RenderedAfter(before, nid, update.migration, update.fields));
    RestoreLeaves(mid, ReverseBody(before, update, mid));
    forall c <- CardsOf(before, nid) ensures c in trip.r && trip.r[c].did == before.cards[c].did {
      ReverseDecks(before, update, mid, c);
    }
  }

  lemma SameContentIffSameCards(before: Collection, after: Collection, nid: NoteId)
    requires Observable(before, nid) && Observable(after, nid)
    requires after.notes[nid] == before.notes[nid] && after.models == before.models
    requires forall c <- CardsOf(before, nid) :: c in CardsOf(after, nid)
               && CardsOf(after, nid)[c].ord == before.cards[c].ord && CardsOf(after, nid)[c].did == before.cards[c].did
               && CardsOf(after, nid)[c].odid == before.cards[c].odid
    ensures ContentOf(Observe(after, nid)) == ContentOf(Observe(before, nid))
            <==> CardsOf(after, nid).Keys <= CardsOf(before, nid).Keys
  {
    var x, y := ContentOf(Observe(after, nid)), ContentOf(Observe(before, nid));
    assert x.cards.Keys == CardsOf(after, nid).Keys && y.cards.Keys == CardsOf(before, nid).Keys;
    if CardsOf(after, nid).Keys <= CardsOf(before, nid).Keys {
      assert x.cards == y.cards;
    }
  }

  lemma RestoredRow(before: Collection, update: Body, mid: Collection)
    requires Reversible(before, update, mid)
    ensures var after := Restored(before, update, mid);
            update.nid in after.notes && after.notes[update.nid] == before.notes[update.nid]
                && after.models == before.models
  {
    UpdateLeaves(before, update);
    RestoreLeaves(mid, ReverseBody(before, update, mid));
  }

  lemma RestoredCardSet(before: Collection, update: Body, mid: Collection)
    requires Reversible(before, update, mid)
    requires Rewritable(before, update.nid, update.migration, update.fields)
    ensures CardsOf(Restored(before, update, mid), update.nid).Keys <= CardsOf(before, update.nid).Keys
            <==> CompleteFor(before, update)
  {
    var nid, row, trip := update.nid, before.notes[update.nid], TripOf(before, update, mid);
    var there, back := RouteOf(update.migration), RouteOf(Reverse(before, nid, update.migration));
    var original, changed := RenderedBy(before.models[row.mid], row.fields),
        RenderedAfter(before, nid, update.migration, update.fields);
    TripIsRoundTrip(before, update, mid);
    if CompleteFor(before, update) {
      CompleteLeavesNoOther(trip, there, back, original, changed);
    } else {
      IncompleteLeavesAnother(trip, there, back, original, changed);
    }
  }

  /** Restore undoes update, mapped migration and later study included, exactly under the guard; no
      studied card is lost and no schedule or history changes, guard or not. */
  lemma RestoreUndoesUpdate(before: Collection, update: Body, mid: Collection)
    requires Reversible(before, update, mid)
    ensures Rewritable(before, update.nid, update.migration, update.fields)
    ensures var after := Restored(before, update, mid);
            && Observable(after, update.nid)
            && (ContentOf(Observe(after, update.nid)) == ContentOf(Observe(before, update.nid))
                <==> CompleteFor(before, update))
    ensures StudyConserved(mid, Restored(before, update, mid))
  {
    RestoreConserves(mid, ReverseBody(before, update, mid), ReverseBody(before, update, mid).decks);
    UpdateRewritable(before, update);
    RestoredRow(before, update, mid);
    RestoredCardSet(before, update, mid);
    RestoreKeepsOldCards(before, update, mid);
    SameContentIffSameCards(before, Restored(before, update, mid), update.nid);
  }

  // ---------------------------------------------------------------- one note the restore does not return

  const PAIR := Model("Pair", "m", {"Front"}, [Template({{"Front"}}), Template({{"Front"}})])
  const OLD_CARD := Card(1, 0, 1, 0, NewScheduler(1), 0, [])
  const HALF: Collection :=
    Collection(map[1 := NoteRow(7, map["Front" := "old"], [])], map[2 := OLD_CARD], map[7 := PAIR],
               map[1 := Deck(false, 0)], map[], 3)

  /** A change of one field of the note. */
  function Reworded(): Body {
    UpdateNote(1, ContentOf(Observe(HALF, 1)), None, map["Front" := "new"], [], 1)
  }

  lemma HalfAccepts()
    ensures WellFormed(HALF) && PreflightUpdate(HALF, Reworded()).None?
  {
    assert CardsOf(HALF, 1) == map[2 := OLD_CARD];
  }

  lemma UpdatedWellFormed(before: Collection, update: Body)
    requires WellFormed(before) && update.UpdateNote? && ValidBody(update) && PreflightUpdate(before, update).None?
    ensures WellFormed(PerformUpdate(before, update))
  {
    var r := Rewrite(before, update.nid, update.migration, update.fields,
                     AddTags(before.notes[update.nid].tags, update.addTags));
    UpdateWellFormed(before, update, Everywhere(CardsOf(r, update.nid).Keys, update.deck));
  }

  lemma OldCardsPlain(before: Collection, update: Body)
    requires WellFormed(before) && update.UpdateNote? && PreflightUpdate(before, update).None?
    ensures forall c <- CardsOf(before, update.nid) :: CardsOf(before, update.nid)[c].odid == 0
  {
    UpdateRewritable(before, update);
    hide PreflightUpdate, WellFormed, Rewritable;
  }

  lemma OwnOrFresh(col: Collection, nid: NoteId, c: CardId)
    requires WellFormed(col) && (c in CardsOf(col, nid) || c >= col.nextId)
    ensures c in col.cards ==> col.cards[c].nid == nid
  {}

  /** A card of the rewritten note: kept with its study, or fresh and unstudied. */
  predicate OldOrFresh(cards: map<CardId, Card>, next: nat, out: map<CardId, Card>, c: CardId) {
    c in out && if c in cards then SameStudy(cards[c], out[c]) else c >= next && !Studied(out[c])
  }

  lemma RewrittenCards(cards: map<CardId, Card>, next: nat, route: Route, rendered: Rendered, out: map<CardId, Card>)
    requires Rewritten(cards, next, route, rendered, out) && forall c <- cards :: cards[c].odid == 0
    ensures forall c <- out :: out[c].odid == 0 && OldOrFresh(cards, next, out, c)
  {
    forall c <- out ensures out[c].odid == 0 && OldOrFresh(cards, next, out, c) {
      if c in cards { assert KeptCard(cards[c], route, out[c]); } else { assert FreshCard(c - next, out[c]); }
    }
  }

  /** After an update each card is in the deck it asks for, outside filtered decks, and old with its study or
      fresh and unstudied. */
  lemma UpdatedCards(before: Collection, update: Body)
    requires WellFormed(before) && update.UpdateNote? && PreflightUpdate(before, update).None?
    ensures var out := CardsOf(PerformUpdate(before, update), update.nid);
            forall c <- out :: out[c].odid == 0 && out[c].did == update.deck
                && OldOrFresh(CardsOf(before, update.nid), before.nextId, out, c)
  {
    UpdateRewritable(before, update);
    hide PerformUpdate, PreflightUpdate, WellFormed, CardsOf, Rewritten, RouteOf, RenderedAfter, AddTags, OldOrFresh;
    OldCardsPlain(before, update);
    UpdateLeaves(before, update);
    var out := CardsOf(PerformUpdate(before, update), update.nid);
    RewrittenCards(CardsOf(before, update.nid), before.nextId, RouteOf(update.migration),
                   RenderedAfter(before, update.nid, update.migration, update.fields), out);
  }

  // ---------------------------------------------------------------- when the reverse is accepted

  /** What the reverse preflight can still refuse: study on a card it removes, an old deck that is no ordinary
      deck any more, and a move of a memory state between presets. */
  predicate ReverseGuard(before: Collection, update: Body, mid: Collection)
    requires update.UpdateNote? && Observable(before, update.nid) && Observable(mid, update.nid)
  {
    var reverse := ReverseBody(before, update, mid);
    && (forall c <- CardsOf(mid, update.nid) :: c in reverse.removed ==> !Studied(mid.cards[c]))
    && forall c <- CardsOf(mid, update.nid) :: c in reverse.decks ==>
         ValidDeck(mid, reverse.decks[c]) && !MovesPreset(mid, mid.cards[c], reverse.decks[c])
  }

  /** The note type and field checks of the reverse mapping pass because those of the update did. */
  lemma ReverseMigrates(before: Collection, update: Body, mid: Collection)
    requires update.UpdateNote? && Observable(before, update.nid) && Observable(mid, update.nid)
             && mid.models == before.models
    requires update.migration.Some?
    requires MigrationRefusal(before, update.migration.value, Observe(before, update.nid)).None?
    requires mid.notes[update.nid].mid == update.migration.value.targetModel
    requires before.notes[update.nid].fields.Keys == before.models[before.notes[update.nid].mid].fields
    ensures var note, reverse := Observe(mid, update.nid), Reverse(before, update.nid, update.migration);
            && MigrationRefusal(mid, reverse.value, note).None?
            && FieldsRefusal(mid, reverse, note, before.notes[update.nid].fields).None?
  {
    var forth, back := update.migration.value.ordinals, Swap(update.migration.value.ordinals);
    var m := update.migration.value;
    forall i | 0 <= i < |back|
      ensures back[i].source < |mid.models[m.targetModel].templates|
      ensures back[i].target < |mid.models[before.notes[update.nid].mid].templates|
    {
      assert forth[i] in forth && back[i] == Mapping(forth[i].target, forth[i].source);
    }
  }

  lemma ReverseParts(before: Collection, update: Body, mid: Collection)
    requires update.UpdateNote? && Observable(before, update.nid) && Observable(mid, update.nid)
    ensures var note, reverse := Observe(mid, update.nid), ReverseBody(before, update, mid);
            && reverse.nid == update.nid && reverse.migration == Reverse(before, update.nid, update.migration)
            && reverse.fields == before.notes[update.nid].fields
            && (reverse.migration.None? <==> update.migration.None?)
            && reverse.pre == ContentOf(note) && reverse.removed == Dropped(note, reverse.migration)
            && reverse.removed <= note.cards.Keys && reverse.decks.Keys == note.cards.Keys - reverse.removed
            && (reverse.migration.None? ==> reverse.removed == {})
            && (before.notes[update.nid].fields.Keys == note.fields.Keys
                ==> FieldsRefusal(mid, None, note, reverse.fields).None?)
  {}

  lemma ReverseGate(before: Collection, update: Body, mid: Collection)
    requires update.UpdateNote? && Observable(before, update.nid) && Observable(mid, update.nid)
    requires forall c <- CardsOf(mid, update.nid) :: mid.cards[c].odid == 0
    requires update.migration.None? ==> before.notes[update.nid].fields.Keys == mid.notes[update.nid].fields.Keys
    requires update.migration.Some? ==>
               var note, reverse := Observe(mid, update.nid), Reverse(before, update.nid, update.migration);
               && reverse.value.targetModel in mid.models && MigrationRefusal(mid, reverse.value, note).None?
               && FieldsRefusal(mid, reverse, note, before.notes[update.nid].fields).None?
    ensures PreflightRestore(mid, ReverseBody(before, update, mid)).None? <==> ReverseGuard(before, update, mid)
  {
    hide Reverse, MigrationRefusal, FieldsRefusal, ReverseBody, Dropped, ContentOf, Studied, ValidDeck, MovesPreset;
    ReverseParts(before, update, mid);
    var note, reverse := Observe(mid, update.nid), ReverseBody(before, update, mid);
    assert forall c <- note.cards :: note.cards[c] == mid.cards[c];
    if ReverseGuard(before, update, mid) {
      assert forall c <- note.cards :: c in reverse.removed ==> !Studied(note.cards[c]);
      assert forall c <- reverse.decks :: c in note.cards && ValidDeck(mid, reverse.decks[c]);
    } else if c :| c in note.cards && c in reverse.removed && Studied(mid.cards[c]) {
      assert Studied(note.cards[c]);
    } else {
      var c :| c in note.cards && c in reverse.decks
               && !(ValidDeck(mid, reverse.decks[c]) && !MovesPreset(mid, mid.cards[c], reverse.decks[c]));
      assert !ValidDeck(mid, reverse.decks[c]) || MovesPreset(mid, note.cards[c], reverse.decks[c]);
    }
  }

  /** What the update leaves for the reverse preflight to see. */
  lemma UpdatedFrame(before: Collection, update: Body)
    requires WellFormed(before) && update.UpdateNote? && PreflightUpdate(before, update).None?
    ensures var mid, nid := PerformUpdate(before, update), update.nid;
            && Observable(before, nid) && Observable(mid, nid) && mid.models == before.models
            && mid.decks == before.decks
            && before.notes[nid].fields.Keys == before.models[before.notes[nid].mid].fields
            && ValidDeck(before, update.deck)
            && (update.migration.None? ==> mid.notes[nid].fields.Keys == before.notes[nid].fields.Keys)
            && (update.migration.Some? ==>
                  MigrationRefusal(before, update.migration.value, Observe(before, nid)).None?
                  && mid.notes[nid].mid == update.migration.value.targetModel)
  {
    UpdateLeaves(before, update);
    hide PerformUpdate, Rewritten, CardsOf;
  }

  /** After an accepted update and any later study, the reverse effect passes its own preflight exactly under
      the guard: every other check is met by construction, mapped or not. */
  lemma ReversibleExactly(before: Collection, update: Body, mid: Collection)
    requires WellFormed(before) && update.UpdateNote? && ValidBody(update) && PreflightUpdate(before, update).None?
    requires WellFormed(mid) && OnlyStudied(PerformUpdate(before, update), mid, update.nid)
    ensures Observable(before, update.nid) && Observable(mid, update.nid)
    ensures Reversible(before, update, mid) <==> ReverseGuard(before, update, mid)
  {
    UpdatedFrame(before, update);
    UpdatedCards(before, update);
    hide PerformUpdate, PreflightUpdate, PreflightRestore, WellFormed, ValidBody, ReverseGuard, OldOrFresh,
         MigrationRefusal;
    var after := PerformUpdate(before, update);
    forall c <- CardsOf(mid, update.nid) ensures mid.cards[c].odid == 0 {
      assert c in CardsOf(after, update.nid) && after.cards[c].odid == 0;
    }
    if update.migration.Some? { ReverseMigrates(before, update, mid); }
    ReverseGate(before, update, mid);
  }

  /** An old card is in the reverse body's deck list with its old deck; any other card stays where it is. */
  lemma ReverseDeckOf(before: Collection, update: Body, mid: Collection, c: CardId)
    requires update.UpdateNote? && Observable(before, update.nid) && Observable(mid, update.nid)
    requires c in CardsOf(mid, update.nid)
    ensures var reverse := ReverseBody(before, update, mid);
            c in reverse.decks ==> reverse.decks[c] == if c in before.cards then before.cards[c].did
                else mid.cards[c].did
  {}

  lemma OldCardIsKept(before: Collection, update: Body, c: CardId)
    requires WellFormed(before) && update.UpdateNote? && ValidBody(update) && PreflightUpdate(before, update).None?
    requires c in CardsOf(before, update.nid)
    ensures var mid := PerformUpdate(before, update);
            Observable(before, update.nid) && Observable(mid, update.nid) && c in CardsOf(mid, update.nid)
            && c in ReverseBody(before, update, mid).decks && c !in ReverseBody(before, update, mid).removed
  {
    var nid, mid := update.nid, PerformUpdate(before, update);
    UpdateRewritable(before, update);
    UpdateLeaves(before, update);
    hide PerformUpdate, PreflightUpdate, WellFormed, Rewritable;
    assert Kept(update.migration, before.cards[c].ord);
    ReverseInverts(before, nid, update.migration, before.cards[c].ord);
    assert KeptCard(CardsOf(before, nid)[c], RouteOf(update.migration), CardsOf(mid, nid)[c]);
  }

  lemma NoPresetMove(before: Collection, update: Body, c: CardId)
    requires update.UpdateNote? && PreflightUpdate(before, update).None? && c in CardsOf(before, update.nid)
    ensures !MovesPreset(before, before.cards[c], update.deck)
  {
    assert Observe(before, update.nid).cards[c] == before.cards[c];
  }

  /** A move back is no preset change when the move there was none. */
  lemma NoMoveBack(a: Collection, b: Collection, was: Card, now: Card)
    requires a.decks == b.decks && SameStudy(was, now) && ValidDeck(a, was.did) && !MovesPreset(a, was, now.did)
    ensures !MovesPreset(b, now, was.did)
  {}

  lemma RightAwayCard(before: Collection, update: Body, c: CardId)
    requires WellFormed(before) && update.UpdateNote? && ValidBody(update) && PreflightUpdate(before, update).None?
    requires forall d <- CardsOf(before, update.nid) :: ValidDeck(before, before.cards[d].did)
    requires c in PerformUpdate(before, update).cards && PerformUpdate(before, update).cards[c].nid == update.nid
    ensures var mid := PerformUpdate(before, update);
            && Observable(before, update.nid) && Observable(mid, update.nid)
            && (c in ReverseBody(before, update, mid).removed ==> !Studied(mid.cards[c]))
            && (c in ReverseBody(before, update, mid).decks ==>
                  var deck := ReverseBody(before, update, mid).decks[c];
                  ValidDeck(mid, deck) && !MovesPreset(mid, mid.cards[c], deck))
  {
    hide PerformUpdate, PreflightUpdate, WellFormed, ValidBody, ReverseBody, MovesPreset, MigrationRefusal, Studied;
    UpdatedFrame(before, update);
    UpdatedCards(before, update);
    var nid, mid := update.nid, PerformUpdate(before, update);
    assert c in CardsOf(mid, nid) && OldOrFresh(CardsOf(before, nid), before.nextId, CardsOf(mid, nid), c);
    ReverseDeckOf(before, update, mid, c);
    if c in CardsOf(before, nid) {
      OldCardIsKept(before, update, c);
      NoPresetMove(before, update, c);
      NoMoveBack(before, mid, before.cards[c], mid.cards[c]);
    } else {
      OwnOrFresh(before, nid, c);
      NoMoveInPlace(mid, mid.cards[c]);
    }
  }

  lemma NoMoveInPlace(col: Collection, card: Card)
    ensures !MovesPreset(col, card, card.did)
  {}

  lemma GuardRightAway(before: Collection, update: Body)
    requires WellFormed(before) && update.UpdateNote? && ValidBody(update) && PreflightUpdate(before, update).None?
    requires forall c <- CardsOf(before, update.nid) :: ValidDeck(before, before.cards[c].did)
    ensures Observable(before, update.nid) && Observable(PerformUpdate(before, update), update.nid)
    ensures ReverseGuard(before, update, PerformUpdate(before, update))
  {
    UpdatedFrame(before, update);
    hide PerformUpdate, PreflightUpdate, WellFormed, ValidBody, ValidDeck, MovesPreset, ReverseBody, MigrationRefusal;
    forall c <- CardsOf(PerformUpdate(before, update), update.nid) { RightAwayCard(before, update, c); }
  }

  lemma GuardFails(before: Collection, update: Body, c: CardId)
    requires WellFormed(before) && update.UpdateNote? && ValidBody(update) && PreflightUpdate(before, update).None?
    requires c in CardsOf(before, update.nid) && !ValidDeck(before, before.cards[c].did)
    ensures Observable(before, update.nid) && Observable(PerformUpdate(before, update), update.nid)
    ensures !ReverseGuard(before, update, PerformUpdate(before, update))
  {
    UpdatedFrame(before, update);
    hide PerformUpdate, PreflightUpdate, WellFormed, ValidBody, ValidDeck, MovesPreset, ReverseBody, MigrationRefusal;
    var mid := PerformUpdate(before, update);
    OldCardIsKept(before, update, c);
    ReverseDeckOf(before, update, mid, c);
    SameDecks(before, mid, before.cards[c].did);
  }

  /** Right away, that is exactly when every old card's deck is an ordinary deck. */
  lemma ReversibleRightAway(before: Collection, update: Body)
    requires WellFormed(before) && update.UpdateNote? && ValidBody(update) && PreflightUpdate(before, update).None?
    ensures Reversible(before, update, PerformUpdate(before, update))
            <==> forall c <- CardsOf(before, update.nid) :: ValidDeck(before, before.cards[c].did)
  {
    UpdatedWellFormed(before, update);
    UpdatedFrame(before, update);
    hide PerformUpdate, PreflightUpdate, WellFormed, ValidBody, ValidDeck, ReverseGuard, Reversible, MigrationRefusal;
    ReversibleExactly(before, update, PerformUpdate(before, update));
    if c :| c in CardsOf(before, update.nid) && !ValidDeck(before, before.cards[c].did) {
      GuardFails(before, update, c);
    } else {
      GuardRightAway(before, update);
    }
  }

  lemma SameDecks(a: Collection, b: Collection, deck: DeckId)
    requires a.decks == b.decks
    ensures ValidDeck(a, deck) <==> ValidDeck(b, deck)
  {}

  /** The second template renders from the old field, and the note had no card for it. */
  lemma HalfIncomplete()
    ensures Rewritable(HALF, 1, None, Reworded().fields) && !CompleteFor(HALF, Reworded())
  {
    HalfAccepts();
    UpdateRewritable(HALF, Reworded());
    assert Filled(map["Front" := "old"]) == {"Front"};
    assert RenderedBy(PAIR, map["Front" := "old"])(1);
    assert !Covered(CardsOf(HALF, 1), 1);
  }

  /** The update generates that card, and the restore keeps it: the content does not come back. */
  lemma RestoreGap()
    ensures PreflightUpdate(HALF, Reworded()).None? && Reversible(HALF, Reworded(), PerformUpdate(HALF, Reworded()))
    ensures var after := Restored(HALF, Reworded(), PerformUpdate(HALF, Reworded()));
            Observable(after, 1) && ContentOf(Observe(after, 1)) != ContentOf(Observe(HALF, 1))
  {
    HalfAccepts();
    ReversibleRightAway(HALF, Reworded());
    HalfIncomplete();
    hide Reversible, Restored, PerformUpdate, PreflightUpdate, CompleteFor, WellFormed, Rewritable, ContentOf;
    RestoreUndoesUpdate(HALF, Reworded(), PerformUpdate(HALF, Reworded()));
  }
}
