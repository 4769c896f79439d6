/** The frozen intent of one apply operation, and what the collection shows for one of its steps. */
module Readback {
  import opened Wrappers
  import opened Anki
  import opened Effects
  import opened Prediction
  import Scope

  type Id = nat

  /** What a digest stands for: a projection, a media file, a number of candidates, a refusal, or the scope
      of a checkpoint. */
  datatype Seen = SeenNote(note: NoteProjection) | SeenMedia(filename: string, media: Media) | SeenMany(count: nat)
                | SeenRefusal(reason: string) | SeenScope(scope: Scope.ScopeManifest)

  datatype IntentStep = IntentStep(id: Id, body: Body, expected: Seen)

  /** Ordered steps: new media first, then the one create or update. */
  datatype Intent = Intent(item: nat, lineage: Id, approved: Id, pre: Resolved, steps: seq<IntentStep>)

  datatype Reading = Expected(seen: Seen) | Unchanged | Different(seen: Seen)

  function Compare(seen: Seen, expected: Seen): Reading {
    if seen == expected then Expected(seen) else Different(seen)
  }

  /** The marked notes, projected as a new note is. */
  function ReadMarked(col: Collection, pre: Resolved, marker: string, expected: Seen): Option<Reading> {
    var found := Tagged(col, marker);
    if found == {} then Some(Unchanged)
    else if |found| > 1 then Some(Different(SeenMany(|found|)))
    else if !Observable(col, Least(found)) then None
    else Some(Compare(SeenNote(ReadCreate(col, Least(found), pre)), expected))
  }

  /** The precondition is tested before the expectation. */
  function ReadTarget(col: Collection, pre: Resolved, body: Body, expected: Seen): Option<Reading>
    requires body.UpdateNote?
  {
    if pre.observed.None? || pre.observed.value.id != body.nid || !Observable(col, body.nid) then None
    else if ContentOf(Observe(col, body.nid)) == body.pre then Some(Unchanged)
    else Some(Compare(SeenNote(ReadUpdate(col, pre)), expected))
  }

  /** What the collection shows for one step right now; nothing when it cannot be read. */
  function ReadStep(col: Collection, pre: Resolved, step: IntentStep): Option<Reading> {
    match step.body
    case StoreMedia(filename, _, _) =>
      if filename !in col.media then Some(Unchanged)
      else Some(Compare(SeenMedia(filename, col.media[filename]), step.expected))
    case CreateNote(_, _, _, _, _, marker, _) => ReadMarked(col, pre, marker, step.expected)
    case UpdateNote(_, _, _, _, _, _) => ReadTarget(col, pre, step.body, step.expected)
    case _ => None
  }

  /** The projection a commit compares: the first marked note, or the target note. */
  function FinalRead(col: Collection, intent: Intent): Option<Seen> {
    if intent.steps == [] then None
    else
      match intent.steps[|intent.steps| - 1].body
      case CreateNote(_, _, _, _, _, marker, _) =>
        var found := Tagged(col, marker);
        if found == {} || !Observable(col, Least(found)) then None
            else Some(SeenNote(ReadCreate(col, Least(found), intent.pre)))
      case UpdateNote(nid, _, _, _, _, _) =>
        if intent.pre.observed.None? || intent.pre.observed.value.id != nid || !Observable(col, nid) then None
        else Some(SeenNote(ReadUpdate(col, intent.pre)))
      case _ => None
  }

  /** An expected reading of the last step is an expected final read-back. */
  lemma ExpectedIsFinal(col: Collection, intent: Intent)
    requires intent.steps != []
    requires var last := intent.steps[|intent.steps| - 1];
             (last.body.CreateNote? || last.body.UpdateNote?)
                 && ReadStep(col, intent.pre, last) == Some(Expected(last.expected))
    ensures FinalRead(col, intent) == Some(intent.steps[|intent.steps| - 1].expected)
  {}

  // ---------------------------------------------------------------- what each answer says

  predicate Marked(col: Collection, marker: string, n: NoteId) {
    n in col.notes && marker in col.notes[n].tags
  }

  /** The one note with the marker. */
  predicate OnlyMarked(col: Collection, marker: string, n: NoteId) {
    Marked(col, marker, n) && forall k <- col.notes :: Marked(col, marker, k) ==> k == n
  }

  predicate FirstMarked(col: Collection, marker: string, n: NoteId) {
    Marked(col, marker, n) && forall k <- col.notes :: Marked(col, marker, k) ==> n <= k
  }

  predicate SeveralMarked(col: Collection, marker: string) {
    exists a <- col.notes, b <- col.notes :: a != b && Marked(col, marker, a) && Marked(col, marker, b)
  }

  lemma SeveralAreMore(col: Collection, marker: string)
    ensures |Tagged(col, marker)| > 1 <==> SeveralMarked(col, marker)
    ensures Tagged(col, marker) != {} && !SeveralMarked(col, marker)
            ==> OnlyMarked(col, marker, Least(Tagged(col, marker)))
  {
    var found := Tagged(col, marker);
    assert forall n :: n in found <==> Marked(col, marker, n);
    if a, b :| a in found && b in found && a != b {
      assert {a, b} <= found;
      Fewer({a, b}, found);
    } else if found != {} {
      assert found == {Least(found)};
    }
  }

  lemma Fewer(a: set<NoteId>, b: set<NoteId>)
    requires a <= b
    ensures |a| <= |b|
  {
    assert b == a + (b - a);
  }

  /** A create shows its precondition exactly while no note has the marker, and its expectation exactly when one
      note has it and reads as expected; two or more notes with it are neither, whatever is expected. */
  lemma MarkedExactly(col: Collection, pre: Resolved, marker: string, expected: Seen)
    ensures var r := ReadMarked(col, pre, marker, expected);
            && (r == Some(Unchanged) <==> forall n <- col.notes :: !Marked(col, marker, n))
            && (SeveralMarked(col, marker) ==>
                  r == Some(Different(SeenMany(|set n | n in col.notes && Marked(col, marker, n)|))))
            && (forall n <- col.notes | OnlyMarked(col, marker, n) ::
                  if !Observable(col, n) then r == None
                  else if SeenNote(ReadCreate(col, n, pre)) == expected then r == Some(Expected(expected))
                  else r == Some(Different(SeenNote(ReadCreate(col, n, pre)))))
            && ((exists e :: r == Some(Expected(e))) ==> exists n <- col.notes :: OnlyMarked(col, marker, n))
  {
    var found := Tagged(col, marker);
    assert found == set n | n in col.notes && Marked(col, marker, n);
    SeveralAreMore(col, marker);
    forall n <- col.notes | OnlyMarked(col, marker, n) ensures found == {n} {}
  }

  /** A commit compares the first note with the marker, or the target note, and nothing when there is none. */
  lemma FinalExactly(col: Collection, intent: Intent)
    requires intent.steps != []
    ensures var r, body := FinalRead(col, intent), intent.steps[|intent.steps| - 1].body;
            match body
            case CreateNote(_, _, _, _, _, marker, _) =>
              && ((forall n <- col.notes :: !Marked(col, marker, n)) ==> r == None)
              && (forall n <- col.notes | FirstMarked(col, marker, n) ::
                    r == if Observable(col, n) then Some(SeenNote(ReadCreate(col, n, intent.pre))) else None)
            case UpdateNote(nid, _, _, _, _, _) =>
              r == if intent.pre.observed.Some? && intent.pre.observed.value.id == nid && Observable(col, nid)
                   then Some(SeenNote(ReadUpdate(col, intent.pre))) else None
            case _ => r == None
  {
    hide ReadCreate, ReadUpdate;
    var body := intent.steps[|intent.steps| - 1].body;
    if body.CreateNote? {
      forall n <- col.notes | FirstMarked(col, body.marker, n)
        ensures n in Tagged(col, body.marker) && Least(Tagged(col, body.marker)) == n
      {
        assert n in Tagged(col, body.marker);
        var least := Least(Tagged(col, body.marker));
        assert Marked(col, body.marker, least);
      }
    }
  }

  /** A file shows its precondition exactly while it is absent, and an update while the target note has the old
      content; both show their expectation exactly on the expected value otherwise. */
  lemma OthersExactly(col: Collection, pre: Resolved, step: IntentStep)
    requires step.body.StoreMedia? || step.body.UpdateNote?
    ensures var r, body := ReadStep(col, pre, step), step.body;
            if body.StoreMedia?
            then && (r == Some(Unchanged) <==> body.filename !in col.media)
                 && (r == Some(Expected(step.expected))
                     <==> && body.filename in col.media
                          && step.expected == SeenMedia(body.filename, col.media[body.filename]))
                 && r.Some?
            else var known := pre.observed.Some? && pre.observed.value.id == body.nid && Observable(col, body.nid);
                 && (r.Some? <==> known)
                 && (r == Some(Unchanged) <==> known && ContentOf(Observe(col, body.nid)) == body.pre)
                 && (r == Some(Expected(step.expected))
                     <==> && known && ContentOf(Observe(col, body.nid)) != body.pre
                          && step.expected == SeenNote(ReadUpdate(col, pre)))
  {
    hide ContentOf, ReadUpdate;
  }
}
