/** Scope manifests of checkpoints: what must be covered, in strictly sorted lists that are searched by
    bisection.  A media name stands at its rank in byte order, so names compare as numbers. */
module Scope {
  import opened Wrappers

  datatype Requirement = Requirement(scheduling: bool, media: bool, schema: bool)
  datatype ScopeCard = ScopeCard(card: nat, note: nat, reps: nat, reviews: nat)
  /** `wellNamed` says that the name and the SHA-1 text have the allowed form. */
  datatype ScopeMedia = ScopeMedia(name: nat, wellNamed: bool)

  datatype ScopeManifest = ScopeManifest(
    requirement: Requirement, notes: seq<nat>, cards: seq<ScopeCard>, models: seq<nat>, media: seq<ScopeMedia>)

  const MAX_ENTRIES := 100_000
  const MAX_ID := 9_007_199_254_740_991
  const MAX_REPS := 4_294_967_295
  const EXTRA_REVIEWS := 1_000_000

  predicate Sorted(values: seq<nat>) {
    forall i, j | 0 <= i < j < |values| :: values[i] < values[j]
  }

  predicate WireId(id: nat) {
    1 <= id <= MAX_ID
  }

  function CardIds(cards: seq<ScopeCard>): seq<nat> {
    seq(|cards|, i requires 0 <= i < |cards| => cards[i].card)
  }

  function MediaNames(media: seq<ScopeMedia>): seq<nat> {
    seq(|media|, i requires 0 <= i < |media| => media[i].name)
  }

  function SaturatingAdd(a: nat, b: nat): nat {
    if a + b > MAX_REPS then MAX_REPS else a + b
  }

  /** A valid scope: bounded, sorted without repetition, closed over notes, and not empty where it must not be. */
  predicate ValidScope(s: ScopeManifest) {
    && |s.notes| <= MAX_ENTRIES && |s.cards| <= MAX_ENTRIES && |s.models| <= MAX_ENTRIES && |s.media| <= MAX_ENTRIES
    && (forall n <- s.notes :: WireId(n)) && (forall m <- s.models :: WireId(m))
    && Sorted(s.notes) && Sorted(s.models) && Sorted(CardIds(s.cards)) && Sorted(MediaNames(s.media))
    && (forall c <- s.cards :: WireId(c.card) && c.note in s.notes && c.reviews <= SaturatingAdd(c.reps, EXTRA_REVIEWS))
    && (forall m <- s.media :: m.wellNamed)
    && (s.requirement.media && s.media == [] ==> s.requirement.schema)
    && (s.requirement.scheduling && s.cards == [] ==> s.requirement.schema)
  }

  /** One pass with the previous value. */
  method StrictlySorted(values: seq<nat>) returns (ok: bool)
    ensures ok <==> Sorted(values)
  {
    var previous: Option<nat> := None;
    for i := 0 to |values|
      invariant previous == if i == 0 then None else Some(values[i - 1])
      invariant Sorted(values[..i])
    {
      if previous.Some? && previous.value >= values[i] {
        assert !(values[i - 1] < values[i]);
        return false;
      }
      assert forall k | 0 <= k < i :: values[..i][k] <= values[i - 1];
      previous := Some(values[i]);
    }
    assert values[..|values|] == values;
    return true;
  }

  /** Bisection: what it finds is there, and in a sorted list it finds what is there. */
  method BinarySearch(values: seq<nat>, key: nat) returns (found: bool)
    ensures found ==> key in values
    ensures Sorted(values) ==> (found <==> key in values)
  {
    var low, high := 0, |values|;
    while low < high
      invariant 0 <= low <= high <= |values|
      invariant Sorted(values) ==> key !in values[..low] && key !in values[high..]
    {
      var mid := low + (high - low) / 2;
      if values[mid] == key { return true; }
      if values[mid] < key {
        if Sorted(values) { assert forall k | 0 <= k <= mid :: values[k] != key; }
        low := mid + 1;
      } else {
        if Sorted(values) { assert forall k | mid <= k < |values| :: values[k] != key; }
        high := mid;
      }
    }
    assert values == values[..low] + values[high..];
    return false;
  }

  method AllFound(keys: seq<nat>, values: seq<nat>) returns (ok: bool)
    ensures ok ==> forall k <- keys :: k in values
    ensures Sorted(values) ==> (ok <==> forall k <- keys :: k in values)
  {
    for i := 0 to |keys|
      invariant forall k <- keys[..i] :: k in values
    {
      var found := BinarySearch(values, keys[i]);
      if !found { assert keys[i] in keys; return false; }
      assert keys[..i + 1] == keys[..i] + [keys[i]];
    }
    assert keys[..|keys|] == keys;
    return true;
  }

  /** The validator, in the order of its tests: sortedness is established before the search relies on it. */
  method Validate(s: ScopeManifest) returns (ok: bool)
    ensures ok <==> ValidScope(s)
  {
    if |s.notes| > MAX_ENTRIES || |s.cards| > MAX_ENTRIES || |s.models| > MAX_ENTRIES || |s.media| > MAX_ENTRIES {
      return false;
    }
    if !(forall n <- s.notes :: WireId(n)) || !(forall m <- s.models :: WireId(m)) { return false; }
    ok := StrictlySorted(s.notes);
    if !ok { return; }
    ok := StrictlySorted(s.models);
    if !ok { return; }
    ok := StrictlySorted(CardIds(s.cards));
    if !ok { return; }
    ok := StrictlySorted(MediaNames(s.media));
    if !ok { return; }
    for i := 0 to |s.cards|
      invariant forall c <- s.cards[..i] ::
                WireId(c.card) && c.note in s.notes && c.reviews <= SaturatingAdd(c.reps, EXTRA_REVIEWS)
    {
      var card := s.cards[i];
      var known := BinarySearch(s.notes, card.note);
      if !WireId(card.card) || !known || card.reviews > SaturatingAdd(card.reps, EXTRA_REVIEWS) {
        assert card in s.cards;
        return false;
      }
      assert s.cards[..i + 1] == s.cards[..i] + [card];
    }
    assert s.cards[..|s.cards|] == s.cards;
    ok := (forall m <- s.media :: m.wellNamed)
          && !(s.requirement.media && s.media == [] && !s.requirement.schema)
          && !(s.requirement.scheduling && s.cards == [] && !s.requirement.schema);
  }
}
