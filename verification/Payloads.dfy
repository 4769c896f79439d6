/** Structural validation of the bodies the effects rely on.  The validators compare the size of a set with
    the length of the list it was filled from; the contracts say what that buys: injectivity and disjointness. */
module Payloads {
  import opened Wrappers
  import opened Anki
  import opened Effects

  const MAX_ORDINAL := 1000
  const MAX_MAPPINGS := 64
  const MAX_INHERITED := 16
  const MAX_CARDS := 64

  ghost predicate Distinct(s: seq<nat>) {
    forall i, j | 0 <= i < j < |s| :: s[i] != s[j]
  }

  lemma LongerDistinct(s: seq<nat>, x: nat)
    ensures Distinct(s + [x]) <==> Distinct(s) && x !in s
  {
    var longer := s + [x];
    if Distinct(longer) {
      forall i, j | 0 <= i < j < |s| ensures s[i] != s[j] { assert longer[i] != longer[j]; }
      forall i | 0 <= i < |s| ensures s[i] != x { assert longer[i] != longer[|s|]; }
    }
  }

  /** A list has as many different elements as it is long exactly when no element repeats. */
  lemma {:induction false} CountsDistinct(s: seq<nat>, elements: set<nat>)
    requires elements == set x | x in s
    ensures |elements| <= |s| && (|elements| == |s| <==> Distinct(s))
    decreases |s|
  {
    hide Distinct;
    if s != [] {
      var last, rest := s[|s| - 1], s[..|s| - 1];
      var fewer := set x | x in rest;
      assert s == rest + [last];
      CountsDistinct(rest, fewer);
      LongerDistinct(rest, last);
      assert elements == fewer + {last};
    } else {
      assert elements == {};
      NoneDistinct();
    }
  }

  lemma NoneDistinct()
    ensures Distinct([])
  {}

  method AllDistinct(s: seq<nat>) returns (ok: bool)
    ensures ok <==> Distinct(s)
  {
    var seen: set<nat> := {};
    for i := 0 to |s|
      invariant seen == set x | x in s[..i]
    {
      assert s[..i + 1] == s[..i] + [s[i]];
      seen := seen + {s[i]};
    }
    assert s[..|s|] == s;
    CountsDistinct(s, seen);
    ok := |seen| == |s|;
  }

  /** The ordinal map of a migration: bounded, and a partial bijection. */
  method CheckMigration(entries: seq<Mapping>) returns (ok: bool)
    ensures ok <==> 1 <= |entries| <= MAX_MAPPINGS && InjectiveMap(entries)
                    && forall e <- entries :: e.source < MAX_ORDINAL && e.target < MAX_ORDINAL
  {
    if !(1 <= |entries| <= MAX_MAPPINGS) { return false; }
    var sources: seq<Ordinal>, targets: seq<Ordinal> := [], [];
    for i := 0 to |entries|
      invariant |sources| == |targets| == i
      invariant forall k | 0 <= k < i :: sources[k] == entries[k].source && targets[k] == entries[k].target
      invariant forall k | 0 <= k < i :: entries[k].source < MAX_ORDINAL && entries[k].target < MAX_ORDINAL
    {
      if entries[i].source >= MAX_ORDINAL || entries[i].target >= MAX_ORDINAL { return false; }
      sources, targets := sources + [entries[i].source], targets + [entries[i].target];
    }
    var s := AllDistinct(sources);
    var t := AllDistinct(targets);
    ok := s && t;
    assert s <==> forall i, j | 0 <= i < j < |entries| :: sources[i] != sources[j];
    assert t <==> forall i, j | 0 <= i < j < |entries| :: targets[i] != targets[j];
  }

  /** The schedules a new note copies: at most one for each of its cards. */
  method CheckInherit(entries: seq<Inherit>) returns (ok: bool)
    ensures ok <==> 1 <= |entries| <= MAX_INHERITED && (forall e <- entries :: e.ord < MAX_ORDINAL)
                    && forall i, j | 0 <= i < j < |entries| :: entries[i].ord != entries[j].ord
  {
    if !(1 <= |entries| <= MAX_INHERITED) { return false; }
    var ordinals: seq<Ordinal> := [];
    for i := 0 to |entries|
      invariant |ordinals| == i
                && forall k | 0 <= k < i :: ordinals[k] == entries[k].ord && entries[k].ord < MAX_ORDINAL
    {
      if entries[i].ord >= MAX_ORDINAL { return false; }
      ordinals := ordinals + [entries[i].ord];
    }
    ok := AllDistinct(ordinals);
    assert ok <==> forall i, j | 0 <= i < j < |entries| :: ordinals[i] != ordinals[j];
  }

  datatype CardDeck = CardDeck(card: CardId, deck: DeckId)

  ghost predicate OneDeckEach(decks: seq<CardDeck>) {
    forall i, j | 0 <= i < j < |decks| :: decks[i].card != decks[j].card
  }

  /** The map has exactly the entries of the list. */
  ghost predicate Lists(decks: seq<CardDeck>, kept: map<CardId, DeckId>) {
    && (forall e <- decks :: e.card in kept && kept[e.card] == e.deck)
    && (forall c <- kept :: CardDeck(c, kept[c]) in decks)
  }

  lemma ListsOneMore(decks: seq<CardDeck>, kept: map<CardId, DeckId>, e: CardDeck)
    requires Lists(decks, kept) && e.card !in kept
    ensures Lists(decks + [e], kept[e.card := e.deck])
  {
    forall d <- decks + [e] ensures d.card in kept[e.card := e.deck] && kept[e.card := e.deck][d.card] == d.deck {
      if d != e { assert d in decks; }
    }
  }

  method KeptDecks(decks: seq<CardDeck>) returns (r: Option<map<CardId, DeckId>>)
    ensures r.Some? <==> OneDeckEach(decks)
    ensures r.Some? ==> Lists(decks, r.value)
  {
    var kept: map<CardId, DeckId>, listed: seq<CardId> := map[], [];
    for i := 0 to |decks|
      invariant |listed| == i && kept.Keys == set c | c in listed
      invariant forall k | 0 <= k < i :: listed[k] == decks[k].card
      invariant Distinct(listed) ==> Lists(decks[..i], kept)
    {
      var e := decks[i];
      assert decks[..i + 1] == decks[..i] + [e];
      LongerDistinct(listed, e.card);
      if Distinct(listed + [e.card]) { ListsOneMore(decks[..i], kept, e); }
      kept, listed := kept[e.card := e.deck], listed + [e.card];
    }
    assert decks[..|decks|] == decks;
    CountsDistinct(listed, kept.Keys);
    assert Distinct(listed) <==> OneDeckEach(decks) by {
      assert forall i, j | 0 <= i < j < |decks| :: listed[i] != listed[j] <==> decks[i].card != decks[j].card;
    }
    r := if |kept.Keys| == |decks| then Some(kept) else None;
  }

  /** The cards a restore keeps and removes: no card twice, none in both lists. */
  method CheckRestore(decks: seq<CardDeck>, removed: seq<CardId>)
    returns (r: Option<(map<CardId, DeckId>, set<CardId>)>)
    ensures r.Some? <==> 1 <= |decks| <= MAX_CARDS && |removed| <= MAX_CARDS && Distinct(removed) && OneDeckEach(decks)
                         && forall e <- decks :: e.card !in removed
    ensures r.Some? ==> r.value.0.Keys !! r.value.1 && r.value.0.Keys != {}
                        && Lists(decks, r.value.0) && r.value.1 == set c | c in removed
  {
    if !(1 <= |decks| <= MAX_CARDS) || |removed| > MAX_CARDS { return None; }
    var kept := KeptDecks(decks);
    var gone := set c | c in removed;
    CountsDistinct(removed, gone);
    if kept.None? || |gone| != |removed| { return None; }
    if kept.value.Keys * gone != {} {
      ghost var c :| c in kept.value.Keys * gone;
      assert CardDeck(c, kept.value[c]) in decks;
      return None;
    }
    assert decks[0] in decks && decks[0].card in kept.value;
    forall e <- decks ensures e.card !in removed {
      assert e.card in kept.value.Keys && e.card !in kept.value.Keys * gone;
    }
    return Some((kept.value, gone));
  }
}
