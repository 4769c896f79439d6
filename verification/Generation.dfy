/** Drafting the pending items of a plan: windows of parallel requests merged one by one onto an in-memory
    chain, published a chunk at a time. */
module Generation {
  import opened Wrappers

  datatype Document = Document(id: nat, text: string, drafts: nat)

  /** A digest stands for the whole revision it is taken over. */
  datatype Revision = Revision(number: nat, parent: Option<Digest>, documents: seq<Document>)
  datatype Digest = Digest(revision: Revision)

  /** A deterministic provider chain: a draft for a document, or nothing. */
  type Provider = Document -> Option<Document>

  predicate DistinctIds(documents: seq<Document>) {
    forall i, j | 0 <= i < j < |documents| :: documents[i].id != documents[j].id
  }

  // ---------------------------------------------------------------- one at a time

  /** A draft for another item is a conflict and changes nothing. */
  function Draft(document: Document, produce: Provider): Option<Document> {
    var draft := produce(document);
    if draft.Some? && draft.value.id == document.id then draft else None
  }

  function Drafted(document: Document, produce: Provider): Document {
    var draft := Draft(document, produce);
    if draft.Some? then draft.value else document
  }

  /** What each item becomes on its own: its draft, when it is wanted and there is one. */
  function Final(documents: seq<Document>, wanted: Document -> bool, produce: Provider): seq<Document> {
    seq(|documents|, i requires 0 <= i < |documents| =>
      if wanted(documents[i]) then Drafted(documents[i], produce) else documents[i])
  }

  // ---------------------------------------------------------------- the published chain

  /** Consecutive numbers, each revision naming the digest of the one before it. */
  ghost predicate Chained(published: seq<Revision>) {
    published != [] && forall i | 0 < i < |published| ::
      published[i].number == published[i - 1].number + 1 && published[i].parent == Some(Digest(published[i - 1]))
  }

  function Last(published: seq<Revision>): Revision
    requires published != []
  {
    published[|published| - 1]
  }

  /** How many documents two revisions of one plan differ in. */
  function Differences(a: seq<Document>, b: seq<Document>): nat
    requires |a| == |b|
  {
    if a == [] then 0
    else Differences(a[..|a| - 1], b[..|b| - 1]) + (if a[|a| - 1] == b[|b| - 1] then 0 else 1)
  }

  lemma {:induction false} OneMoreDifference(a: seq<Document>, b: seq<Document>, i: nat, d: Document)
    requires |a| == |b| && i < |b|
    ensures Differences(a, b[i := d]) <= Differences(a, b) + 1
    decreases |a|
  {
    var n := |a| - 1;
    if i < n {
      OneMoreDifference(a[..n], b[..n], i, d);
      assert b[i := d][..n] == b[..n][i := d];
    } else {
      assert b[i := d][..n] == b[..n];
    }
  }

  lemma {:induction false} NoDifference(a: seq<Document>)
    ensures Differences(a, a) == 0
  {
    if a != [] { NoDifference(a[..|a| - 1]); }
  }

  // ---------------------------------------------------------------- the generator

  method Position(documents: seq<Document>, id: nat) returns (index: Option<nat>)
    ensures index.None? ==> forall i | 0 <= i < |documents| :: documents[i].id != id
    ensures index.Some? ==> index.value < |documents| && documents[index.value].id == id
  {
    for i := 0 to |documents|
      invariant forall k | 0 <= k < i :: documents[k].id != id
    {
      if documents[i].id == id { return Some(i); }
    }
    return None;
  }

  /** The plan positions whose items want a draft, in plan order. */
  function Positions(documents: seq<Document>, wanted: Document -> bool): (eligible: seq<nat>)
    ensures forall k | 0 <= k < |eligible| :: eligible[k] < |documents| && wanted(documents[eligible[k]])
    ensures forall i | 0 <= i < |documents| && wanted(documents[i]) :: i in eligible
    ensures forall j, k | 0 <= j < k < |eligible| :: eligible[j] < eligible[k]
  {
    if documents == [] then []
    else
      var n := |documents| - 1;
      var rest := Positions(documents[..n], wanted);
      if wanted(documents[n]) then rest + [n] else rest
  }

  method Eligible(documents: seq<Document>, wanted: Document -> bool) returns (eligible: seq<nat>)
    ensures eligible == Positions(documents, wanted)
  {
    eligible := [];
    for i := 0 to |documents|
      invariant eligible == Positions(documents[..i], wanted)
    {
      assert documents[..i + 1][..i] == documents[..i];
      if wanted(documents[i]) { eligible := eligible + [i]; }
    }
    assert documents[..|documents|] == documents;
  }

  /** After the first `k` eligible items: those drafted, every other as in the base. */
  ghost predicate Merged(base: seq<Document>, current: seq<Document>, eligible: seq<nat>, k: nat, produce: Provider) {
    && |current| == |base| && k <= |eligible|
    && (forall m | 0 <= m < k :: eligible[m] < |base| && current[eligible[m]] == Drafted(base[eligible[m]], produce))
    && (forall i | 0 <= i < |base| && i !in eligible[..k] :: current[i] == base[i])
  }

  /** How many of the first `k` eligible items get a draft. */
  function Drafts(base: seq<Document>, eligible: seq<nat>, k: nat, produce: Provider): nat
    requires k <= |eligible|
  {
    if k == 0 then 0
    else
      var e := eligible[k - 1];
      Drafts(base, eligible, k - 1, produce) + (if e < |base| && Draft(base[e], produce).Some? then 1 else 0)
  }

  lemma {:induction false} DraftsGrow(base: seq<Document>, eligible: seq<nat>, k: nat, n: nat, produce: Provider)
    requires k <= n <= |eligible|
    ensures Drafts(base, eligible, k, produce) <= Drafts(base, eligible, n, produce)
    decreases n
  {
    if k < n { DraftsGrow(base, eligible, k, n - 1, produce); }
  }

  /** The base with the first `k` eligible items drafted, `n` of them successfully. */
  ghost predicate HoldsAt(base: seq<Document>, documents: seq<Document>, eligible: seq<nat>, produce: Provider, n: nat,
                          k: nat)
  {
    && k <= |eligible| && Merged(base, documents, eligible, k, produce) && Drafts(base, eligible, k, produce) == n
  }

  ghost predicate Holds(base: seq<Document>, documents: seq<Document>, eligible: seq<nat>, produce: Provider, n: nat) {
    exists k :: HoldsAt(base, documents, eligible, produce, n, k)
  }

  /** Each published revision holds exactly a chunk more drafts than the one before it. */
  ghost predicate Full(base: Revision, published: seq<Revision>, eligible: seq<nat>, produce: Provider, chunk: nat) {
    forall j | 0 < j < |published| ::
      Holds(base.documents, published[j].documents, eligible, produce, j * Chunk(chunk))
  }

  /** Every draft is in a published revision, a chunk in each, or pending. */
  ghost predicate Tally(base: Revision, count: nat, pending: nat, eligible: seq<nat>, k: nat, produce: Provider,
                        chunk: nat)
  {
    k <= |eligible| && count > 0 && Drafts(base.documents, eligible, k, produce) == (count - 1) * Chunk(chunk) + pending
  }

  lemma TallyMerges(base: Revision, count: nat, pending: nat, eligible: seq<nat>, k: nat, produce: Provider, chunk: nat)
    requires Tally(base, count, pending, eligible, k, produce, chunk)
    requires k < |eligible| && eligible[k] < |base.documents|
    ensures Tally(base, count, if Draft(base.documents[eligible[k]], produce).Some? then pending + 1 else pending,
                  eligible, k + 1, produce, chunk)
  {}

  lemma TallyPublishes(base: Revision, count: nat, eligible: seq<nat>, k: nat, produce: Provider, chunk: nat)
    requires Tally(base, count, Chunk(chunk), eligible, k, produce, chunk)
    ensures Tally(base, count + 1, 0, eligible, k, produce, chunk)
    ensures Drafts(base.documents, eligible, k, produce) == count * Chunk(chunk)
  {
    assert (count - 1) * Chunk(chunk) + Chunk(chunk) == count * Chunk(chunk);
  }

  lemma FullOneMore(base: Revision, published: seq<Revision>, chain: seq<Revision>, eligible: seq<nat>,
                    produce: Provider, chunk: nat, k: nat)
    requires Full(base, published, eligible, produce, chunk) && published != [] && published <= chain
    requires |chain| == |published| + 1 && k <= |eligible|
    requires Merged(base.documents, Last(chain).documents, eligible, k, produce)
    requires Drafts(base.documents, eligible, k, produce) == |published| * Chunk(chunk)
    ensures Full(base, chain, eligible, produce, chunk)
  {
    hide Merged, Drafts;
    forall j | 0 < j < |chain|
      ensures Holds(base.documents, chain[j].documents, eligible, produce, j * Chunk(chunk))
    {
      if j < |published| {
        assert chain[j] == published[j];
      } else {
        assert HoldsAt(base.documents, chain[j].documents, eligible, produce, j * Chunk(chunk), k);
      }
    }
  }

  lemma MergedOneMore(base: seq<Document>, current: seq<Document>, eligible: seq<nat>, k: nat, produce: Provider,
                      after: seq<Document>)
    requires Merged(base, current, eligible, k, produce) && k < |eligible| && eligible[k] < |base|
    requires forall j, m | 0 <= j < m < |eligible| :: eligible[j] < eligible[m]
    requires after == current[eligible[k] := Drafted(base[eligible[k]], produce)]
    ensures Merged(base, after, eligible, k + 1, produce)
  {
    assert eligible[..k + 1] == eligible[..k] + [eligible[k]];
  }

  /** The chain with its bookkeeping: `pending` drafts since the last published revision. */
  ghost predicate Chain(base: Revision, published: seq<Revision>, current: Revision, pending: nat) {
    && Chained(published) && published[0] == base
    && current.number == Last(published).number + pending
    && |current.documents| == |Last(published).documents| == |base.documents|
    && Differences(Last(published).documents, current.documents) <= pending
    && (pending == 0 ==> current == Last(published))
  }

  /** Publish the head under the next number; nothing when nothing was drafted since. */
  method Flush(base: Revision, published: seq<Revision>, current: Revision, pending: nat, saves: nat)
    returns (ok: bool, chain: seq<Revision>, head: Revision)
    requires Chain(base, published, current, pending)
    ensures ok <==> pending == 0 || |published| <= saves
    ensures ok ==> Chain(base, chain, head, 0) && head.documents == current.documents && published <= chain
    ensures ok && pending > 0 ==> |chain| == |published| + 1
    ensures !ok ==> chain == published && |published| > saves
    ensures chain == published || |chain| <= saves + 1
    ensures published <= chain && |chain| <= |published| + 1 && (pending == 0 ==> chain == published)
    ensures Chained(chain) && chain[0] == base
  {
    if current.number == Last(published).number {
      NoDifference(current.documents);
      return true, published, current;
    }
    if |published| > saves { return false, published, current; }
    head := current.(number := Last(published).number + 1, parent := Some(Digest(Last(published))));
    chain := published + [head];
    NoDifference(head.documents);
    return true, chain, head;
  }

  /** The next revision, with the draft in place of its item. */
  predicate ChildIs(current: Revision, parent: Document, draft: Document, child: Revision, i: nat)
    requires i < |current.documents|
  {
    && current.documents[i].id == parent.id
    && child == Revision(current.number + 1, Some(Digest(current)), current.documents[i := draft])
  }

  predicate ChildAt(current: Revision, parent: Document, draft: Option<Document>, child: Revision) {
    draft.Some? && exists i | 0 <= i < |current.documents| :: ChildIs(current, parent, draft.value, child, i)
  }

  /** Merge one draft onto the head; a conflict leaves the head alone. */
  method Candidate(current: Revision, parent: Document, draft: Option<Document>) returns (child: Option<Revision>)
    ensures draft.None? || draft.value.id != parent.id ==> child.None?
    ensures child.Some? ==> ChildAt(current, parent, draft, child.value)
    ensures draft.Some? && draft.value.id == parent.id && (exists d <- current.documents :: d.id == parent.id)
            ==> child.Some?
  {
    var at := Position(current.documents, parent.id);
    if at.None? || draft.None? || draft.value.id != parent.id { return None; }
    child := Some(Revision(current.number + 1, Some(Digest(current)), current.documents[at.value := draft.value]));
    assert ChildIs(current, parent, draft.value, child.value, at.value);
  }

  function Chunk(chunk: nat): nat {
    if chunk == 0 then 1 else chunk
  }

  /** The state right after an item was merged, before a full chunk is published: how many revisions are
      published, and the documents of the head. */
  datatype Moment = Moment(published: nat, head: seq<Document>)

  /** One moment: the head is the base with the first `k` items merged, and differs from the last published
      revision in at most a chunk of documents. */
  ghost predicate MomentOk(base: Revision, published: seq<Revision>, m: Moment, eligible: seq<nat>, k: nat,
                           produce: Provider,
                           chunk: nat)
  {
    && 0 < m.published <= |published| && Merged(base.documents, m.head, eligible, k, produce)
    && |published[m.published - 1].documents| == |m.head|
    && Differences(published[m.published - 1].documents, m.head) <= Chunk(chunk)
  }

  /** From one moment to the next at most one revision is published, and it has the documents of the head. */
  ghost predicate MomentFollows(published: seq<Revision>, m: Moment, count: nat) {
    count == m.published
    || (count == m.published + 1 && count <= |published| && published[m.published].documents == m.head)
  }

  /** The moments of a run, one after each item it merged, from the base on. */
  ghost predicate Drafting(base: Revision, published: seq<Revision>, moments: seq<Moment>, eligible: seq<nat>,
                           produce: Provider,
                           chunk: nat)
  {
    && moments != [] && moments[0] == Moment(1, base.documents) && |moments| <= |eligible| + 1
    && (forall k | 0 <= k < |moments| :: MomentOk(base, published, moments[k], eligible, k, produce, chunk))
    && (forall k | 0 < k < |moments| :: MomentFollows(published, moments[k - 1], moments[k].published))
    && MomentFollows(published, moments[|moments| - 1], |published|)
  }

  /** What holds after an item was merged: a chain, the merged head, at most a chunk of unpublished drafts, and
      exactly a chunk of drafts in each published revision. */
  ghost predicate Open(base: Revision, published: seq<Revision>, current: Revision, pending: nat, eligible: seq<nat>,
                       k: nat, produce: Provider, chunk: nat, saves: nat)
  {
    && Chain(base, published, current, pending) && |published| <= saves + 1
    && Merged(base.documents, current.documents, eligible, k, produce)
    && DistinctIds(current.documents) && SameIds(base.documents, current.documents)
    && pending <= Chunk(chunk)
    && Full(base, published, eligible, produce, chunk)
    && Tally(base, |published|, pending, eligible, k, produce, chunk)
  }

  /** What holds between two items: the same, and no chunk is full. */
  ghost predicate Between(base: Revision, published: seq<Revision>, current: Revision, pending: nat, eligible: seq<nat>,
                          k: nat, produce: Provider, chunk: nat, saves: nat)
  {
    Open(base, published, current, pending, eligible, k, produce, chunk, saves) && pending < Chunk(chunk)
  }

  /** Publish the head exactly when a chunk is full. */
  method PublishFull(base: Revision, published: seq<Revision>, current: Revision, pending: nat,
                     ghost eligible: seq<nat>, ghost k: nat, ghost produce: Provider, chunk: nat, saves: nat)
    returns (ok: bool, chain: seq<Revision>, head: Revision, left: nat)
    requires Open(base, published, current, pending, eligible, k, produce, chunk, saves)
    ensures published <= chain && |chain| <= |published| + 1 && Full(base, chain, eligible, produce, chunk)
    ensures chain == published || (ok && chain[|published|].documents == current.documents)
    ensures ok ==> Between(base, chain, head, left, eligible, k, produce, chunk, saves)
                   && head.documents == current.documents && (left > 0 ==> chain == published)
    ensures !ok ==> chain == published && |chain| == saves + 1 && Chained(chain) && chain[0] == base
                    && pending == Chunk(chunk)
  {
    hide Merged, Differences, Full, Tally, DistinctIds, SameIds;
    ok, chain, head, left := true, published, current, pending;
    if pending >= Chunk(chunk) {
      TallyPublishes(base, |published|, eligible, k, produce, chunk);
      ok, chain, head := Flush(base, published, current, pending, saves);
      if ok { FullOneMore(base, published, chain, eligible, produce, chunk, k); }
      left := 0;
    }
  }

  /** One candidate more, or none. */
  lemma ItemOpens(base: Revision, published: seq<Revision>, current: Revision, pending: nat, eligible: seq<nat>, k: nat,
                  produce: Provider, chunk: nat, saves: nat, parent: Document, draft: Option<Document>,
                  child: Option<Revision>)
    requires Between(base, published, current, pending, eligible, k, produce, chunk, saves)
    requires k < |eligible| && eligible[k] < |base.documents| && parent == base.documents[eligible[k]]
             && draft == produce(parent)
    requires forall j, m | 0 <= j < m < |eligible| :: eligible[j] < eligible[m]
    requires draft.None? || draft.value.id != parent.id ==> child.None?
    requires child.Some? ==> ChildAt(current, parent, draft, child.value)
    requires draft.Some? && draft.value.id == parent.id && (exists d <- current.documents :: d.id == parent.id)
             ==> child.Some?
    ensures var head := if child.Some? then child.value else current;
            var left := if child.Some? then pending + 1 else pending;
            && Open(base, published, head, left, eligible, k + 1, produce, chunk, saves)
            && MomentOk(base, published, Moment(|published|, head.documents), eligible, k + 1, produce, chunk)
  {
    hide Full, Tally, Drafts;
    TallyMerges(base, |published|, pending, eligible, k, produce, chunk);
    ItemMerges(base.documents, current, eligible, k, produce, parent, draft, child);
    if child.Some? {
      OneMoreDifference(Last(published).documents, current.documents, eligible[k], child.value.documents[eligible[k]]);
    }
    hide Merged, Differences;
  }

  /** Merge one item of a window, then publish if that fills a chunk. */
  method MergeItem(base: Revision, published: seq<Revision>, current: Revision, pending: nat, ghost eligible: seq<nat>,
                   ghost k: nat, ghost produce: Provider, chunk: nat, saves: nat, parent: Document,
                   draft: Option<Document>)
    returns (ok: bool, chain: seq<Revision>, head: Revision, left: nat, ghost moment: Moment)
    requires Between(base, published, current, pending, eligible, k, produce, chunk, saves)
    requires k < |eligible| && eligible[k] < |base.documents| && parent == base.documents[eligible[k]]
             && draft == produce(parent)
    requires forall j, m | 0 <= j < m < |eligible| :: eligible[j] < eligible[m]
    ensures ok ==> Between(base, chain, head, left, eligible, k + 1, produce, chunk, saves)
    ensures !ok ==> Chained(chain) && chain[0] == base && |chain| == saves + 1 && chain == published
    ensures !ok ==> Tally(base, saves + 1, Chunk(chunk), eligible, k + 1, produce, chunk)
    ensures Full(base, chain, eligible, produce, chunk)
    ensures published <= chain && moment.published == |published| && MomentFollows(chain, moment, |chain|)
    ensures MomentOk(base, chain, moment, eligible, k + 1, produce, chunk)
    ensures ok ==> head.documents == moment.head && |head.documents| == |base.documents|
                   && (left > 0 ==> chain == published)
  {
    hide Full, Tally, Drafts, Merged, Differences, Chain, DistinctIds, ChildAt;
    var child := Candidate(current, parent, draft);
    ItemOpens(base, published, current, pending, eligible, k, produce, chunk, saves, parent, draft, child);
    head, left := current, pending;
    if child.Some? { head, left := child.value, pending + 1; }
    moment := Moment(|published|, head.documents);
    ok, chain, head, left := PublishFull(base, published, head, left, eligible, k + 1, produce, chunk, saves);
  }

  /** Revision `j` holds `j` chunks of drafts, the last one what there is. */
  ghost predicate ByChunks(base: Revision, published: seq<Revision>, eligible: seq<nat>, produce: Provider, chunk: nat,
                           drafted: nat)
  {
    forall j | 0 < j < |published| ::
      Holds(base.documents, published[j].documents, eligible, produce,
            if j * Chunk(chunk) <= drafted then j * Chunk(chunk) else drafted)
  }

  /** How many publications so many drafts need. */
  function Needed(drafted: nat, chunk: nat): nat {
    (drafted + Chunk(chunk) - 1) / Chunk(chunk)
  }

  lemma Quotient(n: nat, c: nat, q: nat)
    requires c > 0 && q * c <= n < q * c + c
    ensures n / c == q
  {
    var d := n / c;
    if d < q {
      TimesGrows(d + 1, q, c);
    } else if d > q {
      TimesGrows(q + 1, d, c);
    }
  }

  lemma TimesGrows(a: nat, b: nat, c: nat)
    requires a <= b
    ensures a * c <= b * c
  {}

  lemma NeedsMore(drafted: nat, chunk: nat, count: nat, pending: nat)
    requires drafted == count * Chunk(chunk) + pending && pending <= Chunk(chunk)
    ensures Needed(drafted, chunk) == if pending == 0 then count else count + 1
  {
    var c := Chunk(chunk);
    if pending == 0 {
      Quotient(drafted + c - 1, c, count);
    } else {
      assert (count + 1) * c == count * c + c;
      Quotient(drafted + c - 1, c, count + 1);
    }
  }

  lemma NeedsAtLeast(some: nat, drafted: nat, chunk: nat)
    requires some <= drafted
    ensures Needed(some, chunk) <= Needed(drafted, chunk)
  {
    var c, m, n := Chunk(chunk), some + Chunk(chunk) - 1, drafted + Chunk(chunk) - 1;
    if m / c > n / c { assert (n / c + 1) * c <= m / c * c; }
  }

  /** A failed publication: one more was needed than succeed. */
  lemma StoppedByChunks(base: Revision, published: seq<Revision>, eligible: seq<nat>, k: nat, produce: Provider,
                        chunk: nat, saves: nat)
    requires Full(base, published, eligible, produce, chunk) && |published| == saves + 1
    requires Tally(base, saves + 1, Chunk(chunk), eligible, k, produce, chunk)
    ensures var drafted := Drafts(base.documents, eligible, |eligible|, produce);
            ByChunks(base, published, eligible, produce, chunk, drafted) && Needed(drafted, chunk) > saves
  {
    hide Drafts, Needed, Holds;
    var drafted, some := Drafts(base.documents, eligible, |eligible|, produce),
                         Drafts(base.documents, eligible, k, produce);
    DraftsGrow(base.documents, eligible, k, |eligible|, produce);
    NeedsMore(some, chunk, saves, Chunk(chunk));
    NeedsAtLeast(some, drafted, chunk);
    forall j | 0 < j < |published| ensures j * Chunk(chunk) <= drafted { TimesGrows(j, saves, Chunk(chunk)); }
  }

  /** After the last publication. */
  lemma EndsByChunks(base: Revision, before: seq<Revision>, after: seq<Revision>, pending: nat, eligible: seq<nat>,
                     produce: Provider, chunk: nat)
    requires before <= after && |after| <= |before| + 1 && pending < Chunk(chunk)
    requires Full(base, before, eligible, produce, chunk)
    requires Tally(base, |before|, pending, eligible, |eligible|, produce, chunk)
    requires |after| > |before| ==>
               pending > 0 && Merged(base.documents, Last(after).documents, eligible, |eligible|, produce)
    ensures var drafted := Drafts(base.documents, eligible, |eligible|, produce);
            && ByChunks(base, after, eligible, produce, chunk, drafted)
            && Needed(drafted, chunk) == (if pending == 0 then |before| - 1 else |before|)
  {
    hide Drafts, Needed, Merged;
    var drafted, c := Drafts(base.documents, eligible, |eligible|, produce), Chunk(chunk);
    NeedsMore(drafted, chunk, |before| - 1, pending);
    assert |before| * c == (|before| - 1) * c + c;
    forall j | 0 < j < |after|
      ensures Holds(base.documents, after[j].documents, eligible, produce, if j * c <= drafted then j * c else drafted)
    {
      if j < |before| {
        TimesGrows(j, |before| - 1, c);
        assert after[j] == before[j];
      } else {
        assert j == |before| && j * c > drafted;
        assert HoldsAt(base.documents, after[j].documents, eligible, produce, drafted, |eligible|);
      }
    }
  }

  /** Draft every wanted item in windows of `parallel`, from the head before its window, and publish whenever
      a chunk is full and at the end; `saves` is how many publications succeed.  The final documents are what
      each item becomes on its own, whatever the width and the chunk; the published revisions form a chain of
      merged heads, each with exactly a chunk more drafts than the one before it, the last with the rest; and at
      every moment no more than a chunk of drafts is unpublished, so a run that stops loses at most those.  It ends
      well exactly when as many publications succeed as the drafts need. */
  method GeneratePending(base: Revision, wanted: Document -> bool, produce: Provider, parallel: nat, chunk: nat,
                         saves: nat)
    returns (ok: bool, published: seq<Revision>, ghost moments: seq<Moment>)
    requires DistinctIds(base.documents) && parallel > 0
    ensures Chained(published) && published[0] == base && |published| <= saves + 1
    ensures Drafting(base, published, moments, Positions(base.documents, wanted), produce, chunk)
    ensures ok ==> Last(published).documents == Final(base.documents, wanted, produce)
    ensures ok ==> |moments| == |Positions(base.documents, wanted)| + 1
    ensures var eligible := Positions(base.documents, wanted);
            var drafted := Drafts(base.documents, eligible, |eligible|, produce);
            && ByChunks(base, published, eligible, produce, chunk, drafted)
            && (ok <==> Needed(drafted, chunk) <= saves)
            && (ok ==> |published| == 1 + Needed(drafted, chunk))
    ensures !ok ==> |published| == saves + 1 == moments[|moments| - 1].published
  {
    hide Chain, Merged, Positions, Drafting, MomentOk, Differences, Final, Chained, SameIds, DistinctIds, Full, Tally,
         Drafts, ByChunks, Needed;
    published, moments := [base], [Moment(1, base.documents)];
    var current, pending := base, 0;
    var eligible := Eligible(base.documents, wanted);
    StartsBetween(base, eligible, produce, chunk, saves);
    StartsDrafting(base, eligible, produce, chunk);
    var w := 0;
    while w < |eligible|
      invariant w <= |eligible| && Between(base, published, current, pending, eligible, w, produce, chunk, saves)
      invariant Drafting(base, published, moments, eligible, produce, chunk) && |moments| == w + 1
      invariant |current.documents| == |base.documents|
      invariant moments[w].head == current.documents && (pending > 0 ==> moments[w].published == |published|)
    {
      var end := if w + parallel <= |eligible| then w + parallel else |eligible|;
      var parents := seq(end - w, k requires 0 <= k < end - w => current.documents[eligible[w + k]]);
      var drafts := seq(end - w, k requires 0 <= k < end - w => produce(parents[k]));
      ParentsAreBase(base.documents, current.documents, eligible, w, end, produce);
      for k := w to end
        invariant Between(base, published, current, pending, eligible, k, produce, chunk, saves)
        invariant Drafting(base, published, moments, eligible, produce, chunk) && |moments| == k + 1
        invariant |current.documents| == |base.documents|
        invariant moments[k].head == current.documents && (pending > 0 ==> moments[k].published == |published|)
      {
        ghost var moment, before := Moment(0, []), published;
        ok, published, current, pending, moment :=
          MergeItem(base, published, current, pending, eligible, k, produce, chunk, saves, parents[k - w],
                    drafts[k - w]);
        DraftingGrows(base, before, published, moments, moment, eligible, produce, chunk);
        moments := moments + [moment];
        if !ok {
          StoppedByChunks(base, published, eligible, k + 1, produce, chunk, saves);
          return;
        }
      }
      w := end;
    }
    MergedIsFinal(base.documents, current.documents, eligible, wanted, produce);
    ghost var before := published;
    ok, published, current := Flush(base, published, current, pending, saves);
    EndsByChunks(base, before, published, pending, eligible, produce, chunk);
    ChainIsChained(base, published, current);
    DraftingEnds(base, before, published, moments, eligible, produce, chunk);
  }

  lemma StartsDrafting(base: Revision, eligible: seq<nat>, produce: Provider, chunk: nat)
    ensures Drafting(base, [base], [Moment(1, base.documents)], eligible, produce, chunk)
  {
    NoDifference(base.documents);
  }

  /** The last publication. */
  lemma DraftingEnds(base: Revision, before: seq<Revision>, after: seq<Revision>, moments: seq<Moment>,
                     eligible: seq<nat>,
                     produce: Provider, chunk: nat)
    requires Drafting(base, before, moments, eligible, produce, chunk) && before <= after
    requires after == before || MomentFollows(after, moments[|moments| - 1], |after|)
    ensures Drafting(base, after, moments, eligible, produce, chunk)
  {
    hide Merged, Differences;
    forall k | 0 <= k < |moments| ensures MomentOk(base, after, moments[k], eligible, k, produce, chunk) {
      assert MomentOk(base, before, moments[k], eligible, k, produce, chunk);
    }
    forall k | 0 < k < |moments| ensures MomentFollows(after, moments[k - 1], moments[k].published) {
      assert MomentFollows(before, moments[k - 1], moments[k].published);
    }
  }

  /** One more moment, after which the chain may have grown. */
  lemma DraftingGrows(base: Revision, before: seq<Revision>, after: seq<Revision>, moments: seq<Moment>, moment: Moment,
                      eligible: seq<nat>, produce: Provider, chunk: nat)
    requires Drafting(base, before, moments, eligible, produce, chunk) && |moments| <= |eligible|
    requires before <= after && moment.published == |before| && MomentFollows(after, moment, |after|)
    requires MomentOk(base, after, moment, eligible, |moments|, produce, chunk)
    ensures Drafting(base, after, moments + [moment], eligible, produce, chunk)
  {
    hide Merged, Differences;
    forall k | 0 <= k < |moments| ensures MomentOk(base, after, moments[k], eligible, k, produce, chunk) {
      assert MomentOk(base, before, moments[k], eligible, k, produce, chunk);
    }
    forall k | 0 < k < |moments| ensures MomentFollows(after, moments[k - 1], moments[k].published) {
      assert MomentFollows(before, moments[k - 1], moments[k].published);
    }
  }

  lemma StartsBetween(base: Revision, eligible: seq<nat>, produce: Provider, chunk: nat, saves: nat)
    requires DistinctIds(base.documents)
    ensures Between(base, [base], base, 0, eligible, 0, produce, chunk, saves)
  {
    NoDifference(base.documents);
  }

  lemma ChainIsChained(base: Revision, published: seq<Revision>, current: Revision)
    ensures Chain(base, published, current, 0)
            ==> Chained(published) && published[0] == base && Last(published) == current
  {}

  ghost predicate SameIds(a: seq<Document>, b: seq<Document>) {
    |a| == |b| && forall i | 0 <= i < |a| :: a[i].id == b[i].id
  }

  /** No item of a window is changed by the ones before it. */
  lemma ParentsAreBase(base: seq<Document>, current: seq<Document>, eligible: seq<nat>, w: nat, end: nat,
                       produce: Provider)
    requires Merged(base, current, eligible, w, produce) && w <= end <= |eligible|
    requires forall k | 0 <= k < |eligible| :: eligible[k] < |base|
    requires forall j, k | 0 <= j < k < |eligible| :: eligible[j] < eligible[k]
    ensures forall k | w <= k < end :: current[eligible[k]] == base[eligible[k]]
  {}

  /** One candidate is one more merged item. */
  lemma ItemMerges(base: seq<Document>, current: Revision, eligible: seq<nat>, k: nat, produce: Provider,
                   parent: Document, draft: Option<Document>, child: Option<Revision>)
    requires Merged(base, current.documents, eligible, k, produce) && k < |eligible| && eligible[k] < |base|
    requires forall j, m | 0 <= j < m < |eligible| :: eligible[j] < eligible[m]
    requires DistinctIds(current.documents) && SameIds(base, current.documents)
    requires parent == base[eligible[k]] && draft == produce(parent)
    requires draft.None? || draft.value.id != parent.id ==> child.None?
    requires child.Some? ==> ChildAt(current, parent, draft, child.value)
    requires draft.Some? && draft.value.id == parent.id && (exists d <- current.documents :: d.id == parent.id)
             ==> child.Some?
    ensures child.Some? <==> Draft(parent, produce).Some?
    ensures child.Some? ==> child.value.documents == current.documents[eligible[k] := Drafted(parent, produce)]
                            && child.value.number == current.number + 1 && DistinctIds(child.value.documents)
                            && SameIds(base, child.value.documents)
                            && Merged(base, child.value.documents, eligible, k + 1, produce)
    ensures child.None? ==> Merged(base, current.documents, eligible, k + 1, produce)
  {
    var e := eligible[k];
    assert current.documents[e] == base[e];
    assert current.documents[e] in current.documents;
    MergedOneMore(base, current.documents, eligible, k, produce, current.documents[e := Drafted(base[e], produce)]);
    if child.Some? {
      var i :| 0 <= i < |current.documents| && ChildIs(current, parent, draft.value, child.value, i);
      assert i == e;
    } else {
      assert current.documents[e := Drafted(base[e], produce)] == current.documents;
    }
  }

  lemma MergedIsFinal(base: seq<Document>, current: seq<Document>, eligible: seq<nat>, wanted: Document -> bool,
                      produce: Provider)
    requires Merged(base, current, eligible, |eligible|, produce)
    requires forall k | 0 <= k < |eligible| :: eligible[k] < |base| && wanted(base[eligible[k]])
    requires forall i | 0 <= i < |base| && wanted(base[i]) :: i in eligible
    ensures current == Final(base, wanted, produce)
  {
    assert eligible[..|eligible|] == eligible;
    forall i | 0 <= i < |base| ensures current[i] == Final(base, wanted, produce)[i] {
      if wanted(base[i]) {
        var m :| 0 <= m < |eligible| && eligible[m] == i;
      } else {
        assert i !in eligible;
      }
    }
  }

  /** Published numbers are consecutive from the base's. */
  lemma {:induction false} ChainNumbers(published: seq<Revision>)
    requires Chained(published)
    ensures Last(published).number == published[0].number + |published| - 1
    decreases |published|
  {
    if |published| > 1 {
      var rest := published[..|published| - 1];
      assert forall i | 0 < i < |rest| :: rest[i].number == rest[i - 1].number + 1;
      ChainNumbers(rest);
    }
  }
}
