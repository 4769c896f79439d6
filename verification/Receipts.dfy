/** A verified row's receipt is the read-back of what its effect left, in every run. */
module Receipts {
  import opened Wrappers
  import opened Anki
  import opened Effects
  import opened Ledger
  import opened LedgerLaws
  import opened Companion
  import opened CompanionLaws
  import opened Safety

  /** The note is there with the requested fields, and the receipt is its content. */
  predicate Written(col: Collection, nid: NoteId, fields: Fields, receipt: Receipt) {
    && Observable(col, nid) && receipt == NoteReceipt(nid, ContentOf(Observe(col, nid)))
    && forall f <- fields :: f in col.notes[nid].fields && col.notes[nid].fields[f] == fields[f]
  }

  /** The collection shows what the request asked for, and the receipt says so. */
  predicate AsAsked(col: Collection, body: Body, receipt: Receipt) {
    match body
    case StoreMedia(filename, sha256, size) =>
      && receipt == MediaReceipt(filename, Media(sha256, size))
      && filename in col.media && col.media[filename].sha256 == sha256
    case CreateNote(_, _, _, fields, _, marker, _) =>
      exists n <- col.notes :: Written(col, n, fields, receipt) && marker in col.notes[n].tags
    case UpdateNote(nid, _, _, fields, _, _) => Written(col, nid, fields, receipt)
    case RestoreNote(nid, _, _, fields, _, _, _) => Written(col, nid, fields, receipt)
    case DeleteCreated(nid, _) => receipt == RemovedReceipt(nid) && !Observable(col, nid)
    case ExportCheckpoint(_) => receipt == ExportReceipt(0)
  }

  predicate Evidence(e: Entry, k: Key, row: Row) {
    e.key == k && e.body == row.body && Status(row).Verified? && AsAsked(e.after, e.body, Status(row).receipt)
  }

  predicate Backed(c: Companion, k: Key) {
    k in c.ledger.rows && exists e <- c.log :: Evidence(e, k, c.ledger.rows[k])
  }

  /** The note an effect reports: the one it was asked to write. */
  predicate Reports(body: Body, nid: NoteId) {
    (body.UpdateNote? || body.RestoreNote? ==> nid == body.nid)
  }

  predicate Made(e: Entry, c: Companion)
    requires c.exec.Performed?
  {
    e.key == c.exec.key && e.after == c.col && Reports(e.body, c.exec.note)
  }

  /** What the receipts to come rest on: the finished effect under the callback, and a running export. */
  ghost predicate Kept(c: Companion) {
    && (forall k :: Verifies(c.ledger, k) ==> Backed(c, k))
    && (c.exec.Performed? && c.exec.done ==> exists e <- c.log :: Made(e, c))
    && (c.exporting.Some? ==> exists e <- c.log :: e.key == c.exporting.value.0 && e.body.ExportCheckpoint?)
  }

  lemma SameFields(a: Fields, b: Fields)
    requires a == a + b
    ensures forall f <- b :: f in a && a[f] == b[f]
  {
    forall f <- b ensures f in a && a[f] == b[f] { assert f in a + b && (a + b)[f] == b[f]; }
  }

  lemma ReadBackIsAsAsked(col: Collection, body: Body, nid: NoteId)
    requires ReadsBack(col, body, nid) && Reports(body, nid)
    ensures AsAsked(col, body, ReceiptOf(col, body, nid))
  {
    hide ContentOf;
    if body.CreateNote? || body.UpdateNote? || body.RestoreNote? {
      SameFields(col.notes[nid].fields, body.fields);
      assert Written(col, nid, body.fields, ReceiptOf(col, body, nid));
    }
  }

  lemma EntryBody(c: Companion, e: Entry)
    requires Inv(c) && e in c.log
    ensures e.key in c.ledger.rows && c.ledger.rows[e.key].body == e.body
  {
    assert Genuine(c.ledger, c.exec, e);
  }

  lemma BackedStays(c: Companion, d: Companion, k: Key)
    requires Backed(c, k) && c.log <= d.log && Extends(c.ledger, d.ledger)
    ensures Backed(d, k)
  {
    var e :| e in c.log && Evidence(e, k, c.ledger.rows[k]);
    assert Follows(c.ledger.rows[k], d.ledger.rows[k]) && e in d.log;
    assert Evidence(e, k, d.ledger.rows[k]);
  }

  lemma CloseRowBacks(c: Companion, recorded: bool, k: Key)
    requires Inv(c) && Kept(c) && Enabled(c, CloseRow(recorded)) && c.exec.key == k
    requires Verifies(Next(c, CloseRow(recorded)).ledger, k) && !Verifies(c.ledger, k)
    ensures Backed(Next(c, CloseRow(recorded)), k)
  {
    hide Sound, Accepts, AsAsked;
    CloseRowIs(c, recorded);
    var next, row := Next(c, CloseRow(recorded)), c.ledger.rows[k];
    assert next.ledger == Append(c.ledger, k, ClosingState(c)) && next.log == c.log;
    var e :| e in c.log && Made(e, c);
    EntryBody(c, e);
    ReadBackIsAsAsked(c.col, row.body, c.exec.note);
    assert Evidence(e, k, next.ledger.rows[k]);
  }

  lemma ExportedBacks(c: Companion, l: Label, k: Key)
    requires Inv(c) && Kept(c) && l.Exported? && Enabled(c, l) && c.exporting.value.0 == k
    requires Verifies(Next(c, l).ledger, k) && !Verifies(c.ledger, k)
    ensures Backed(Next(c, l), k)
  {
    hide Sound, Accepts;
    ExportedIs(c, l);
    var next := Next(c, l);
    assert next.log == c.log;
    var e :| e in c.log && e.key == k && e.body.ExportCheckpoint?;
    EntryBody(c, e);
    assert Evidence(e, k, next.ledger.rows[k]);
  }

  lemma VerifiedIsBacked(c: Companion, l: Label, k: Key)
    requires Inv(c) && Kept(c) && Enabled(c, l) && Verifies(Next(c, l).ledger, k)
    requires Extends(c.ledger, Next(c, l).ledger) && c.log <= Next(c, l).log
    ensures Backed(Next(c, l), k)
  {
    hide Enabled, Next, Sound, Extends, AsAsked;
    if Verifies(c.ledger, k) {
      BackedStays(c, Next(c, l), k);
    } else {
      VerifiedBy(c, l, k);
      if l.CloseRow? { CloseRowBacks(c, l.recorded, k); } else { ExportedBacks(c, l, k); }
    }
  }

  lemma EffectIsKept(c: Companion, l: Label)
    requires Inv(c) && Kept(c) && Enabled(c, l) && c.log <= Next(c, l).log
    ensures var next := Next(c, l); next.exec.Performed? && next.exec.done ==> exists e <- next.log :: Made(e, next)
  {
    hide Inv, Accepts, Backed, Perform, Passes;
    var next := Next(c, l);
    if l.DoEffect? {
      EffectReports(c.col, c.ledger.rows[c.exec.key].body);
      assert Made(next.log[|c.log|], next);
    } else if next.exec.Performed? && next.exec.done {
      var e :| e in c.log && Made(e, c);
      assert e in next.log && Made(e, next);
    }
  }

  lemma ExportIsKept(c: Companion, l: Label)
    requires Inv(c) && Kept(c) && Enabled(c, l) && c.log <= Next(c, l).log
    ensures var next := Next(c, l);
            next.exporting.Some? ==> exists e <- next.log :: e.key == next.exporting.value.0 && e.body.ExportCheckpoint?
  {
    hide Inv, Accepts, Backed, Perform, Passes;
    var next := Next(c, l);
    if l.Export? {
      assert next.log[|c.log|] in next.log;
    } else if next.exporting.Some? {
      var e :| e in c.log && e.key == c.exporting.value.0 && e.body.ExportCheckpoint?;
      assert e in next.log;
    }
  }

  lemma EffectReports(col: Collection, body: Body)
    requires Accepts(col, body)
    ensures Reports(body, Perform(col, body).note)
  {}

  lemma {:induction false} RunKeepsReceipts(c: Companion, labels: seq<Label>)
    requires Inv(c) && Kept(c)
    ensures Kept(Run(c, labels))
    decreases |labels|
  {
    if labels != [] {
      var l, next := labels[0], Apply(c, labels[0]);
      ApplyKeeps(c, l);
      if Enabled(c, l) {
        forall k | Verifies(next.ledger, k) ensures Backed(next, k) { VerifiedIsBacked(c, l, k); }
        EffectIsKept(c, l);
        ExportIsKept(c, l);
      }
      RunKeepsReceipts(next, labels[1..]);
    }
  }

  /** In every run, a verified row has an effect in the log that left the collection as the row asks, and its
      receipt is the read-back of that collection. */
  lemma ReceiptsAreTruthful(col: Collection, labels: seq<Label>, key: Key)
    requires Verifies(Run(Fresh(col), labels).ledger, key)
    ensures Backed(Run(Fresh(col), labels), key)
  {
    FreshInv(col);
    RunKeepsReceipts(Fresh(col), labels);
  }
}
