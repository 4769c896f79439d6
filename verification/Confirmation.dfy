/** The companion's own read-back confirms every complete effect, so an undisturbed callback ends verified. */
module Confirmation {
  import opened Wrappers
  import opened Anki
  import opened Effects
  import opened EffectLaws
  import opened Undo
  import opened Prediction
  import opened Ledger
  import opened LedgerLaws
  import opened Companion
  import opened CompanionLaws
  import Outlook
  import Serving

  lemma CreateReadsBack(col: Collection, body: Body)
    requires WellFormed(col) && ValidBody(body) && body.CreateNote? && PreflightCreate(col, body).None?
    requires PerformCreate(col, body).done
    ensures var out := PerformCreate(col, body); ReadsBack(out.col, body, out.note)
  {
    CreatedNote(col, body);
    Outlook.CreatedId(col, body);
    hide PerformCreate, WellFormed;
    assert body.fields + body.fields == body.fields;
  }

  lemma UpdateReadsBack(col: Collection, body: Body)
    requires WellFormed(col) && body.UpdateNote? && PreflightUpdate(col, body).None?
    ensures ReadsBack(PerformUpdate(col, body), body, body.nid)
  {
    UpdateLeaves(col, body);
    hide PerformUpdate, PreflightUpdate, WellFormed, Rewritten, CardsOf;
    assert body.fields + body.fields == body.fields;
  }

  lemma RestoreReadsBack(col: Collection, body: Body)
    requires WellFormed(col) && body.RestoreNote? && PreflightRestore(col, body).None?
    ensures ReadsBack(PerformRestore(col, body), body, body.nid)
  {
    RestoreLeaves(col, body);
    hide PerformRestore, PreflightRestore, WellFormed, Rewritten, CardsOf;
    assert body.fields + body.fields == body.fields;
  }

  /** A complete effect always reads back as what was asked for. */
  lemma EffectReadsBack(col: Collection, body: Body)
    requires WellFormed(col) && ValidBody(body) && Accepts(col, body) && !body.ExportCheckpoint?
    requires Perform(col, body).done
    ensures var out := Perform(col, body); ReadsBack(out.col, body, out.note)
  {
    hide WellFormed, ReadsBack, PerformCreate, PerformUpdate, PerformRestore;
    match body
    case CreateNote(_, _, _, _, _, _, _) => CreateReadsBack(col, body);
    case UpdateNote(_, _, _, _, _, _) => UpdateReadsBack(col, body);
    case RestoreNote(_, _, _, _, _, _, _) => RestoreReadsBack(col, body);
    case _ => OtherReadsBack(col, body);
  }

  lemma OtherReadsBack(col: Collection, body: Body)
    requires (body.StoreMedia? && PreflightMedia(col, body).None?) || body.DeleteCreated?
    ensures body.StoreMedia? ==> ReadsBack(PerformMedia(col, body), body, 0)
    ensures body.DeleteCreated? ==> ReadsBack(RemoveNote(col, body.nid), body, body.nid)
  {}

  /** What an undisturbed callback of a queued row that clears every check leaves: the effect in the log, once,
      the collection after it, and a verified row. */
  ghost predicate Confirmed(c: Companion, d: Companion, key: Key)
    requires key in c.ledger.rows && Accepts(c.col, c.ledger.rows[key].body)
  {
    var body := c.ledger.rows[key].body;
    && d.col == Perform(c.col, body).col && key in d.ledger.rows && Status(d.ledger.rows[key]).Verified?
    && |d.log| == |c.log| + 1 && d.log[..|c.log|] == c.log && d.log[|c.log|].key == key && d.log[|c.log|].body == body
    && d.exec.Idle? && d.live == c.live - {key} && d.callbacks == c.callbacks - {key}
  }

  lemma UndisturbedIsConfirmed(c: Companion, key: Key)
    requires Inv(c) && WellFormed(c.col) && c.exec.Idle? && key in c.callbacks && StatusIs(c.ledger, key, Queued)
    requires Clears(c, key) && !c.ledger.rows[key].body.ExportCheckpoint?
             && Perform(c.col, c.ledger.rows[key].body).done
    ensures Confirmed(c, Apply(Apply(Apply(c, Start(key)), DoEffect), CloseRow(true)), key)
  {
    hide Inv, WellFormed, Accepts, Perform, ReadsBack, Enabled, Next, Clears, Apply;
    var body := c.ledger.rows[key].body;
    assert Accepts(c.col, body) && ValidBody(body) by { ClearedBody(c, key); }
    EffectReadsBack(c.col, body);
    Serving.Commenced(c, key);
    var p := Apply(c, Start(key));
    Serving.Carried(p, key);
    var e := Apply(p, DoEffect);
    Serving.Concluded(e, key, e.exec.note);
  }

  lemma ClearedBody(c: Companion, key: Key)
    requires Inv(c) && key in c.ledger.rows && Clears(c, key)
    ensures Accepts(c.col, c.ledger.rows[key].body) && ValidBody(c.ledger.rows[key].body)
  {
    assert RecordedRow(key, c.ledger.rows[key], c.ledger.owners);
  }
}
