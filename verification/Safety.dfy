/** Safety over whole runs of the companion, from a fresh installation, whatever the clients send, the
    user edits and the crashes interrupt. */
module Safety {
  import opened Wrappers
  import opened Anki
  import opened Effects
  import opened EffectLaws
  import opened Ledger
  import opened LedgerLaws
  import opened Companion
  import opened CompanionLaws

  predicate HasEffect(log: seq<Entry>, key: Key) {
    exists e <- log :: e.key == key
  }

  // ---------------------------------------------------------------- at most once, and truthful

  /** However requests are repeated, replaced, crashed and resumed, one operation has at most one native
      effect, and a longer run never undoes or repeats it. */
  lemma AtMostOneEffect(col: Collection, labels: seq<Label>, more: seq<Label>)
    ensures var c := Run(Fresh(col), labels); var d := Run(c, more);
            && AtMostOnce(d.log) && c.log <= d.log
            && forall e <- d.log :: e.key in d.ledger.rows && d.ledger.rows[e.key].body == e.body
  {
    FreshInv(col);
    RunKeeps(Fresh(col), labels);
    var c := Run(Fresh(col), labels);
    RunKeeps(c, more);
    forall e <- Run(c, more).log ensures e.key in Run(c, more).ledger.rows
        && Run(c, more).ledger.rows[e.key].body == e.body {
      assert Genuine(Run(c, more).ledger, Run(c, more).exec, e);
    }
  }

  /** `failed_before_write` is truthful for ever: no effect was made, and none will be. */
  lemma FailedBeforeWriteIsTruthful(col: Collection, labels: seq<Label>, more: seq<Label>, key: Key, why: BeforeWrite)
    requires StatusIs(Run(Fresh(col), labels).ledger, key, FailedBeforeWrite(why))
    ensures var d := Run(Run(Fresh(col), labels), more);
            StatusIs(d.ledger, key, FailedBeforeWrite(why)) && !HasEffect(d.log, key)
  {
    hide Run, Next, Enabled, Sound, Staffed;
    FreshInv(col);
    RunKeeps(Fresh(col), labels);
    var c := Run(Fresh(col), labels);
    RunKeeps(c, more);
    var d := Run(c, more);
    assert Follows(c.ledger.rows[key], d.ledger.rows[key]);
    forall e <- d.log ensures e.key != key { assert Genuine(d.ledger, d.exec, e); }
  }

  predicate Verifies(l: Ledger, k: Key) {
    k in l.rows && Status(l.rows[k]).Verified?
  }

  /** What a verified row, a finished effect and a running export rest on. */
  ghost predicate Attested(c: Companion) {
    && (forall k :: Verifies(c.ledger, k) ==> HasEffect(c.log, k))
    && (c.exec.Performed? ==> HasEffect(c.log, c.exec.key))
    && (c.exporting.Some? ==> HasEffect(c.log, c.exporting.value.0))
  }

  lemma PerformedStays(a: seq<Entry>, b: seq<Entry>, k: Key)
    requires a <= b && HasEffect(a, k)
    ensures HasEffect(b, k)
  {
    var e :| e in a && e.key == k;
    assert e in b;
  }

  ghost predicate NoneVerified(a: Ledger, b: Ledger) {
    forall k :: Verifies(b, k) ==> Verifies(a, k)
  }

  lemma WriteVerifies(l: Ledger, key: Key, row: Row)
    ensures Status(row).Verified? || NoneVerified(l, WithRow(l, key, row))
    ensures forall k :: k != key && Verifies(WithRow(l, key, row), k) ==> Verifies(l, k)
  {}

  lemma BeginVerifies(c: Companion, l: Label)
    requires l.Begin? && Enabled(c, l)
    ensures NoneVerified(c.ledger, Next(c, l).ledger)
  {
    var after := Next(c, l).ledger;
    forall k | Verifies(after, k) ensures Verifies(c.ledger, k) {
      assert after.rows[k] == Orphaned(c.ledger.rows[k]);
    }
  }

  lemma SubmitVerifies(c: Companion, l: Label)
    requires l.Submit? && Enabled(c, l)
    ensures NoneVerified(c.ledger, Next(c, l).ledger)
  {
    var after := SubmitCall(c, l.request).value.0;
    WriteVerifies(c.ledger, l.request.key, after.rows[l.request.key]);
  }

  lemma AppendVerifies(l: Ledger, key: Key, state: State)
    requires key in l.rows
    ensures state.Verified? || NoneVerified(l, Append(l, key, state))
    ensures forall k :: k != key && Verifies(Append(l, key, state), k) ==> Verifies(l, k)
  {
    WriteVerifies(l, key, Close(l.rows[key], state));
  }

  lemma ExportedIs(c: Companion, l: Label)
    requires Inv(c) && l.Exported? && Enabled(c, l)
    ensures var state := if l.ok && l.resumed then Verified(ExportReceipt(0)) else Unknown(ObservationIncomplete);
            Next(c, l).ledger == if l.recorded then Append(c.ledger, c.exporting.value.0, state) else c.ledger
  {}

  /** The label ends the work on a row. */
  predicate Ends(c: Companion, l: Label, k: Key) {
    || (l.CloseRow? && !c.exec.Idle? && c.exec.key == k)
    || (l.Exported? && c.exporting.Some? && c.exporting.value.0 == k)
  }

  /** Only a read-back that matched, or a finished export, verifies a row. */
  lemma VerifiedBy(c: Companion, l: Label, k: Key)
    requires Inv(c) && Enabled(c, l) && Verifies(Next(c, l).ledger, k) && !Verifies(c.ledger, k)
    ensures Ends(c, l, k)
  {
    match l
    case Begin(_, _, _, _) => BeginVerifies(c, l);
    case Submit(_, _) => SubmitVerifies(c, l);
    case Refuse(key, why) => AppendVerifies(c.ledger, key, FailedBeforeWrite(why));
    case Start(key) =>
      StartLedger(c, key);
      AppendVerifies(c.ledger, key, Running);
    case CloseRow(recorded) =>
      CloseRowIs(c, recorded);
      AppendVerifies(c.ledger, c.exec.key, ClosingState(c));
    case Exported(ok, resumed, recorded) =>
      ExportedIs(c, l);
      AppendVerifies(c.ledger, c.exporting.value.0, Verified(ExportReceipt(0)));
      AppendVerifies(c.ledger, c.exporting.value.0, Unknown(ObservationIncomplete));
    case _ =>
  }

  lemma VerifiedStaysPerformed(c: Companion, l: Label, k: Key)
    requires Inv(c) && Attested(c) && Enabled(c, l) && Verifies(Next(c, l).ledger, k)
    ensures HasEffect(c.log, k)
  {
    if !Verifies(c.ledger, k) { VerifiedBy(c, l, k); }
  }

  lemma WorkStaysPerformed(c: Companion, l: Label)
    requires Attested(c) && Enabled(c, l) && c.log <= Next(c, l).log
    ensures var next := Next(c, l);
            && (next.exec.Performed? ==> HasEffect(next.log, next.exec.key))
            && (next.exporting.Some? ==> HasEffect(next.log, next.exporting.value.0))
  {
    var next := Next(c, l);
    if l.DoEffect? || l.Interrupt? || l.Export? {
      assert next.log[|c.log|] in next.log && next.log[|c.log|].key == c.exec.key;
    } else if next.exec.Performed? {
      assert next.exec == c.exec;
      PerformedStays(c.log, next.log, next.exec.key);
    }
    if next.exporting.Some? && c.exporting.Some? { PerformedStays(c.log, next.log, next.exporting.value.0); }
  }

  lemma NextAttests(c: Companion, l: Label)
    requires Inv(c) && Attested(c) && Enabled(c, l)
    ensures Attested(Next(c, l))
  {
    NextKeeps(c, l);
    forall k | Verifies(Next(c, l).ledger, k) ensures HasEffect(Next(c, l).log, k) {
      VerifiedStaysPerformed(c, l, k);
      PerformedStays(c.log, Next(c, l).log, k);
    }
    WorkStaysPerformed(c, l);
  }

  lemma {:induction false} RunAttests(c: Companion, labels: seq<Label>)
    requires Inv(c) && Attested(c)
    ensures Attested(Run(c, labels))
    decreases |labels|
  {
    if labels != [] {
      ApplyKeeps(c, labels[0]);
      if Enabled(c, labels[0]) { NextAttests(c, labels[0]); }
      RunAttests(Apply(c, labels[0]), labels[1..]);
    }
  }

  /** `verified` is truthful: the effect was made, once. */
  lemma VerifiedIsPerformed(col: Collection, labels: seq<Label>, key: Key)
    requires Verifies(Run(Fresh(col), labels).ledger, key)
    ensures var log := Run(Fresh(col), labels).log; AtMostOnce(log) && HasEffect(log, key)
  {
    FreshInv(col);
    RunKeeps(Fresh(col), labels);
    RunAttests(Fresh(col), labels);
  }
}
