/** The client beside the companion: the operations it journals, the requests it sent that may still
    arrive, and the invariant that ties its journals to the companion's ledger. */
module System {
  import opened Wrappers
  import opened Anki
  import opened Effects
  import opened Readback
  import opened Ledger
  import opened LedgerLaws
  import opened Companion
  import opened CompanionLaws
  import J = Journal

  /** A published intent, the epoch it is bound to, its journal once appended, and its saved receipt. */
  datatype Operation = Operation(intent: Intent, epoch: Id, journal: Option<J.Journal>, receipt: Option<Seen>)

  type Operations = map<Id, Operation>

  function Ids(intent: Intent): set<Id> {
    set s | s in intent.steps :: s.id
  }

  function OwnIds(ops: Operations): set<Id> {
    set o, s | o in ops && s in ops[o].intent.steps :: s.id
  }

  function KeyOf(intent: Intent, s: IntentStep): Key {
    Key(intent.lineage, s.id)
  }

  // ---------------------------------------------------------------- the world moves on

  /** Anyone may do anything, except use a step's identifier: only requests the client sent carry it. */
  predicate Admits(net: set<Request>, own: set<Id>, l: Label) {
    l.Submit? && l.request.key.id in own ==> l.request in net
  }

  function Interfere(c: Companion, net: set<Request>, own: set<Id>, labels: seq<Label>): Companion
    decreases |labels|
  {
    if labels == [] then c
    else Interfere(if Admits(net, own, labels[0]) then Apply(c, labels[0]) else c, net, own, labels[1..])
  }

  ghost predicate Arrived(k: Key, row: Row, r: Request) {
    r.key == k && row.body == r.body && row.approved == r.approved
  }

  ghost predicate RowArrived(k: Key, row: Row, net: set<Request>, own: set<Id>) {
    k.id !in own || exists r <- net :: Arrived(k, row, r)
  }

  /** Nothing withdrawn, and every new row of ours came from a request sent. */
  ghost predicate Later(a: Ledger, b: Ledger, net: set<Request>, own: set<Id>) {
    Extends(a, b) && forall k <- b.rows :: k in a.rows || RowArrived(k, b.rows[k], net, own)
  }

  lemma LaterItself(l: Ledger, net: set<Request>, own: set<Id>)
    ensures Later(l, l, net, own)
  {
    ExtendsItself(l);
  }

  lemma LaterTransitive(a: Ledger, b: Ledger, c: Ledger, net: set<Request>, own: set<Id>)
    requires Later(a, b, net, own) && Later(b, c, net, own)
    ensures Later(a, c, net, own)
  {
    ExtendsTransitive(a, b, c);
    forall k <- c.rows ensures k in a.rows || RowArrived(k, c.rows[k], net, own) {
      if k in b.rows && k !in a.rows {
        assert RowArrived(k, b.rows[k], net, own) && Follows(b.rows[k], c.rows[k]);
        if r :| r in net && Arrived(k, b.rows[k], r) { assert Arrived(k, c.rows[k], r); }
      }
    }
  }

  lemma SubmittedArrives(c: Companion, l: Label, k: Key)
    requires Inv(c) && l.Submit? && Enabled(c, l) && k in Next(c, l).ledger.rows && k !in c.ledger.rows
    ensures Arrived(k, Next(c, l).ledger.rows[k], l.request)
  {
    QueueNewSound(c.ledger, l.request);
  }

  lemma OnlySubmitAdds(c: Companion, l: Label, k: Key)
    requires Enabled(c, l) && !l.Submit? && k in Next(c, l).ledger.rows
    ensures k in c.ledger.rows
  {}

  lemma ApplyLater(c: Companion, l: Label, net: set<Request>, own: set<Id>)
    requires Inv(c) && Admits(net, own, l)
    ensures Inv(Apply(c, l)) && Forward(c, Apply(c, l)) && Later(c.ledger, Apply(c, l).ledger, net, own)
  {
    hide Inv, Enabled, Next, Extends;
    ApplyKeeps(c, l);
    var after := Apply(c, l);
    forall k <- after.ledger.rows ensures k in c.ledger.rows || RowArrived(k, after.ledger.rows[k], net, own) {
      if k !in c.ledger.rows {
        if l.Submit? { SubmittedArrives(c, l, k); } else { OnlySubmitAdds(c, l, k); }
      }
    }
  }

  lemma {:induction false} InterfereLater(c: Companion, net: set<Request>, own: set<Id>, labels: seq<Label>)
    requires Inv(c)
    ensures var after := Interfere(c, net, own, labels);
            Inv(after) && Forward(c, after) && Later(c.ledger, after.ledger, net, own)
    decreases |labels|
  {
    hide Inv, Apply, Extends;
    if labels == [] {
      LaterItself(c.ledger, net, own);
      ExtendsItself(c.ledger);
    } else {
      var next := if Admits(net, own, labels[0]) then Apply(c, labels[0]) else c;
      if Admits(net, own, labels[0]) {
        ApplyLater(c, labels[0], net, own);
      } else {
        LaterItself(c.ledger, net, own);
        ExtendsItself(c.ledger);
      }
      InterfereLater(next, net, own, labels[1..]);
      var after := Interfere(c, net, own, labels);
      ForwardTransitive(c, next, after);
      LaterTransitive(c.ledger, next.ledger, after.ledger, net, own);
    }
  }

  // ---------------------------------------------------------------- what a journal entry stands for

  /** No row and no request carries the identifier. */
  ghost predicate Unsent(l: Ledger, net: set<Request>, id: Id) {
    (forall k <- l.rows :: k.id != id) && (forall r <- net :: r.key.id != id)
  }

  predicate Failed(l: Ledger, key: Key) {
    key in l.rows && Status(l.rows[key]).FailedBeforeWrite?
  }

  /** The native effect was not made and cannot be made any more. */
  ghost predicate NoEffectEver(l: Ledger, net: set<Request>, key: Key) {
    Failed(l, key) || (key !in l.rows && forall r <- net :: r.key != key)
  }

  /** The expected state was seen. */
  ghost predicate Witnessed(past: set<Collection>, intent: Intent, s: IntentStep) {
    exists col <- past :: ReadStep(col, intent.pre, s) == Some(Expected(s.expected))
  }

  ghost predicate FinallyWitnessed(past: set<Collection>, intent: Intent) {
    intent.steps != [] && exists col <- past ::
        FinalRead(col, intent) == Some(intent.steps[|intent.steps| - 1].expected)
  }

  ghost predicate OwnRow(k: Key, row: Row, intent: Intent, s: IntentStep) {
    k == KeyOf(intent, s) && row.body == s.body && row.approved == intent.approved
  }

  ghost predicate OwnRequest(r: Request, intent: Intent, s: IntentStep) {
    r.key == KeyOf(intent, s) && r.body == s.body && r.approved == intent.approved
  }

  /** Whatever carries a step's identifier carries its body and approval. */
  ghost predicate Bound(l: Ledger, net: set<Request>, intent: Intent, s: IntentStep) {
    && (forall k <- l.rows :: k.id == s.id ==> OwnRow(k, l.rows[k], intent, s))
    && (forall r <- net :: r.key.id == s.id ==> OwnRequest(r, intent, s))
  }

  ghost predicate StepOk(l: Ledger, net: set<Request>, past: set<Collection>, intent: Intent, s: IntentStep, js: J.Step)
  {
    && js.id == s.id && js.expected == s.expected
    && (js.state.IntentRecorded? ==> Unsent(l, net, s.id))
    && (js.state.ObservedFailure? ==> NoEffectEver(l, net, KeyOf(intent, s)))
    && (js.state.Verified? ==> Witnessed(past, intent, s))
  }

  /** Beyond what the store checks: the driver sends nothing before `mutating`. */
  ghost predicate JournalOk(j: J.Journal) {
    && J.Validated(j) && J.Shaped(j.steps) && !j.state.Restored?
    && (j.state in {J.Prepared, J.Preflight, J.Checkpointed} ==> J.NothingSent(j.steps))
    && (j.state.Verifying? ==> J.AllVerified(j.steps))
    && ((exists s <- j.steps :: s.state.Unknown?) ==> j.state.NeedsRecovery?)
  }

  /** New media first, then the one create or update. */
  ghost predicate WellPlanned(intent: Intent) {
    && intent.steps != []
    && (forall i, k | 0 <= i < k < |intent.steps| :: intent.steps[i].id != intent.steps[k].id)
    && (forall i | 0 <= i < |intent.steps| - 1 :: intent.steps[i].body.StoreMedia?)
    && (var last := intent.steps[|intent.steps| - 1].body; last.CreateNote? || last.UpdateNote?)
  }

  ghost predicate Journaled(l: Ledger, net: set<Request>, past: set<Collection>, op: Operation) {
    op.journal.Some? ==>
      && JournalOk(op.journal.value) && |op.journal.value.steps| == |op.intent.steps|
      && forall i | 0 <= i < |op.intent.steps| ::
         StepOk(l, net, past, op.intent, op.intent.steps[i], op.journal.value.steps[i])
  }

  ghost predicate Receipted(past: set<Collection>, op: Operation) {
    && (op.receipt.Some?
        ==> FinallyWitnessed(past, op.intent) && op.receipt == Some(op.intent.steps[|op.intent.steps| - 1].expected))
    && (op.journal.Some? && op.journal.value.state.Committed? ==> op.receipt.Some?)
  }

  ghost predicate OpOk(l: Ledger, net: set<Request>, past: set<Collection>, op: Operation) {
    && WellPlanned(op.intent)
    && (forall s <- op.intent.steps :: Bound(l, net, op.intent, s))
    && (op.journal.None? ==> forall s <- op.intent.steps :: Unsent(l, net, s.id))
    && Journaled(l, net, past, op) && Receipted(past, op)
  }

  ghost predicate Apart(ops: Operations) {
    forall a <- ops, b <- ops :: a != b ==> Ids(ops[a].intent) !! Ids(ops[b].intent)
  }

  ghost predicate SystemOk(c: Companion, net: set<Request>, past: set<Collection>, ops: Operations) {
    Inv(c) && Apart(ops) && forall o <- ops :: OpOk(c.ledger, net, past, ops[o])
  }

  lemma SystemInv(c: Companion, net: set<Request>, past: set<Collection>, ops: Operations)
    requires SystemOk(c, net, past, ops)
    ensures Inv(c)
  {}

  // ---------------------------------------------------------------- the invariant is stable

  lemma NewRowSent(a: Ledger, b: Ledger, net: set<Request>, own: set<Id>, k: Key)
    requires Later(a, b, net, own)
    ensures k in b.rows && k !in a.rows && k.id in own ==> exists r <- net :: r.key == k
  {
    if k in b.rows && k !in a.rows && k.id in own {
      assert RowArrived(k, b.rows[k], net, own);
      var r :| r in net && Arrived(k, b.rows[k], r);
    }
  }

  lemma UnsentStays(a: Ledger, b: Ledger, net: set<Request>, own: set<Id>, id: Id)
    requires Later(a, b, net, own) && id in own && Unsent(a, net, id)
    ensures Unsent(b, net, id)
  {
    forall k <- b.rows ensures k.id != id { NewRowSent(a, b, net, own, k); }
  }

  lemma NoEffectStays(a: Ledger, b: Ledger, net: set<Request>, own: set<Id>, key: Key)
    requires Later(a, b, net, own) && key.id in own && NoEffectEver(a, net, key)
    ensures NoEffectEver(b, net, key)
  {
    NewRowSent(a, b, net, own, key);
    if Failed(a, key) { assert Follows(a.rows[key], b.rows[key]); }
  }

  lemma BoundStays(a: Ledger, b: Ledger, net: set<Request>, own: set<Id>, intent: Intent, s: IntentStep)
    requires Later(a, b, net, own) && s.id in own && Bound(a, net, intent, s)
    ensures Bound(b, net, intent, s)
  {
    forall k <- b.rows | k.id == s.id ensures OwnRow(k, b.rows[k], intent, s) {
      if k in a.rows {
        assert Follows(a.rows[k], b.rows[k]) && OwnRow(k, a.rows[k], intent, s);
      } else {
        assert RowArrived(k, b.rows[k], net, own);
        var r :| r in net && Arrived(k, b.rows[k], r);
        assert OwnRequest(r, intent, s);
      }
    }
  }

  lemma StepStays(a: Ledger, b: Ledger, net: set<Request>, own: set<Id>, past: set<Collection>, more: set<Collection>,
                  intent: Intent, s: IntentStep, js: J.Step)
    requires Later(a, b, net, own) && s.id in own && past <= more && StepOk(a, net, past, intent, s, js)
    ensures StepOk(b, net, more, intent, s, js)
  {
    hide Later, ReadStep;
    if js.state.IntentRecorded? { UnsentStays(a, b, net, own, s.id); }
    if js.state.ObservedFailure? { NoEffectStays(a, b, net, own, KeyOf(intent, s)); }
  }

  lemma ReceiptStays(past: set<Collection>, more: set<Collection>, op: Operation)
    requires past <= more && Receipted(past, op)
    ensures Receipted(more, op)
  {}

  lemma OpStays(a: Ledger, b: Ledger, net: set<Request>, own: set<Id>, past: set<Collection>, more: set<Collection>,
                op: Operation)
    requires Later(a, b, net, own) && Ids(op.intent) <= own && past <= more && OpOk(a, net, past, op)
    ensures OpOk(b, net, more, op)
  {
    hide Later, StepOk, Bound, Unsent, JournalOk, Receipted;
    ReceiptStays(past, more, op);
    forall s <- op.intent.steps
      ensures Bound(b, net, op.intent, s)
      ensures op.journal.None? ==> Unsent(b, net, s.id)
    {
      assert s.id in Ids(op.intent);
      BoundStays(a, b, net, own, op.intent, s);
      if op.journal.None? { UnsentStays(a, b, net, own, s.id); }
    }
    if op.journal.Some? {
      forall i | 0 <= i < |op.intent.steps|
        ensures StepOk(b, net, more, op.intent, op.intent.steps[i], op.journal.value.steps[i])
      {
        assert op.intent.steps[i].id in Ids(op.intent);
        StepStays(a, b, net, own, past, more, op.intent, op.intent.steps[i], op.journal.value.steps[i]);
      }
    }
  }

  lemma OwnsIds(ops: Operations, o: Id)
    requires o in ops
    ensures Ids(ops[o].intent) <= OwnIds(ops)
  {}

  /** The world moves on and more of it is seen: every operation stays accounted for. */
  lemma SystemStays(c: Companion, d: Companion, net: set<Request>, past: set<Collection>, more: set<Collection>,
                    ops: Operations)
    requires SystemOk(c, net, past, ops) && Inv(d) && Later(c.ledger, d.ledger, net, OwnIds(ops)) && past <= more
    ensures SystemOk(d, net, more, ops)
  {
    hide Inv, Later, OpOk, Apart;
    forall o <- ops ensures OpOk(d.ledger, net, more, ops[o]) {
      OwnsIds(ops, o);
      OpStays(c.ledger, d.ledger, net, OwnIds(ops), past, more, ops[o]);
    }
  }

  // ---------------------------------------------------------------- sending

  lemma SendStep(l: Ledger, net: set<Request>, past: set<Collection>, r: Request, intent: Intent, s: IntentStep,
                 js: J.Step)
    requires StepOk(l, net, past, intent, s, js)
    requires r.key.id == s.id ==> !js.state.IntentRecorded? && !js.state.ObservedFailure?
    ensures StepOk(l, net + {r}, past, intent, s, js)
  {}

  lemma SendBound(l: Ledger, net: set<Request>, r: Request, intent: Intent, s: IntentStep)
    requires Bound(l, net, intent, s) && (r.key.id == s.id ==> OwnRequest(r, intent, s))
    ensures Bound(l, net + {r}, intent, s)
  {}

  lemma SendOther(l: Ledger, net: set<Request>, past: set<Collection>, r: Request, op: Operation)
    requires OpOk(l, net, past, op) && r.key.id !in Ids(op.intent)
    ensures OpOk(l, net + {r}, past, op)
  {
    hide StepOk, Bound, JournalOk, Receipted;
    forall s <- op.intent.steps
      ensures Bound(l, net + {r}, op.intent, s)
      ensures op.journal.None? ==> Unsent(l, net + {r}, s.id)
    {
      assert s.id in Ids(op.intent);
      SendBound(l, net, r, op.intent, s);
    }
    if op.journal.Some? {
      forall i | 0 <= i < |op.intent.steps|
        ensures StepOk(l, net + {r}, past, op.intent, op.intent.steps[i], op.journal.value.steps[i])
      {
        assert op.intent.steps[i].id in Ids(op.intent);
        SendStep(l, net, past, r, op.intent, op.intent.steps[i], op.journal.value.steps[i]);
      }
    }
  }

  lemma SendOwn(l: Ledger, net: set<Request>, past: set<Collection>, r: Request, op: Operation, i: nat)
    requires OpOk(l, net, past, op) && op.journal.Some? && i < |op.intent.steps|
    requires OwnRequest(r, op.intent, op.intent.steps[i])
    requires !op.journal.value.steps[i].state.IntentRecorded? && !op.journal.value.steps[i].state.ObservedFailure?
    ensures OpOk(l, net + {r}, past, op)
  {
    hide StepOk, Bound, JournalOk, Receipted;
    var steps := op.intent.steps;
    forall k | 0 <= k < |steps|
      ensures Bound(l, net + {r}, op.intent, steps[k])
              && StepOk(l, net + {r}, past, op.intent, steps[k], op.journal.value.steps[k])
    {
      assert k != i ==> steps[k].id != steps[i].id;
      SendBound(l, net, r, op.intent, steps[k]);
      SendStep(l, net, past, r, op.intent, steps[k], op.journal.value.steps[k]);
    }
  }

  /** A started or unknown step may be sent, once or again. */
  lemma SystemSends(c: Companion, net: set<Request>, past: set<Collection>, ops: Operations, o: Id, i: nat, r: Request)
    requires SystemOk(c, net, past, ops) && o in ops && ops[o].journal.Some? && i < |ops[o].intent.steps|
    requires |ops[o].journal.value.steps| == |ops[o].intent.steps|
    requires OwnRequest(r, ops[o].intent, ops[o].intent.steps[i])
    requires !ops[o].journal.value.steps[i].state.IntentRecorded?
             && !ops[o].journal.value.steps[i].state.ObservedFailure?
    ensures SystemOk(c, net + {r}, past, ops)
  {
    hide Inv, OpOk;
    forall p <- ops ensures OpOk(c.ledger, net + {r}, past, ops[p]) {
      assert r.key.id in Ids(ops[o].intent);
      if p == o { SendOwn(c.ledger, net, past, r, ops[o], i); } else { SendOther(c.ledger, net, past, r, ops[p]); }
    }
  }

  // ---------------------------------------------------------------- truthful journals

  lemma NoEffectNoEntry(c: Companion, net: set<Request>, key: Key)
    requires Inv(c) && NoEffectEver(c.ledger, net, key)
    ensures forall e <- c.log :: e.key != key
  {
    forall e <- c.log ensures e.key != key { assert Genuine(c.ledger, c.exec, e); }
  }

  lemma UnsentNoEntry(c: Companion, net: set<Request>, id: Id)
    requires Inv(c) && Unsent(c.ledger, net, id)
    ensures forall e <- c.log :: e.key.id != id
  {
    forall e <- c.log ensures e.key.id != id { assert Genuine(c.ledger, c.exec, e); }
  }

  lemma OwnEntry(c: Companion, net: set<Request>, intent: Intent, s: IntentStep, e: Entry)
    requires Inv(c) && Bound(c.ledger, net, intent, s) && e in c.log && e.key.id == s.id
    ensures e.key == KeyOf(intent, s) && e.body == s.body
  {
    assert Genuine(c.ledger, c.exec, e);
    assert OwnRow(e.key, c.ledger.rows[e.key], intent, s);
  }

  /** However its request was sent, lost, repeated and resubmitted, a step's effect is in the log at most once. */
  lemma StepEffectOnce(c: Companion, net: set<Request>, past: set<Collection>, ops: Operations, o: Id, s: IntentStep,
                       i: nat, j: nat)
    requires SystemOk(c, net, past, ops) && o in ops && s in ops[o].intent.steps && i < |c.log| && j < |c.log|
    requires c.log[i].key.id == s.id == c.log[j].key.id
    ensures i == j
  {
    hide StepOk, JournalOk, FinallyWitnessed;
    assert Bound(c.ledger, net, ops[o].intent, s);
    OwnEntry(c, net, ops[o].intent, s, c.log[i]);
    OwnEntry(c, net, ops[o].intent, s, c.log[j]);
    assert AtMostOnce(c.log);
  }

  lemma FailedStepNoEntry(c: Companion, net: set<Request>, past: set<Collection>, intent: Intent, s: IntentStep,
                          js: J.Step)
    requires Inv(c) && Bound(c.ledger, net, intent, s) && StepOk(c.ledger, net, past, intent, s, js)
    requires js.state.IntentRecorded? || js.state.ObservedFailure?
    ensures forall e <- c.log :: e.key.id != s.id
  {
    hide Inv, Unsent, NoEffectEver, Bound, Witnessed;
    if js.state.IntentRecorded? {
      UnsentNoEntry(c, net, s.id);
    } else {
      NoEffectNoEntry(c, net, KeyOf(intent, s));
      forall e <- c.log | e.key.id == s.id ensures e.key == KeyOf(intent, s) { OwnEntry(c, net, intent, s, e); }
    }
  }

  /** A journal in `failed_before_write` has no step whose effect was made. */
  lemma FailedJournalIsTruthful(c: Companion, net: set<Request>, past: set<Collection>, ops: Operations, o: Id)
    requires SystemOk(c, net, past, ops) && o in ops && ops[o].journal.Some?
             && ops[o].journal.value.state.FailedBeforeWrite?
    ensures forall e <- c.log :: e.key.id !in Ids(ops[o].intent)
  {
    hide Inv, Bound, StepOk, FinallyWitnessed;
    var op := ops[o];
    assert OpOk(c.ledger, net, past, op);
    forall e <- c.log ensures e.key.id !in Ids(op.intent) {
      if e.key.id in Ids(op.intent) {
        var s :| s in op.intent.steps && s.id == e.key.id;
        var i :| 0 <= i < |op.intent.steps| && op.intent.steps[i] == s;
        var js := op.journal.value.steps[i];
        assert js in op.journal.value.steps && StepOk(c.ledger, net, past, op.intent, s, js);
        FailedStepNoEntry(c, net, past, op.intent, s, js);
      }
    }
  }

  /** A committed journal has every step verified, each against a state that was seen, and a receipt of a
      matching final read-back. */
  lemma CommitIsSound(c: Companion, net: set<Request>, past: set<Collection>, ops: Operations, o: Id)
    requires SystemOk(c, net, past, ops) && o in ops && ops[o].journal.Some? && ops[o].journal.value.state.Committed?
    ensures var op := ops[o];
            && op.intent.steps != [] && |op.journal.value.steps| == |op.intent.steps|
            && (forall i | 0 <= i < |op.intent.steps| ::
                  && op.journal.value.steps[i].state.Verified?
                  && op.journal.value.steps[i].observed == Some(op.intent.steps[i].expected)
                  && Witnessed(past, op.intent, op.intent.steps[i]))
            && FinallyWitnessed(past, op.intent)
            && op.receipt == Some(op.intent.steps[|op.intent.steps| - 1].expected)
  {
    var op := ops[o];
    forall i | 0 <= i < |op.intent.steps|
      ensures op.journal.value.steps[i].state.Verified?
              && op.journal.value.steps[i].observed == Some(op.intent.steps[i].expected)
      ensures Witnessed(past, op.intent, op.intent.steps[i])
    {
      assert op.journal.value.steps[i] in op.journal.value.steps;
      assert StepOk(c.ledger, net, past, op.intent, op.intent.steps[i], op.journal.value.steps[i]);
    }
  }
}
