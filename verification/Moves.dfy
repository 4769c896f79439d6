/** The journal moves of the driver and the reconciler.  Each is one the store accepts, and each keeps the
    invariant of module `System` when its evidence holds. */
module Moves {
  import opened Wrappers
  import opened Anki
  import opened Effects
  import opened Readback
  import opened Ledger
  import opened Companion
  import opened CompanionLaws
  import opened System
  import J = Journal

  function WithJournal(op: Operation, j: J.Journal): Operation {
    op.(journal := Some(j))
  }

  function SetStep(j: J.Journal, i: nat, state: J.OperationState, step: J.StepState, observed: Option<Seen>): J.Journal
    requires i < |j.steps|
  {
    j.(state := state, steps := j.steps[i := j.steps[i].(state := step, observed := observed)])
  }

  function Started(j: J.Journal, i: nat): J.Journal
    requires i < |j.steps|
  {
    SetStep(j, i, J.Mutating, J.RequestStarted, None)
  }

  function Doubted(j: J.Journal, i: nat): J.Journal
    requires i < |j.steps|
  {
    SetStep(j, i, J.NeedsRecovery, J.Unknown, j.steps[i].observed)
  }

  function Succeeded(j: J.Journal, i: nat, seen: Seen, state: J.OperationState): J.Journal
    requires i < |j.steps|
  {
    SetStep(j, i, state, J.ObservedSuccess, Some(seen))
  }

  function Confirmed(j: J.Journal, i: nat, seen: Seen): J.Journal
    requires i < |j.steps|
  {
    SetStep(j, i, j.state, J.Verified, Some(seen))
  }

  /** Failed before any write when nothing else was done, else a known partial result. */
  function Refused(j: J.Journal, i: nat, reason: string): J.Journal
    requires i < |j.steps|
  {
    var failed := SetStep(j, i, j.state, J.ObservedFailure, Some(SeenRefusal(reason)));
    failed.(state := if J.OnlyFailures(failed.steps) then J.FailedBeforeWrite else J.NeedsRecovery)
  }

  function InState(j: J.Journal, state: J.OperationState): J.Journal {
    j.(state := state)
  }

  // ---------------------------------------------------------------- each move is legal

  /** Everything a change of one step needs, evidence aside. */
  ghost predicate Fits(j: J.Journal, i: nat, b: J.Journal) {
    && JournalOk(j) && i < |j.steps| && !J.Terminal(j.state)
    && |b.steps| == |j.steps| && b.operation == j.operation && b.approved == j.approved
    && (forall k | 0 <= k < |j.steps| && k != i :: b.steps[k] == j.steps[k])
    && b.steps[i].id == j.steps[i].id && b.steps[i].expected == j.steps[i].expected
    && b.steps[i].state != j.steps[i].state && J.StepMoves(j.steps[i].state, b.steps[i].state)
    && J.SoundStep(b.steps[i])
    && J.StateMoves(j.state, b.state)
    && b.state in {J.Mutating, J.NeedsRecovery, J.FailedBeforeWrite}
  }

  lemma FitsIsLegal(j: J.Journal, i: nat, b: J.Journal)
    requires Fits(j, i, b)
    requires b.steps[i].state.RequestStarted? ==> J.MayStart(j.steps, i)
    requires b.state != J.NeedsRecovery ==> forall s <- b.steps :: !s.state.Unknown?
    requires b.state.FailedBeforeWrite? ==> J.OnlyFailures(b.steps)
    ensures J.Legal(j, b) && JournalOk(b)
  {
    hide J.Shaped;
    forall k, m | 0 <= k < m < |b.steps| ensures b.steps[k].id != b.steps[m].id {
      assert j.steps[k].id != j.steps[m].id;
    }
    forall s <- b.steps ensures J.SoundStep(s) {
      var k :| 0 <= k < |b.steps| && b.steps[k] == s;
      if k != i { assert s in j.steps; }
    }
    assert J.Validated(b);
    forall k | 0 <= k < |j.steps| ensures J.StepFollows(j.steps[k], b.steps[k]) {}
    assert b.steps[|j.steps|..] == [];
    assert J.Legal(j, b);
    J.LegalKeepsShape(j, b);
  }

  lemma OthersSettled(j: J.Journal, i: nat)
    requires J.Shaped(j.steps) && i < |j.steps| && !j.steps[i].state.IntentRecorded? && !j.steps[i].state.Verified?
    ensures forall k | 0 <= k < |j.steps| && k != i ::
            j.steps[k].state == if k < i then J.Verified else J.IntentRecorded
  {
    var k: nat :| J.ShapedAt(j.steps, k);
    assert k == i;
  }

  lemma StartedLegal(j: J.Journal, i: nat)
    requires JournalOk(j) && i < |j.steps| && j.state in {J.Checkpointed, J.Mutating, J.NeedsRecovery}
    requires j.steps[i].state.IntentRecorded? && forall k | 0 <= k < i :: j.steps[k].state.Verified?
    ensures J.Legal(j, Started(j, i)) && JournalOk(Started(j, i))
  {
    var k: nat :| J.ShapedAt(j.steps, k);
    forall s <- j.steps ensures s.state.IntentRecorded? || s.state.Verified? {
      var m :| 0 <= m < |j.steps| && j.steps[m] == s;
      assert k <= i;
      if m > i { assert m > k; }
    }
    forall s <- Started(j, i).steps ensures !s.state.Unknown? { assert s == Started(j, i).steps[i] || s in j.steps; }
    FitsIsLegal(j, i, Started(j, i));
  }

  lemma DoubtedLegal(j: J.Journal, i: nat)
    requires JournalOk(j) && i < |j.steps| && j.steps[i].state.RequestStarted? && !J.Terminal(j.state)
    ensures J.Legal(j, Doubted(j, i)) && JournalOk(Doubted(j, i))
  {
    StartedState(j, i);
    FitsIsLegal(j, i, Doubted(j, i));
  }

  lemma SucceededLegal(j: J.Journal, i: nat, seen: Seen, state: J.OperationState)
    requires JournalOk(j) && i < |j.steps| && j.steps[i].state.RequestStarted? && !J.Terminal(j.state)
    requires state == j.state || state == J.NeedsRecovery
    ensures J.Legal(j, Succeeded(j, i, seen, state)) && JournalOk(Succeeded(j, i, seen, state))
  {
    StartedState(j, i);
    OthersSettled(j, i);
    var b := Succeeded(j, i, seen, state);
    forall s <- b.steps ensures !s.state.Unknown? {
      var k :| 0 <= k < |b.steps| && b.steps[k] == s;
    }
    FitsIsLegal(j, i, b);
  }

  lemma ConfirmedLegal(j: J.Journal, i: nat)
    requires JournalOk(j) && i < |j.steps| && (j.steps[i].state.ObservedSuccess? || j.steps[i].state.Unknown?)
             && !J.Terminal(j.state)
    ensures var b := Confirmed(j, i, j.steps[i].expected); J.Legal(j, b) && JournalOk(b)
  {
    StartedState(j, i);
    OthersSettled(j, i);
    var b := Confirmed(j, i, j.steps[i].expected);
    forall s <- b.steps ensures !s.state.Unknown? {
      var k :| 0 <= k < |b.steps| && b.steps[k] == s;
    }
    FitsIsLegal(j, i, b);
  }

  lemma RefusedLegal(j: J.Journal, i: nat, reason: string)
    requires JournalOk(j) && i < |j.steps| && (j.steps[i].state.RequestStarted? || j.steps[i].state.Unknown?)
             && !J.Terminal(j.state)
    ensures J.Legal(j, Refused(j, i, reason)) && JournalOk(Refused(j, i, reason))
  {
    StartedState(j, i);
    OthersSettled(j, i);
    var b := Refused(j, i, reason);
    forall s <- b.steps ensures !s.state.Unknown? {
      var k :| 0 <= k < |b.steps| && b.steps[k] == s;
    }
    FitsIsLegal(j, i, b);
  }

  /** A step beyond intent that is not verified: the operation is mutating or needs recovery. */
  lemma StartedState(j: J.Journal, i: nat)
    requires JournalOk(j) && i < |j.steps| && !J.Terminal(j.state)
    requires !j.steps[i].state.IntentRecorded? && !j.steps[i].state.Verified?
    ensures j.state.Mutating? || j.state.NeedsRecovery?
  {
    assert j.steps[i] in j.steps;
  }

  lemma InStateLegal(j: J.Journal, state: J.OperationState)
    requires JournalOk(j) && J.StateMoves(j.state, state) && !J.Terminal(j.state) && !state.Restored?
    requires state in {J.Preflight, J.Checkpointed, J.FailedBeforeWrite} ==> J.NothingSent(j.steps)
    requires state.Verifying? || state.Committed? ==> j.steps != [] && J.AllVerified(j.steps)
    requires state in {J.Preflight, J.Checkpointed, J.FailedBeforeWrite, J.Verifying, J.Committed, J.NeedsRecovery}
    ensures J.Legal(j, InState(j, state)) && JournalOk(InState(j, state))
  {
    hide J.Shaped;
    assert InState(j, state).steps[|j.steps|..] == [];
    assert forall s <- j.steps :: J.NothingSent(j.steps) || J.AllVerified(j.steps) ==> !s.state.Unknown?;
  }

  // ---------------------------------------------------------------- each move keeps the invariant

  /** One step's journal state changes with its evidence; the other steps keep theirs. */
  lemma StepMoveOk(l: Ledger, net: set<Request>, past: set<Collection>, op: Operation, i: nat, b: J.Journal)
    requires OpOk(l, net, past, op) && op.journal.Some? && i < |op.intent.steps| && JournalOk(b)
    requires |b.steps| == |op.intent.steps|
    requires forall k | 0 <= k < |b.steps| && k != i :: b.steps[k] == op.journal.value.steps[k]
    requires StepOk(l, net, past, op.intent, op.intent.steps[i], b.steps[i]) && !b.state.Committed?
    ensures OpOk(l, net, past, WithJournal(op, b))
  {
    hide StepOk, Bound, JournalOk, FinallyWitnessed;
    forall k | 0 <= k < |op.intent.steps| ensures StepOk(l, net, past, op.intent, op.intent.steps[k], b.steps[k]) {
      if k != i { assert StepOk(l, net, past, op.intent, op.intent.steps[k], op.journal.value.steps[k]); }
    }
  }

  lemma StateMoveOk(l: Ledger, net: set<Request>, past: set<Collection>, op: Operation, state: J.OperationState)
    requires OpOk(l, net, past, op) && op.journal.Some? && JournalOk(InState(op.journal.value, state))
    requires state.Committed? ==> op.receipt.Some?
    ensures OpOk(l, net, past, WithJournal(op, InState(op.journal.value, state)))
  {
    hide StepOk, Bound, JournalOk, FinallyWitnessed;
  }

  lemma SystemWrites(c: Companion, net: set<Request>, past: set<Collection>, ops: Operations, o: Id, op: Operation)
    requires SystemOk(c, net, past, ops) && o in ops && op.intent == ops[o].intent && OpOk(c.ledger, net, past, op)
    ensures SystemOk(c, net, past, ops[o := op]) && OwnIds(ops[o := op]) == OwnIds(ops)
  {
    hide Inv, OpOk;
    var after := ops[o := op];
    forall a <- after, b <- after | a != b ensures Ids(after[a].intent) !! Ids(after[b].intent) {
      assert after[a].intent == ops[a].intent && after[b].intent == ops[b].intent;
    }
    forall id ensures id in OwnIds(after) <==> id in OwnIds(ops) {
      if id in OwnIds(after) {
        var a, s :| a in after && s in after[a].intent.steps && s.id == id;
        assert s in ops[a].intent.steps;
      }
      if id in OwnIds(ops) {
        var a, s :| a in ops && s in ops[a].intent.steps && s.id == id;
        assert s in after[a].intent.steps;
      }
    }
  }

  lemma OpIs(c: Companion, net: set<Request>, past: set<Collection>, ops: Operations, o: Id)
    requires SystemOk(c, net, past, ops) && o in ops
    ensures OpOk(c.ledger, net, past, ops[o]) && WellPlanned(ops[o].intent)
    ensures ops[o].journal.Some?
            ==> JournalOk(ops[o].journal.value) && |ops[o].journal.value.steps| == |ops[o].intent.steps|
  {
    hide StepOk, Bound, JournalOk, FinallyWitnessed, Inv;
  }

  lemma StepIs(l: Ledger, net: set<Request>, past: set<Collection>, op: Operation, i: nat)
    requires OpOk(l, net, past, op) && op.journal.Some? && i < |op.intent.steps|
             && |op.journal.value.steps| == |op.intent.steps|
    ensures StepOk(l, net, past, op.intent, op.intent.steps[i], op.journal.value.steps[i])
  {
    hide StepOk, Bound, JournalOk, FinallyWitnessed;
  }
}
