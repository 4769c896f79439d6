/** The step driver: every request is journaled before it is sent and judged by a read-back after it. */
module Driver {
  import opened Wrappers
  import opened Anki
  import opened Effects
  import opened Readback
  import opened Ledger
  import opened Companion
  import opened CompanionLaws
  import opened System
  import opened Moves
  import opened Serving
  import opened Client
  import J = Journal

  function JournalOf(ops: Operations, o: Id): J.Journal
    requires o in ops && ops[o].journal.Some?
  {
    ops[o].journal.value
  }

  /** Append the move of one step, its evidence given. */
  method Record(p: Client, o: Id, i: nat, j: J.Journal) returns (ok: bool)
    requires p.Valid() && p.Has(o, i) && J.Legal(JournalOf(p.ops, o), j) && JournalOk(j)
    requires |j.steps| == |p.ops[o].intent.steps| && !j.state.Committed?
    requires forall k | 0 <= k < |j.steps| && k != i :: j.steps[k] == StepAt(p.ops, o, k)
    requires StepOk(p.companion.ledger, p.net, p.past, p.ops[o].intent, p.ops[o].intent.steps[i], j.steps[i])
    modifies p`ops, p`script
    ensures p.Valid() && OwnIds(p.ops) == OwnIds(old(p.ops)) && SameOps(old(p.ops), p.ops, o) && p.Has(o, i)
    ensures p.ops == if ok then old(p.ops)[o := WithJournal(old(p.ops)[o], j)] else old(p.ops)
    ensures old(p.script) == [] ==> ok && p.script == []
  {
    hide SystemOk, StepOk, OpOk, Inv, J.Legal, JournalOk;
    OpIs(p.companion, p.net, p.past, p.ops, o);
    StepMoveOk(p.companion.ledger, p.net, p.past, p.ops[o], i, j);
    ok := p.Advance(o, j);
  }

  /** Start a step: durable before the request is sent. */
  method StartStep(p: Client, o: Id, i: nat) returns (ok: bool)
    requires p.Valid() && p.Has(o, i) && StepAt(p.ops, o, i).state.IntentRecorded?
    requires JournalOf(p.ops, o).state in {J.Checkpointed, J.Mutating, J.NeedsRecovery}
    requires forall k | 0 <= k < i :: StepAt(p.ops, o, k).state.Verified?
    modifies p`ops, p`script
    ensures p.Valid() && OwnIds(p.ops) == OwnIds(old(p.ops)) && SameOps(old(p.ops), p.ops, o) && p.Has(o, i)
    ensures p.ops == if ok then old(p.ops)[o := WithJournal(old(p.ops)[o], Started(JournalOf(old(p.ops), o), i))]
            else old(p.ops)
    ensures Unsent(p.companion.ledger, p.net, p.ops[o].intent.steps[i].id)
    ensures old(p.script) == [] ==> ok && p.script == []
  {
    hide SystemOk, OpOk, Inv, J.Legal, JournalOk;
    OpIs(p.companion, p.net, p.past, p.ops, o);
    StepIs(p.companion.ledger, p.net, p.past, p.ops[o], i);
    forall k | 0 <= k < i ensures JournalOf(p.ops, o).steps[k].state.Verified? {
      assert StepAt(p.ops, o, k).state.Verified?;
    }
    StartedLegal(JournalOf(p.ops, o), i);
    ok := Record(p, o, i, Started(JournalOf(p.ops, o), i));
  }

  /** Record a matching read-back as verified from the step's current state. */
  method VerifyStep(p: Client, o: Id, i: nat, seen: Seen) returns (ok: bool)
    requires p.Valid() && p.Has(o, i) && !J.Terminal(JournalOf(p.ops, o).state)
    requires var s := StepAt(p.ops, o, i).state; s.RequestStarted? || s.ObservedSuccess? || s.Unknown?
    requires p.companion.col in p.past && seen == p.ops[o].intent.steps[i].expected
    requires ReadStep(p.companion.col, p.ops[o].intent.pre, p.ops[o].intent.steps[i]) == Some(Expected(seen))
    modifies p`ops, p`script
    ensures p.Valid() && OwnIds(p.ops) == OwnIds(old(p.ops)) && SameOps(old(p.ops), p.ops, o) && p.Has(o, i)
    ensures p.ops[o].receipt == old(p.ops)[o].receipt
    ensures ok ==> JournalOf(p.ops, o).state == JournalOf(old(p.ops), o).state && StepAt(p.ops, o, i).state.Verified?
                   && forall k | 0 <= k < |p.ops[o].intent.steps| && k != i ::
                      StepAt(p.ops, o, k) == StepAt(old(p.ops), o, k)
    ensures StillOpen(old(p.ops), p.ops, o, i)
    ensures old(p.script) == [] ==> ok && p.script == []
  {
    hide SystemOk, OpOk, Inv, J.Legal, JournalOk, ReadStep;
    ghost var intent := p.ops[o].intent;
    OpIs(p.companion, p.net, p.past, p.ops, o);
    StepIs(p.companion.ledger, p.net, p.past, p.ops[o], i);
    assert Witnessed(p.past, intent, intent.steps[i]);
    if StepAt(p.ops, o, i).state.RequestStarted? {
      SucceededLegal(JournalOf(p.ops, o), i, seen, JournalOf(p.ops, o).state);
      ok := Record(p, o, i, Succeeded(JournalOf(p.ops, o), i, seen, JournalOf(p.ops, o).state));
      if !ok { return; }
      OpIs(p.companion, p.net, p.past, p.ops, o);
      StepIs(p.companion.ledger, p.net, p.past, p.ops[o], i);
    }
    ConfirmedLegal(JournalOf(p.ops, o), i);
    ok := Record(p, o, i, Confirmed(JournalOf(p.ops, o), i, seen));
  }

  /** An effect that cannot be decided: dependent writes stop. */
  method ToUnknown(p: Client, o: Id, i: nat) returns (ok: bool)
    requires p.Valid() && p.Has(o, i) && StepAt(p.ops, o, i).state.RequestStarted?
             && !J.Terminal(JournalOf(p.ops, o).state)
    modifies p`ops, p`script
    ensures p.Valid() && OwnIds(p.ops) == OwnIds(old(p.ops)) && SameOps(old(p.ops), p.ops, o) && p.Has(o, i)
    ensures p.ops == if ok then old(p.ops)[o := WithJournal(old(p.ops)[o], Doubted(JournalOf(old(p.ops), o), i))]
            else old(p.ops)
    ensures old(p.script) == [] ==> ok && p.script == [] && Decided(old(p.ops), p.ops, o, i, Doubt)
  {
    hide SystemOk, OpOk, Inv, J.Legal, JournalOk;
    OpIs(p.companion, p.net, p.past, p.ops, o);
    StepIs(p.companion.ledger, p.net, p.past, p.ops[o], i);
    DoubtedLegal(JournalOf(p.ops, o), i);
    ok := Record(p, o, i, Doubted(JournalOf(p.ops, o), i));
  }

  /** A native refusal with a read-back that still shows the precondition. */
  method RecordFailure(p: Client, o: Id, i: nat, reason: string) returns (ok: bool)
    requires p.Valid() && p.Has(o, i) && !J.Terminal(JournalOf(p.ops, o).state)
    requires StepAt(p.ops, o, i).state.RequestStarted? || StepAt(p.ops, o, i).state.Unknown?
    requires NoEffectEver(p.companion.ledger, p.net, KeyOf(p.ops[o].intent, p.ops[o].intent.steps[i]))
    modifies p`ops, p`script
    ensures p.Valid() && OwnIds(p.ops) == OwnIds(old(p.ops)) && SameOps(old(p.ops), p.ops, o) && p.Has(o, i)
    ensures p.ops == if ok
            then old(p.ops)[o := WithJournal(old(p.ops)[o], Refused(JournalOf(old(p.ops), o), i, reason))]
                else old(p.ops)
    ensures old(p.script) == [] ==> ok && p.script == []
  {
    hide SystemOk, OpOk, Inv, J.Legal, JournalOk, NoEffectEver;
    OpIs(p.companion, p.net, p.past, p.ops, o);
    StepIs(p.companion.ledger, p.net, p.past, p.ops[o], i);
    RefusedLegal(JournalOf(p.ops, o), i, reason);
    ok := Record(p, o, i, Refused(JournalOf(p.ops, o), i, reason));
  }

  /** Everything but the operation state stays. */
  method ChangeState(p: Client, o: Id, state: J.OperationState) returns (ok: bool)
    requires p.Valid() && o in p.ops && p.ops[o].journal.Some? && !J.Terminal(JournalOf(p.ops, o).state)
    requires J.StateMoves(JournalOf(p.ops, o).state, state)
    requires state in {J.Preflight, J.Checkpointed, J.FailedBeforeWrite, J.Verifying, J.Committed, J.NeedsRecovery}
    requires state in {J.Preflight, J.Checkpointed, J.FailedBeforeWrite} ==> J.NothingSent(JournalOf(p.ops, o).steps)
    requires state.Verifying? || state.Committed? ==> J.AllVerified(JournalOf(p.ops, o).steps)
    requires state.Committed? ==> p.ops[o].receipt.Some?
    modifies p`ops, p`script
    ensures p.Valid() && OwnIds(p.ops) == OwnIds(old(p.ops)) && SameOps(old(p.ops), p.ops, o)
    ensures p.ops == if ok then old(p.ops)[o := WithJournal(old(p.ops)[o], InState(JournalOf(old(p.ops), o), state))]
            else old(p.ops)
    ensures old(p.script) == [] ==> ok && p.script == []
  {
    hide SystemOk, OpOk, Inv, J.Legal, JournalOk;
    OpIs(p.companion, p.net, p.past, p.ops, o);
    InStateLegal(JournalOf(p.ops, o), state);
    StateMoveOk(p.companion.ledger, p.net, p.past, p.ops[o], state);
    ok := p.Advance(o, InState(JournalOf(p.ops, o), state));
  }

  // ---------------------------------------------------------------- what a cut leaves

  /** Everything up to a step is verified. */
  predicate VerifiedTo(j: J.Journal, i: nat) {
    i <= |j.steps| && forall k | 0 <= k < i :: j.steps[k].state.Verified?
  }

  predicate CanDispatch(j: J.Journal) {
    j.state in {J.Checkpointed, J.Mutating, J.NeedsRecovery}
  }

  /** Nothing was sent from `n` on. */
  predicate OnlyIntents(j: J.Journal, n: nat) {
    forall k | n <= k < |j.steps| :: j.steps[k].state.IntentRecorded?
  }

  /** What a crash leaves: verified steps, the last started one in any state but a known failure, intents. */
  ghost predicate Interrupted(j: J.Journal, n: nat) {
    && n <= |j.steps| && (n > 0 ==> VerifiedTo(j, n - 1))
    && (n > 0 ==> !j.steps[n - 1].state.IntentRecorded? && !j.steps[n - 1].state.ObservedFailure?)
    && OnlyIntents(j, n) && !J.Terminal(j.state) && (n == 0 ==> CanDispatch(j))
  }

  /** What a lost request leaves: verified steps, then one that started and never reached the ledger, intents. */
  ghost predicate Unreached(l: Ledger, intent: Intent, j: J.Journal, n: nat) {
    && n < |j.steps| == |intent.steps| && VerifiedTo(j, n) && !J.Terminal(j.state)
    && (j.steps[n].state.RequestStarted? || j.steps[n].state.Unknown?) && KeyOf(intent, intent.steps[n]) !in l.rows
    && OnlyIntents(j, n + 1)
  }

  /** A run that stopped after `n` effects: the last one is journaled as made or in doubt, or the next request
      never arrived. */
  ghost predicate Paused(l: Ledger, intent: Intent, j: J.Journal, n: nat) {
    Interrupted(j, n) || Unreached(l, intent, j, n)
  }

  /** Only step `i` moved; its request started, and it is not recorded as failed. */
  ghost predicate StillOpen(a: Operations, b: Operations, o: Id, i: nat) {
    && SameOps(a, b, o) && !J.Terminal(b[o].journal.value.state)
    && i < |a[o].journal.value.steps| == |b[o].journal.value.steps|
    && (forall k | 0 <= k < |a[o].journal.value.steps| && k != i :: StepAt(b, o, k) == StepAt(a, o, k))
    && !StepAt(b, o, i).state.IntentRecorded? && !StepAt(b, o, i).state.ObservedFailure?
  }

  /** What a cut in step `i` leaves, with or without the effect of that step. */
  ghost predicate CutIn(c: Companion, d: Companion, intent: Intent, j: J.Journal, epoch: Uuid, i: nat) {
    && Resting(d, intent, epoch)
    && ((Unmoved(c, d) && Paused(d.ledger, intent, j, i))
        || (Took(c, d, intent, i) && Paused(d.ledger, intent, j, i + 1)))
  }

  /** What a cut leaves of a run since `start`: its first effects, each made once, and a journal that says
      where it stopped. */
  ghost predicate CutOff(op: Operation, start: Companion, c: Companion, epoch: Uuid) {
    && op.journal.Some? && |op.journal.value.steps| == |op.intent.steps|
    && Resting(c, op.intent, epoch) && |start.log| <= |c.log|
    && var n := |c.log| - |start.log|;
       && Executed(start, c, op.intent, 0, n) && OnTrack(c.col, op.intent, n)
       && Paused(c.ledger, op.intent, op.journal.value, n)
  }

  lemma CutIsCutOff(op: Operation, start: Companion, c: Companion, d: Companion, epoch: Uuid, i: nat)
    requires op.journal.Some? && |op.journal.value.steps| == |op.intent.steps|
    requires i < |op.intent.steps| && OnTrack(c.col, op.intent, i) && Executed(start, c, op.intent, 0, i)
    requires CutIn(c, d, op.intent, op.journal.value, epoch, i)
    ensures CutOff(op, start, d, epoch)
  {
    hide Paused, Resting, Accepts, Perform, Ready, ReadStep;
    if Took(c, d, op.intent, i) {
      ExecutedOneMore(start, c, d, op.intent, 0, i);
    } else {
      SameLog(start, start, c, d, op.intent, 0, i);
    }
  }

  /** Owner calls and reads leave the log of effects alone. */
  lemma SameLog(a: Companion, start: Companion, c: Companion, d: Companion, intent: Intent, n: nat, k: nat)
    requires start.log == a.log && start.col == a.col && d.log == c.log && d.col == c.col
    requires Executed(start, c, intent, n, k)
    ensures Executed(a, d, intent, n, k)
  {
    forall m | 0 <= m < k ensures EntryFor(a, d, intent, n, m) { assert EntryFor(start, c, intent, n, m); }
  }

  lemma CutOffStays(op: Operation, a: Companion, start: Companion, c: Companion, d: Companion, epoch: Uuid)
    requires CutOff(op, start, c, epoch) && Resting(d, op.intent, epoch) && Unmoved(a, start) && Unmoved(c, d)
    ensures CutOff(op, a, d, epoch)
  {
    hide Resting, Interrupted, OnTrack, Executed;
    SameLog(a, start, c, d, op.intent, 0, |c.log| - |start.log|);
  }

  lemma OpenIsPaused(l: Ledger, a: Operations, b: Operations, o: Id, i: nat)
    requires StillOpen(a, b, o, i) && VerifiedTo(JournalOf(a, o), i)
    requires |JournalOf(a, o).steps| == |a[o].intent.steps| && OnlyIntents(JournalOf(a, o), i + 1)
    ensures Interrupted(JournalOf(b, o), i + 1)
    ensures (StepAt(b, o, i).state.RequestStarted? || StepAt(b, o, i).state.Unknown?)
            && KeyOf(a[o].intent, a[o].intent.steps[i]) !in l.rows
            ==> Unreached(l, a[o].intent, JournalOf(b, o), i)
  {
    var j := JournalOf(b, o);
    forall k | 0 <= k < i ensures j.steps[k].state.Verified? { assert StepAt(b, o, k) == StepAt(a, o, k); }
    forall k | i < k < |j.steps| ensures j.steps[k].state.IntentRecorded? {
      assert StepAt(b, o, k) == StepAt(a, o, k);
    }
  }

  lemma FreshIsPaused(l: Ledger, intent: Intent, j: J.Journal, i: nat)
    requires CanDispatch(j) && VerifiedTo(j, i) && OnlyIntents(j, i)
    ensures Paused(l, intent, j, i)
  {}

  lemma CalmIsOwned(c: Companion, intent: Intent, epoch: Uuid, owner: Owned)
    ensures Calm(c, intent, epoch, owner) ==> c.exec.Idle? && IsCurrent(c.ledger, owner.token, owner.fence)
  {}

  lemma CalmIsResting(c: Companion, intent: Intent, epoch: Uuid, owner: Owned)
    ensures Calm(c, intent, epoch, owner) ==> Resting(c, intent, epoch)
  {}

  // ---------------------------------------------------------------- what a request comes to

  /** `Failure` is a refusal without effect, `Mismatch` an effect that reads back otherwise than expected. */
  datatype Verdict = Success | Failure | Mismatch | Doubt

  /** What a new request for step `i` comes to when nothing disturbs it. */
  function Comes(c: Companion, intent: Intent, i: nat, epoch: Uuid, owner: Owned): Verdict
    requires i < |intent.steps|
  {
    var s, r := intent.steps[i], RequestFor(intent, i, epoch, owner);
    if !c.exec.Idle? then Doubt
    else if SubmitCall(c, r).Err? || !Accepts(c.col, s.body) then
      if c.session == Some(Session(intent.lineage, epoch)) && ReadStep(c.col, intent.pre, s) == Some(Unchanged)
      then Failure else Doubt
    else
      var out := Perform(c.col, s.body);
      if !out.done || !ReadsBack(out.col, s.body, out.note) then Doubt
      else
        match ReadStep(out.col, intent.pre, s)
        case Some(Expected(_)) => Success
        case Some(Different(_)) => Mismatch
        case _ => Doubt
  }

  /** What the request leaves in the collection and in the log of effects: everything as it was when it is not
      accepted or its preflight refuses, and the effect once otherwise. */
  ghost predicate Left(c: Companion, d: Companion, intent: Intent, i: nat, epoch: Uuid, owner: Owned)
    requires i < |intent.steps|
  {
    var body := intent.steps[i].body;
    if !c.exec.Idle? || SubmitCall(c, RequestFor(intent, i, epoch, owner)).Err? || !Accepts(c.col, body)
    then d.col == c.col && d.log == c.log
    else Took(c, d, intent, i)
  }

  /** How the journal records it: no other step moves; a failure closes the journal as failed before any write
      exactly when no other step went beyond its intent. */
  ghost predicate Decided(a: Operations, b: Operations, o: Id, i: nat, v: Verdict) {
    && SameOps(a, b, o) && b[o].receipt == a[o].receipt
    && i < |a[o].journal.value.steps| == |b[o].journal.value.steps|
    && (forall k | 0 <= k < |a[o].journal.value.steps| && k != i :: StepAt(b, o, k) == StepAt(a, o, k))
    && var state := JournalOf(b, o).state;
       match v
       case Success => StepAt(b, o, i).state.Verified? && state.Mutating?
       case Failure => StepAt(b, o, i).state.ObservedFailure?
                       && state == if AloneSent(a, o, i) then J.FailedBeforeWrite else J.NeedsRecovery
       case Mismatch => StepAt(b, o, i).state.ObservedSuccess? && state.NeedsRecovery?
       case Doubt => StepAt(b, o, i).state.Unknown? && state.NeedsRecovery?
  }

  /** No other step went beyond its intent. */
  predicate AloneSent(ops: Operations, o: Id, i: nat)
    requires o in ops && ops[o].journal.Some?
  {
    forall k | 0 <= k < |ops[o].journal.value.steps| && k != i :: StepAt(ops, o, k).state.IntentRecorded?
  }

  /** The start of the step itself changes no other. */
  lemma DecidedSince(a: Operations, started: Operations, b: Operations, o: Id, i: nat, v: Verdict)
    requires SameOps(a, started, o) && i < |JournalOf(a, o).steps|
             && started == a[o := WithJournal(a[o], Started(JournalOf(a, o), i))]
    requires Decided(started, b, o, i, v)
    ensures Decided(a, b, o, i, v)
  {
    forall k | 0 <= k < |JournalOf(a, o).steps| && k != i ensures StepAt(started, o, k) == StepAt(a, o, k) {}
    assert AloneSent(a, o, i) <==> AloneSent(started, o, i);
  }

  lemma RefusedCloses(ops: Operations, o: Id, i: nat, reason: string)
    requires o in ops && ops[o].journal.Some? && JournalOk(JournalOf(ops, o)) && i < |JournalOf(ops, o).steps|
    requires StepAt(ops, o, i).state.RequestStarted? || StepAt(ops, o, i).state.Unknown?
    ensures Refused(JournalOf(ops, o), i, reason).state
            == if AloneSent(ops, o, i) then J.FailedBeforeWrite else J.NeedsRecovery
  {
    var j, b := JournalOf(ops, o), Refused(JournalOf(ops, o), i, reason);
    OthersSettled(j, i);
    if !AloneSent(ops, o, i) {
      var k :| 0 <= k < |j.steps| && k != i && !StepAt(ops, o, k).state.IntentRecorded?;
      assert b.steps[k] == j.steps[k] && b.steps[k] in b.steps;
    } else {
      forall s <- b.steps ensures s.state.IntentRecorded? || s.state.ObservedFailure? {
        var k :| 0 <= k < |b.steps| && b.steps[k] == s;
        if k != i { assert s == StepAt(ops, o, k); }
      }
    }
  }

  // ---------------------------------------------------------------- one step

  /** Send a started step and decide its outcome from the row and a read-back. */
  method Dispatch(p: Client, o: Id, i: nat, epoch: Uuid, owner: Owned) returns (flow: Flow)
    requires p.Valid() && p.Has(o, i) && StepAt(p.ops, o, i).state.RequestStarted?
             && JournalOf(p.ops, o).state.Mutating?
    requires Unsent(p.companion.ledger, p.net, p.ops[o].intent.steps[i].id)
    modifies p
    ensures p.Valid() && OwnIds(p.ops) == OwnIds(old(p.ops)) && SameOps(old(p.ops), p.ops, o) && p.Has(o, i)
    ensures old(p.past) <= p.past
    ensures flow.Goes? ==> JournalOf(p.ops, o).state.Mutating? && StepAt(p.ops, o, i).state.Verified?
                           && forall k | 0 <= k < |p.ops[o].intent.steps| && k != i ::
                              StepAt(p.ops, o, k) == StepAt(old(p.ops), o, k)
    ensures p.ops[o].receipt == old(p.ops)[o].receipt
    ensures old(p.script) == [] ==> p.script == []
    ensures var intent := old(p.ops)[o].intent;
            old(p.script) == [] && Calm(old(p.companion), intent, epoch, owner)
                && Ready(old(p.companion).col, intent, i) ==>
              && flow.Goes? && Calm(p.companion, intent, epoch, owner)
              && Took(old(p.companion), p.companion, intent, i)
    ensures var intent, c := old(p.ops)[o].intent, old(p.companion);
            p.cutsOnly && Calm(c, intent, epoch, owner) && Ready(c.col, intent, i) ==>
              if flow.Goes? then Calm(p.companion, intent, epoch, owner) && Took(c, p.companion, intent, i)
              else && Resting(p.companion, intent, epoch) && StillOpen(old(p.ops), p.ops, o, i)
                   && (Took(c, p.companion, intent, i)
                       || (Unmoved(c, p.companion)
                           && (StepAt(p.ops, o, i).state.RequestStarted? || StepAt(p.ops, o, i).state.Unknown?)))
    ensures var intent, c := old(p.ops)[o].intent, old(p.companion);
            var v := Comes(c, intent, i, epoch, owner);
            old(p.script) == [] ==>
              && Decided(old(p.ops), p.ops, o, i, v) && flow == (if v.Success? then Goes else Stops)
              && Left(c, p.companion, intent, i, epoch, owner)
    ensures flow.Stops? ==> !StepAt(p.ops, o, i).state.RequestStarted?
  {
    hide SystemOk, OpOk, Inv, ReadStep, NoEffectEver, Unsent, Onward, Calm, Ready, Accepts, Perform, Served, Took,
         Resting, Comes, Left, Decided, SubmitCall, JournalOk, Answers, WellPlanned, J.Legal;
    ghost var start, own := p.companion, OwnIds(p.ops);
    ghost var intent := p.ops[o].intent;
    UnsentNoRow(start.ledger, p.net, intent, i);
    SystemInv(start, p.net, p.past, p.ops);
    OpIs(start, p.net, p.past, p.ops, o);
    PlannedEffect(intent, i);
    var reply := p.Mutate(o, i, epoch, owner);
    ghost var answered := p.companion;
    if p.cutsOnly || old(p.script) == [] { ServedIsReady(start, p.net, own, intent, i, epoch, owner); }
    CalmIsResting(answered, intent, epoch, owner);
    AnswerComes(start, p.net, own, intent, i, epoch, owner, answered, reply);
    flow := Settle(p, o, i, epoch, reply);
  }

  /** Decide the outcome from the answer and, once the row is settled or the request refused, a read-back. */
  method Settle(p: Client, o: Id, i: nat, epoch: Uuid, reply: Reply) returns (flow: Flow)
    requires p.Valid() && p.Has(o, i) && StepAt(p.ops, o, i).state.RequestStarted?
             && JournalOf(p.ops, o).state.Mutating?
    requires var key := KeyOf(p.ops[o].intent, p.ops[o].intent.steps[i]);
             && (reply.Settled? ==> StatusIs(p.companion.ledger, key, reply.state) && !InFlight(reply.state))
             && (reply.Rejected? ==> NoEffectEver(p.companion.ledger, p.net, key))
    modifies p`companion, p`script, p`past, p`ops
    ensures p.Valid() && OwnIds(p.ops) == OwnIds(old(p.ops)) && SameOps(old(p.ops), p.ops, o) && p.Has(o, i)
    ensures old(p.past) <= p.past && p.ops[o].receipt == old(p.ops)[o].receipt
    ensures flow.Goes? ==> && JournalOf(p.ops, o).state.Mutating? && StepAt(p.ops, o, i).state.Verified?
                           && reply.Settled? && reply.state.Verified?
                           && forall k | 0 <= k < |p.ops[o].intent.steps| && k != i ::
                              StepAt(p.ops, o, k) == StepAt(old(p.ops), o, k)
    ensures flow.Stops? ==> !StepAt(p.ops, o, i).state.RequestStarted?
    ensures p.cutsOnly ==> p.companion == old(p.companion)
    ensures reply.Lost? || reply.Ambiguous? || (reply.Settled? && reply.state.Verified?)
            ==> StillOpen(old(p.ops), p.ops, o, i)
    ensures reply.Lost? || reply.Ambiguous?
            ==> StepAt(p.ops, o, i).state.RequestStarted? || StepAt(p.ops, o, i).state.Unknown?
    ensures old(p.script) == [] ==> p.script == [] && p.companion == old(p.companion)
    ensures old(p.script) == [] && !reply.Lost? ==>
              var v := VerdictOf(reply, ShownNow(old(p.companion), old(p.ops)[o].intent, i, epoch));
              Decided(old(p.ops), p.ops, o, i, v) && flow == (if v.Success? then Goes else Stops)
  {
    hide SystemOk, OpOk, Inv, ReadStep, NoEffectEver, Unsent, Onward, Decided, JournalOk, J.Legal;
    ghost var answered, own := p.companion, OwnIds(p.ops);
    match reply {
      case Lost => return Dies;
      case Ambiguous =>
        var ok := ToUnknown(p, o, i);
        return if ok then Stops else Dies;
      case Settled(state) =>
        if state.Unknown? {
          var ok := ToUnknown(p, o, i);
          return if ok then Stops else Dies;
        }
        var reading := p.ReadOne(o, i, epoch);
        if reading.Dead? { return Dies; }
        if state.Verified? {
          flow := Judge(p, o, i, reading);
        } else {
          FailedStays(answered, p.companion, p.net, own, p.ops, o, i);
          flow := JudgeRefusal(p, o, i, reading, "failed_before_write");
        }
      case Rejected(reason) =>
        var reading := p.ReadOne(o, i, epoch);
        if reading.Dead? { return Dies; }
        NoEffectStaysOnward(answered, p.companion, p.net, own, p.ops, o, i);
        flow := JudgeRefusal(p, o, i, reading, reason);
    }
  }

  /** What a read in the expected session shows of a step. */
  function ShownNow(c: Companion, intent: Intent, i: nat, epoch: Uuid): Option<Reading>
    requires i < |intent.steps|
  {
    if c.exec.Idle? && c.session == Some(Session(intent.lineage, epoch))
    then ReadStep(c.col, intent.pre, intent.steps[i]) else None
  }

  /** What an answer comes to over what the collection shows afterwards. */
  function VerdictOf(reply: Reply, shown: Option<Reading>): Verdict {
    if reply.Rejected? || (reply.Settled? && reply.state.FailedBeforeWrite?) then
      if shown == Some(Unchanged) then Failure else Doubt
    else if reply.Settled? && reply.state.Verified? then
      if shown.None? || shown.value.Unchanged? then Doubt else if shown.value.Expected? then Success else Mismatch
    else Doubt
  }

  lemma PlannedEffect(intent: Intent, i: nat)
    requires WellPlanned(intent) && i < |intent.steps|
    ensures !intent.steps[i].body.ExportCheckpoint?
  {}

  /** The undisturbed answer and the collection it leaves decide what the request comes to. */
  lemma AnswerComes(c: Companion, net: set<Request>, own: set<Id>, intent: Intent, i: nat, epoch: Uuid, owner: Owned,
                    d: Companion, reply: Reply)
    requires Inv(c) && i < |intent.steps| && KeyOf(intent, intent.steps[i]) !in c.ledger.rows
    requires !intent.steps[i].body.ExportCheckpoint?
    ensures Answers(c, RequestFor(intent, i, epoch, owner), net, own, d, reply) ==>
              && Left(c, d, intent, i, epoch, owner) && !reply.Lost?
              && Comes(c, intent, i, epoch, owner) == VerdictOf(reply, ShownNow(d, intent, i, epoch))
  {
    hide Inv, ReadStep, Accepts, Perform, ReadsBack, Served, QueueNew;
    var r := RequestFor(intent, i, epoch, owner);
    if c.exec.Idle? && SubmitCall(c, r).Ok? { ServedAny(c, net, own, r); }
  }

  /** The row says verified: only a matching read-back is a success. */
  method Judge(p: Client, o: Id, i: nat, reading: Answer<Reading>) returns (flow: Flow)
    requires p.Valid() && p.Has(o, i) && StepAt(p.ops, o, i).state.RequestStarted?
             && JournalOf(p.ops, o).state.Mutating?
    requires reading.Got? ==> p.companion.col in p.past
    requires reading.Got?
             ==> ReadStep(p.companion.col, p.ops[o].intent.pre, p.ops[o].intent.steps[i]) == Some(reading.value)
    modifies p`ops, p`script
    ensures p.Valid() && OwnIds(p.ops) == OwnIds(old(p.ops)) && SameOps(old(p.ops), p.ops, o) && p.Has(o, i)
    ensures flow.Goes? ==> JournalOf(p.ops, o).state.Mutating? && StepAt(p.ops, o, i).state.Verified?
                           && forall k | 0 <= k < |p.ops[o].intent.steps| && k != i ::
                              StepAt(p.ops, o, k) == StepAt(old(p.ops), o, k)
    ensures p.ops[o].receipt == old(p.ops)[o].receipt && StillOpen(old(p.ops), p.ops, o, i)
    ensures old(p.script) == [] ==> p.script == [] && (reading.Got? && reading.value.Expected? ==> flow.Goes?)
    ensures old(p.script) == [] ==>
              var v := if reading.Failed? || reading.Dead? || reading.value.Unchanged? then Doubt
                       else if reading.value.Expected? then Success else Mismatch;
              Decided(old(p.ops), p.ops, o, i, v) && flow == if v.Success? then Goes else Stops
    ensures flow.Stops? ==> p.ops != old(p.ops) && !StepAt(p.ops, o, i).state.RequestStarted?
  {
    hide SystemOk, OpOk, Inv, J.Legal, JournalOk, ReadStep;
    OpIs(p.companion, p.net, p.past, p.ops, o);
    if reading.Got? && reading.value.Expected? {
      ExpectedMatches(p.companion.col, p.ops[o].intent, i, reading.value);
      var ok := VerifyStep(p, o, i, reading.value.seen);
      return if ok then Goes else Dies;
    }
    if reading.Got? && reading.value.Different? {
      SucceededLegal(JournalOf(p.ops, o), i, reading.value.seen, J.NeedsRecovery);
      StepIs(p.companion.ledger, p.net, p.past, p.ops[o], i);
      var ok := Record(p, o, i, Succeeded(JournalOf(p.ops, o), i, reading.value.seen, J.NeedsRecovery));
      return if ok then Stops else Dies;
    }
    var ok := ToUnknown(p, o, i);
    return if ok then Stops else Dies;
  }

  /** A refusal is a failure without effect only while the collection still shows the precondition. */
  method JudgeRefusal(p: Client, o: Id, i: nat, reading: Answer<Reading>, reason: string) returns (flow: Flow)
    requires p.Valid() && p.Has(o, i) && StepAt(p.ops, o, i).state.RequestStarted?
             && JournalOf(p.ops, o).state.Mutating?
    requires NoEffectEver(p.companion.ledger, p.net, KeyOf(p.ops[o].intent, p.ops[o].intent.steps[i]))
    modifies p`ops, p`script
    ensures p.Valid() && OwnIds(p.ops) == OwnIds(old(p.ops)) && SameOps(old(p.ops), p.ops, o) && p.Has(o, i)
    ensures !flow.Goes? && p.ops[o].receipt == old(p.ops)[o].receipt
    ensures old(p.script) == [] ==> p.script == []
    ensures old(p.script) == [] ==>
              && flow.Stops?
              && Decided(old(p.ops), p.ops, o, i, if reading.Got? && reading.value.Unchanged? then Failure else Doubt)
    ensures flow.Stops? ==> p.ops != old(p.ops) && !StepAt(p.ops, o, i).state.RequestStarted?
  {
    hide SystemOk, OpOk, Inv, NoEffectEver, JournalOk;
    OpIs(p.companion, p.net, p.past, p.ops, o);
    RefusedCloses(p.ops, o, i, reason);
    var ok;
    if reading.Got? && reading.value.Unchanged? {
      ok := RecordFailure(p, o, i, reason);
    } else {
      ok := ToUnknown(p, o, i);
    }
    return if ok then Stops else Dies;
  }

  /** One turn of the driver's loop: journal the request, then send and judge it. */
  method DriveOne(p: Client, o: Id, i: nat, epoch: Uuid, owner: Owned) returns (flow: Flow)
    requires p.Valid() && p.Has(o, i) && StepAt(p.ops, o, i).state.IntentRecorded?
    requires CanDispatch(JournalOf(p.ops, o)) && VerifiedTo(JournalOf(p.ops, o), i)
    modifies p
    ensures p.Valid() && OwnIds(p.ops) == OwnIds(old(p.ops)) && SameOps(old(p.ops), p.ops, o) && p.Has(o, i)
    ensures old(p.past) <= p.past && p.ops[o].receipt == old(p.ops)[o].receipt
    ensures flow.Goes? ==> JournalOf(p.ops, o).state.Mutating? && VerifiedTo(JournalOf(p.ops, o), i + 1)
                           && forall k | i < k < |p.ops[o].intent.steps| ::
                              StepAt(p.ops, o, k) == StepAt(old(p.ops), o, k)
    ensures old(p.script) == [] ==> p.script == []
    ensures var intent := old(p.ops)[o].intent;
            old(p.script) == [] && Calm(old(p.companion), intent, epoch, owner)
                && Ready(old(p.companion).col, intent, i) ==>
              && flow.Goes? && Calm(p.companion, intent, epoch, owner)
              && Took(old(p.companion), p.companion, intent, i)
    ensures var intent, c := old(p.ops)[o].intent, old(p.companion);
            p.cutsOnly && Calm(c, intent, epoch, owner) && Ready(c.col, intent, i)
                && OnlyIntents(JournalOf(old(p.ops), o), i) ==>
              if flow.Goes? then Calm(p.companion, intent, epoch, owner) && Took(c, p.companion, intent, i)
              else CutIn(c, p.companion, intent, JournalOf(p.ops, o), epoch, i)
    ensures var intent, c := old(p.ops)[o].intent, old(p.companion);
            var v := Comes(c, intent, i, epoch, owner);
            old(p.script) == [] ==>
              && Decided(old(p.ops), p.ops, o, i, v) && flow == (if v.Success? then Goes else Stops)
              && Left(c, p.companion, intent, i, epoch, owner)
  {
    hide SystemOk, OpOk, Inv, Calm, Ready, Accepts, Perform, Unsent, Took, Resting, Interrupted, Unreached, Comes, Left,
         Decided;
    ghost var c, intent := p.companion, p.ops[o].intent;
    CalmIsResting(c, intent, epoch, owner);
    var ok := StartStep(p, o, i);
    if !ok {
      if OnlyIntents(JournalOf(p.ops, o), i) { FreshIsPaused(c.ledger, intent, JournalOf(p.ops, o), i); }
      return Dies;
    }
    ghost var started := p.ops;
    UnsentNoRow(c.ledger, p.net, intent, i);
    flow := Dispatch(p, o, i, epoch, owner);
    if old(p.script) == [] {
      DecidedSince(old(p.ops), started, p.ops, o, i, Comes(c, intent, i, epoch, owner));
    }
    if flow.Goes? {
      forall k | 0 <= k < |p.ops[o].intent.steps| && k != i ensures StepAt(p.ops, o, k) == StepAt(old(p.ops), o, k) {
        assert StepAt(p.ops, o, k) == StepAt(started, o, k);
      }
      forall k | 0 <= k < i + 1 ensures JournalOf(p.ops, o).steps[k].state.Verified? {
        if k < i {
          assert StepAt(p.ops, o, k) == StepAt(old(p.ops), o, k);
        } else {
          assert StepAt(p.ops, o, i).state.Verified?;
        }
      }
    } else if p.cutsOnly && Calm(c, intent, epoch, owner) && Ready(c.col, intent, i)
              && OnlyIntents(JournalOf(old(p.ops), o), i) {
      OpenIsPaused(p.companion.ledger, started, p.ops, o, i);
    }
  }

  /** An owner at hand, and an intent on track of which nothing was sent. */
  ghost predicate Untouched(p: Client, o: Id, epoch: Uuid, owner: Owned)
    reads p
  {
    && o in p.ops && p.ops[o].journal.Some? && |p.ops[o].journal.value.steps| == |p.ops[o].intent.steps|
    && J.NothingSent(p.ops[o].journal.value.steps)
    && Calm(p.companion, p.ops[o].intent, epoch, owner) && OnTrack(p.companion.col, p.ops[o].intent, 0)
  }

  /** The loop's progress from there. */
  ghost predicate Carries(p: Client, o: Id, intent: Intent, start: Companion, epoch: Uuid, owner: Owned, i: nat)
    reads p
  {
    && o in p.ops && p.ops[o].journal.Some? && i <= |intent.steps| == |p.ops[o].journal.value.steps|
    && p.ops[o].intent == intent && Calm(p.companion, intent, epoch, owner) && OnTrack(p.companion.col, intent, i)
    && Executed(start, p.companion, intent, 0, i) && OnlyIntents(p.ops[o].journal.value, i)
  }

  lemma UntouchedStarts(p: Client, o: Id, epoch: Uuid, owner: Owned)
    requires o in p.ops && Executed(p.companion, p.companion, p.ops[o].intent, 0, 0)
    ensures Untouched(p, o, epoch, owner) ==> Carries(p, o, p.ops[o].intent, p.companion, epoch, owner, 0)
  {
    hide Calm, OnTrack, Executed;
  }

  /** Execute the remaining steps in order; anything but a verified or a fresh step stops it. */
  method Drive(p: Client, o: Id, epoch: Uuid, owner: Owned) returns (flow: Flow)
    requires p.Valid() && o in p.ops && p.ops[o].journal.Some? && CanDispatch(JournalOf(p.ops, o))
    modifies p
    ensures p.Valid() && OwnIds(p.ops) == OwnIds(old(p.ops)) && SameOps(old(p.ops), p.ops, o)
    ensures old(p.past) <= p.past && p.ops[o].receipt == old(p.ops)[o].receipt
    ensures flow.Goes? ==> J.AllVerified(JournalOf(p.ops, o).steps) && CanDispatch(JournalOf(p.ops, o))
    ensures old(p.script) == [] ==> p.script == []
    ensures old(p.script) == [] && old(Untouched(p, o, epoch, owner)) ==> flow.Goes?
    ensures (p.cutsOnly || old(p.script) == []) && old(Untouched(p, o, epoch, owner)) ==>
              var intent := old(p.ops)[o].intent;
              if flow.Goes?
              then && Calm(p.companion, intent, epoch, owner) && OnTrack(p.companion.col, intent, |intent.steps|)
                   && Executed(old(p.companion), p.companion, intent, 0, |intent.steps|)
              else CutOff(p.ops[o], old(p.companion), p.companion, epoch)
  {
    hide SystemOk, OpOk, Inv, Calm, Ready, Accepts, Perform, JournalOk, Executed, Comes, Left, Decided;
    ghost var intent, start := p.ops[o].intent, p.companion;
    ghost var smooth := (p.cutsOnly || p.script == []) && Untouched(p, o, epoch, owner);
    OpIs(p.companion, p.net, p.past, p.ops, o);
    NoneExecuted(p.companion, intent, 0);
    UntouchedStarts(p, o, epoch, owner);
    for i := 0 to |p.ops[o].intent.steps|
      invariant p.Valid() && OwnIds(p.ops) == OwnIds(old(p.ops)) && SameOps(old(p.ops), p.ops, o)
      invariant old(p.past) <= p.past && p.ops[o].receipt == old(p.ops)[o].receipt
      invariant |JournalOf(p.ops, o).steps| == |intent.steps| && CanDispatch(JournalOf(p.ops, o))
                && VerifiedTo(JournalOf(p.ops, o), i)
      invariant old(p.script) == [] ==> p.script == []
      invariant smooth ==> Carries(p, o, intent, start, epoch, owner, i)
    {
      var state := StepAt(p.ops, o, i).state;
      if !state.Verified? {
        if !state.IntentRecorded? { return Stops; }
        ghost var before, ops := p.companion, p.ops;
        flow := DriveOne(p, o, i, epoch, owner);
        if !flow.Goes? {
          if smooth { CutIsCutOff(p.ops[o], start, before, p.companion, epoch, i); }
          return;
        }
        if smooth {
          ExecutedOneMore(start, before, p.companion, intent, 0, i);
          forall k | i < k < |intent.steps| ensures JournalOf(p.ops, o).steps[k].state.IntentRecorded? {
            assert StepAt(p.ops, o, k) == StepAt(ops, o, k);
          }
        }
      }
    }
    return Goes;
  }

  /** The open session shows the state the last step expects. */
  predicate EndsWell(c: Companion, intent: Intent, epoch: Uuid) {
    && c.exec.Idle? && c.session == Some(Session(intent.lineage, epoch)) && intent.steps != []
    && FinalRead(c.col, intent) == Some(intent.steps[|intent.steps| - 1].expected)
  }

  /** The open session shows another state than the last step expects. */
  predicate EndsApart(c: Companion, intent: Intent, epoch: Uuid) {
    && c.exec.Idle? && c.session == Some(Session(intent.lineage, epoch)) && intent.steps != []
    && FinalRead(c.col, intent).Some? && FinalRead(c.col, intent) != Some(intent.steps[|intent.steps| - 1].expected)
  }

  /** Save the receipt of a matching final read-back, then commit.  A saved receipt is reused.  A read-back
      that differs is recorded for review instead. */
  method Commit(p: Client, o: Id, epoch: Uuid) returns (flow: Flow)
    requires p.Valid() && o in p.ops && p.ops[o].journal.Some? && JournalOf(p.ops, o).steps != []
    requires J.AllVerified(JournalOf(p.ops, o).steps)
    requires JournalOf(p.ops, o).state in {J.Mutating, J.Verifying, J.NeedsRecovery}
    modifies p
    ensures p.Valid() && OwnIds(p.ops) == OwnIds(old(p.ops)) && SameOps(old(p.ops), p.ops, o)
    ensures old(p.past) <= p.past && JournalOf(p.ops, o).steps == JournalOf(old(p.ops), o).steps
    ensures flow.Goes? <==> JournalOf(p.ops, o).state.Committed?
    ensures p.net == old(p.net) && (flow.Goes? || !J.Terminal(JournalOf(p.ops, o).state))
    ensures p.cutsOnly ==> p.companion == old(p.companion)
    ensures old(p.script) == [] ==> p.script == [] && p.companion == old(p.companion)
    ensures old(p.script) == [] ==> (flow.Goes? <==> EndsWell(p.companion, p.ops[o].intent, epoch))
    ensures old(p.script) == [] && EndsApart(p.companion, p.ops[o].intent, epoch)
            ==> JournalOf(p.ops, o).state.NeedsRecovery?
    ensures old(p.script) == [] ==>
              (p.ops != old(p.ops) <==> EndsWell(p.companion, p.ops[o].intent, epoch)
                                        || (EndsApart(p.companion, p.ops[o].intent, epoch)
                                            && !JournalOf(old(p.ops), o).state.NeedsRecovery?))
  {
    hide SystemOk, OpOk, Inv, FinalRead, JournalOk, Onward, J.Legal;
    OpIs(p.companion, p.net, p.past, p.ops, o);
    var intent := p.ops[o].intent;
    var expected := intent.steps[|intent.steps| - 1].expected;
    var seen := p.Look(intent.lineage, epoch);
    if !seen.Got? { return Dies; }
    var final := FinalRead(seen.value, intent);
    if final.None? { return Dies; }
    if final.value != expected {
      var ok := ChangeState(p, o, J.NeedsRecovery);
      return if ok then Stops else Dies;
    }
    var ok := ChangeState(p, o, J.Verifying);
    if !ok { return Dies; }
    ok := Conclude(p, o);
    return if ok then Goes else Dies;
  }

  /** The receipt before the commit; one that is already saved names this same post-state. */
  method Conclude(p: Client, o: Id) returns (ok: bool)
    requires p.Valid() && o in p.ops && p.ops[o].journal.Some? && JournalOf(p.ops, o).state.Verifying?
    requires J.AllVerified(JournalOf(p.ops, o).steps) && p.ops[o].intent.steps != [] && p.companion.col in p.past
    requires FinalRead(p.companion.col, p.ops[o].intent)
             == Some(p.ops[o].intent.steps[|p.ops[o].intent.steps| - 1].expected)
    modifies p`ops, p`script
    ensures p.Valid() && OwnIds(p.ops) == OwnIds(old(p.ops)) && SameOps(old(p.ops), p.ops, o)
    ensures JournalOf(p.ops, o).steps == JournalOf(old(p.ops), o).steps
            && JournalOf(p.ops, o).state == if ok then J.Committed else J.Verifying
    ensures ok ==> p.ops[o].receipt.Some?
    ensures old(p.script) == [] ==> ok && p.script == []
  {
    hide SystemOk, OpOk, Inv, FinalRead, JournalOk, J.Legal;
    ok := true;
    if p.ops[o].receipt.None? {
      ReceiptOk(p.companion.ledger, p.net, p.past, p.companion.col, p.ops, o, p.companion);
      ok := p.SaveReceipt(o, p.ops[o].intent.steps[|p.ops[o].intent.steps| - 1].expected);
    }
    if ok { ok := ChangeState(p, o, J.Committed); }
  }

  lemma ReceiptOk(l: Ledger, net: set<Request>, past: set<Collection>, col: Collection, ops: Operations, o: Id,
                  c: Companion)
    requires SystemOk(c, net, past, ops) && o in ops && l == c.ledger && col in past && ops[o].intent.steps != []
    requires FinalRead(col, ops[o].intent) == Some(ops[o].intent.steps[|ops[o].intent.steps| - 1].expected)
    ensures OpOk(l, net, past, ops[o].(receipt := Some(ops[o].intent.steps[|ops[o].intent.steps| - 1].expected)))
  {
    hide StepOk, Bound, JournalOk, FinalRead, Inv;
    assert OpOk(l, net, past, ops[o]);
  }

  lemma UnsentNoRow(l: Ledger, net: set<Request>, intent: Intent, i: nat)
    requires i < |intent.steps| && Unsent(l, net, intent.steps[i].id)
    ensures KeyOf(intent, intent.steps[i]) !in l.rows
  {}

  lemma ServedIsReady(c: Companion, net: set<Request>, own: set<Id>, intent: Intent, i: nat, epoch: Uuid, owner: Owned)
    requires Inv(c) && i < |intent.steps| && KeyOf(intent, intent.steps[i]) !in c.ledger.rows
    ensures Calm(c, intent, epoch, owner) && Ready(c.col, intent, i) ==>
              var d := Served(c, RequestFor(intent, i, epoch, owner), net, own);
              && Calm(d, intent, epoch, owner) && d.exec.Idle? && d.session == Some(Session(intent.lineage, epoch))
              && Took(c, d, intent, i)
              && ReadStep(d.col, intent.pre, intent.steps[i]) == Some(Expected(intent.steps[i].expected))
  {
    hide Inv, ReadStep, Accepts, Perform, ReadsBack, Served;
    if Calm(c, intent, epoch, owner) && Ready(c.col, intent, i) {
      ReadyAccepts(c.col, intent, i);
      ServedCalm(c, net, own, intent, i, epoch, owner);
    }
  }

  lemma ExpectedMatches(col: Collection, intent: Intent, i: nat, reading: Reading)
    requires i < |intent.steps| && ReadStep(col, intent.pre, intent.steps[i]) == Some(reading) && reading.Expected?
    ensures reading.seen == intent.steps[i].expected
  {}

  lemma NoEffectStaysOnward(a: Companion, b: Companion, net: set<Request>, own: set<Id>, ops: Operations, o: Id, i: nat)
    requires Onward(a, b, net, own) && own == OwnIds(ops) && o in ops && i < |ops[o].intent.steps|
    ensures var key := KeyOf(ops[o].intent, ops[o].intent.steps[i]);
            NoEffectEver(a.ledger, net, key) ==> NoEffectEver(b.ledger, net, key)
  {
    hide Inv;
    OwnsIds(ops, o);
    assert ops[o].intent.steps[i].id in Ids(ops[o].intent);
    var key := KeyOf(ops[o].intent, ops[o].intent.steps[i]);
    if NoEffectEver(a.ledger, net, key) { NoEffectStays(a.ledger, b.ledger, net, own, key); }
  }

  lemma FailedStays(a: Companion, b: Companion, net: set<Request>, own: set<Id>, ops: Operations, o: Id, i: nat)
    requires Onward(a, b, net, own) && own == OwnIds(ops) && o in ops && i < |ops[o].intent.steps|
    requires System.Failed(a.ledger, KeyOf(ops[o].intent, ops[o].intent.steps[i]))
    ensures NoEffectEver(b.ledger, net, KeyOf(ops[o].intent, ops[o].intent.steps[i]))
  {
    NoEffectStaysOnward(a, b, net, own, ops, o, i);
  }
}
