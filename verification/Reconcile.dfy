/** Recovery after a crash: classify each unverified step from the native row and a read-back, and adopt,
    record, resubmit, dispatch or stop. */
module Reconcile {
  import opened Wrappers
  import opened Anki
  import opened Effects
  import opened Readback
  import opened Ledger
  import opened LedgerLaws
  import opened Companion
  import opened CompanionLaws
  import opened System
  import opened Moves
  import opened Serving
  import opened Client
  import opened Driver
  import opened Planning
  import J = Journal

  datatype Action = AlreadyMatching | Send | HumanReview | Wait | Adopt | RecordFailed | Resubmit

  /** `status` is absent for a step that was never started, else the row's state, if there is a row. */
  function Classify(state: J.StepState, status: Option<Option<State>>, reading: Reading, trusted: bool): Action {
    match status
    case None => (match reading case Expected(_) => AlreadyMatching case Unchanged => Send case Different(_) =>
                  HumanReview)
    case Some(row) =>
      if row.Some? && InFlight(row.value) then Wait
      else match reading
           case Expected(_) => Adopt
           case Unchanged =>
             if !(state.RequestStarted? || state.Unknown?) then HumanReview
             else if row.Some? && row.value.FailedBeforeWrite? then RecordFailed
             else if row.None? && trusted then Resubmit
             else HumanReview
           case Different(_) => HumanReview
  }

  /** What the port answers about a row. */
  function RowState(l: Ledger, key: Key): Option<State> {
    if key in l.rows then Some(Status(l.rows[key])) else None
  }

  ghost predicate NoEntry(log: seq<Entry>, id: Id) {
    forall e <- log :: e.key.id != id
  }

  /** The row was asked for in `asked` and the collection read in `c`, with anything in between.  A step is
      adopted only when its expected state was seen, declared a failure only when its effect was not and can
      not be made, sent or sent again only when it had no effect by then, and waited for only while its row is
      in flight. */
  lemma RecoveryIsJustified(asked: Companion, c: Companion, net: set<Request>, past: set<Collection>, ops: Operations,
                            o: Id,
                            i: nat, reading: Reading, trusted: bool)
    requires SystemOk(asked, net, past, ops) && SystemOk(c, net, past, ops) && Onward(asked, c, net, OwnIds(ops))
    requires o in ops && ops[o].journal.Some? && i < |ops[o].intent.steps| == |ops[o].journal.value.steps|
    requires ReadStep(c.col, ops[o].intent.pre, ops[o].intent.steps[i]) == Some(reading)
    ensures var intent, s := ops[o].intent, ops[o].intent.steps[i];
            var key, state := KeyOf(intent, s), ops[o].journal.value.steps[i].state;
            var row := RowState(asked.ledger, key);
            var action := Classify(state, if state.IntentRecorded? then None else Some(row), reading, trusted);
            && (action.Adopt? ==> Witnessed(past + {c.col}, intent, s))
            && (action.RecordFailed? ==> NoEffectEver(c.ledger, net, key) && NoEntry(c.log, s.id))
            && (action.Resubmit? ==> trusted && row.None? && NoEntry(asked.log, s.id))
            && (action.Send? ==> Unsent(c.ledger, net, s.id) && NoEntry(c.log, s.id))
            && (action.Wait? <==> !state.IntentRecorded? && row.Some? && InFlight(row.value))
  {
    hide Inv, ReadStep, JournalOk, Onward, NoEffectEver, Unsent, FinallyWitnessed, WellPlanned;
    var intent, s := ops[o].intent, ops[o].intent.steps[i];
    var key, state := KeyOf(intent, s), ops[o].journal.value.steps[i].state;
    var row := RowState(asked.ledger, key);
    assert StepOk(c.ledger, net, past, intent, s, ops[o].journal.value.steps[i]);
    assert s in intent.steps && Bound(c.ledger, net, intent, s) && Bound(asked.ledger, net, intent, s);
    NoEffectStaysOnward(asked, c, net, OwnIds(ops), ops, o, i);
    hide OpOk, Bound;
    match Classify(state, if state.IntentRecorded? then None else Some(row), reading, trusted) {
      case Adopt =>
        SeenIsExpected(c.col, intent, s, reading);
        assert c.col in past + {c.col};
      case RecordFailed =>
        FailedNoEffect(asked.ledger, net, key);
        NoEntryOfKey(c, net, intent, s);
      case Resubmit =>
        assert key !in asked.ledger.rows;
        NoRowNoEntry(asked, net, intent, s);
      case Send => UnsentNoEntry(c, net, s.id);
      case _ =>
    }
  }

  lemma SeenIsExpected(col: Collection, intent: Intent, s: IntentStep, reading: Reading)
    requires ReadStep(col, intent.pre, s) == Some(reading) && reading.Expected?
    ensures reading == Expected(s.expected)
  {}

  lemma NoEntryOfKey(c: Companion, net: set<Request>, intent: Intent, s: IntentStep)
    requires Inv(c) && Bound(c.ledger, net, intent, s) && NoEffectEver(c.ledger, net, KeyOf(intent, s))
    ensures NoEntry(c.log, s.id)
  {
    hide Inv, Bound, NoEffectEver;
    NoEffectNoEntry(c, net, KeyOf(intent, s));
    forall e <- c.log ensures e.key.id != s.id {
      if e.key.id == s.id { OwnEntry(c, net, intent, s, e); }
    }
  }

  lemma NoRowNoEntry(c: Companion, net: set<Request>, intent: Intent, s: IntentStep)
    requires Inv(c) && Bound(c.ledger, net, intent, s) && KeyOf(intent, s) !in c.ledger.rows
    ensures NoEntry(c.log, s.id)
  {
    hide Bound;
    forall e <- c.log ensures e.key.id != s.id {
      assert Genuine(c.ledger, c.exec, e);
      if e.key.id == s.id { OwnEntry(c, net, intent, s, e); }
    }
  }

  predicate Finished(j: J.Journal) {
    j.state in {J.Mutating, J.Verifying, J.NeedsRecovery}
  }

  /** The later steps and the earlier ones stay. */
  ghost predicate Advanced(before: Operations, after: Operations, o: Id, i: nat) {
    && SameOps(before, after, o) && after[o].receipt == before[o].receipt
    && |after[o].journal.value.steps| == |before[o].journal.value.steps| == |before[o].intent.steps|
    && i < |before[o].intent.steps|
    && VerifiedTo(after[o].journal.value, i + 1) && Finished(after[o].journal.value)
    && forall k | i < k < |before[o].intent.steps| ::
       after[o].journal.value.steps[k] == before[o].journal.value.steps[k]
  }

  /** Nothing is decided: a step in flight is recorded as unknown, anything else stays. */
  ghost predicate Held(a: Operations, b: Operations, o: Id, i: nat) {
    && SameOps(a, b, o) && i < |JournalOf(a, o).steps|
    && if StepAt(a, o, i).state.RequestStarted? then Decided(a, b, o, i, Doubt) else b == a
  }

  /** What an undisturbed reconcile makes of its first unresolved step, from the row and the collection as they
      are.  A step that was never started is sent when its precondition shows; one that was started is adopted
      when its expectation shows, waited for while its row is in flight, recorded as a failure when the row
      says so and the precondition shows, and sent again when no row ever reached the ledger.  Anything else is
      left to a human. */
  ghost predicate Resolved(a: Operations, b: Operations, o: Id, i: nat, c: Companion, d: Companion, epoch: Uuid,
                           owner: Owned, trusted: bool, flow: Flow)
    requires o in a && a[o].journal.Some? && i < |a[o].intent.steps| == |JournalOf(a, o).steps|
  {
    var intent, state := a[o].intent, StepAt(a, o, i).state;
    var shown := ShownNow(c, intent, i, epoch);
    var row, v := RowState(c.ledger, KeyOf(intent, intent.steps[i])), Comes(c, intent, i, epoch, owner);
    if shown.None? then flow.Dies? && b == a && d == c
    else if state.IntentRecorded? then
      if !shown.value.Unchanged? then flow.Stops? && b == a && d == c
      else if CanDispatch(JournalOf(a, o)) then
        && Decided(a, b, o, i, v) && flow == (if v.Success? then Goes else Stops)
        && Left(c, d, intent, i, epoch, owner)
      else flow.Stops? && d == c && b == a[o := WithJournal(a[o], InState(JournalOf(a, o), J.FailedBeforeWrite))]
    else if row.Some? && InFlight(row.value) then flow.Stops? && Held(a, b, o, i) && d == c
    else if shown.value.Expected? then flow.Goes? && Advanced(a, b, o, i) && d == c
    else if shown.value.Different? || state.ObservedSuccess? then flow.Stops? && Held(a, b, o, i) && d == c
    else if row.Some? && row.value.FailedBeforeWrite? then flow.Stops? && Decided(a, b, o, i, Failure) && d == c
    else if row.None? && trusted then
      && Left(c, d, intent, i, epoch, owner)
      && if v.Success? then flow.Goes? && Advanced(a, b, o, i) else flow.Stops? && Decided(a, b, o, i, Doubt)
    else flow.Stops? && Held(a, b, o, i) && d == c
  }

  /** A request that started without an outcome becomes unknown before anything else happens. */
  method MarkUnknownIfStarted(p: Client, o: Id, i: nat) returns (ok: bool)
    requires p.Valid() && p.Has(o, i) && !J.Terminal(JournalOf(p.ops, o).state)
    requires !StepAt(p.ops, o, i).state.Verified? && !StepAt(p.ops, o, i).state.ObservedFailure?
    modifies p`ops, p`script
    ensures p.Valid() && OwnIds(p.ops) == OwnIds(old(p.ops)) && SameOps(old(p.ops), p.ops, o) && p.Has(o, i)
    ensures p.ops[o].receipt == old(p.ops)[o].receipt && !J.Terminal(JournalOf(p.ops, o).state)
    ensures !StepAt(old(p.ops), o, i).state.RequestStarted? ==> ok && p.ops == old(p.ops)
    ensures ok ==> (if StepAt(old(p.ops), o, i).state.RequestStarted? then StepAt(p.ops, o, i).state.Unknown?
                    else p.ops == old(p.ops))
                   && JournalOf(p.ops, o).steps == JournalOf(old(p.ops), o).steps[i := StepAt(p.ops, o, i)]
    ensures old(p.script) == [] ==> ok && p.script == [] && Held(old(p.ops), p.ops, o, i)
  {
    hide SystemOk, OpOk, Inv;
    ok := true;
    if StepAt(p.ops, o, i).state.RequestStarted? { ok := ToUnknown(p, o, i); }
  }

  /** A matching read-back of a started step is adopted, whatever the row says once it is not in flight. */
  method AdoptStep(p: Client, o: Id, i: nat, seen: Seen) returns (flow: Flow)
    requires p.Valid() && p.Has(o, i) && !J.Terminal(JournalOf(p.ops, o).state) && VerifiedTo(JournalOf(p.ops, o), i)
    requires var s := StepAt(p.ops, o, i).state; s.RequestStarted? || s.ObservedSuccess? || s.Unknown?
    requires p.companion.col in p.past && seen == p.ops[o].intent.steps[i].expected
    requires ReadStep(p.companion.col, p.ops[o].intent.pre, p.ops[o].intent.steps[i]) == Some(Expected(seen))
    modifies p`ops, p`script
    ensures p.Valid() && OwnIds(p.ops) == OwnIds(old(p.ops)) && SameOps(old(p.ops), p.ops, o)
    ensures flow.Goes? ==> Advanced(old(p.ops), p.ops, o, i)
    ensures old(p.script) == [] ==> flow.Goes? && p.script == []
  {
    hide SystemOk, OpOk, Inv, ReadStep, JournalOk;
    var ok := MarkUnknownIfStarted(p, o, i);
    if !ok { return Dies; }
    ghost var marked := p.ops;
    ok := VerifyStep(p, o, i, seen);
    if !ok { return Dies; }
    OpIs(p.companion, p.net, p.past, p.ops, o);
    NotFresh(JournalOf(p.ops, o), i);
    forall k | 0 <= k < |p.ops[o].intent.steps| && k != i ensures StepAt(p.ops, o, k) == StepAt(old(p.ops), o, k) {
      assert StepAt(marked, o, k) == JournalOf(marked, o).steps[k];
    }
    ghost var j := JournalOf(p.ops, o);
    forall k | 0 <= k < i + 1 ensures j.steps[k].state.Verified? {
      if k < i { assert j.steps[k] == StepAt(old(p.ops), o, k); } else { assert StepAt(p.ops, o, i).state.Verified?; }
    }
    forall k | i < k < |j.steps| ensures j.steps[k] == JournalOf(old(p.ops), o).steps[k] {
      assert j.steps[k] == StepAt(old(p.ops), o, k);
    }
    return Goes;
  }

  lemma NotFresh(j: J.Journal, i: nat)
    requires JournalOk(j) && i < |j.steps| && !j.steps[i].state.IntentRecorded? && !J.Terminal(j.state)
    ensures Finished(j)
  {
    assert j.steps[i] in j.steps;
  }

  /** The same request again: the ledger answers a known identifier with its row and never repeats it. */
  method ResubmitStep(p: Client, o: Id, i: nat, epoch: Uuid, owner: Owned) returns (flow: Flow)
    requires p.Valid() && p.Has(o, i) && !J.Terminal(JournalOf(p.ops, o).state) && VerifiedTo(JournalOf(p.ops, o), i)
    requires var s := StepAt(p.ops, o, i).state; s.RequestStarted? || s.Unknown?
    modifies p
    ensures p.Valid() && OwnIds(p.ops) == OwnIds(old(p.ops)) && SameOps(old(p.ops), p.ops, o) && old(p.past) <= p.past
    ensures flow.Goes? ==> Advanced(old(p.ops), p.ops, o, i)
    ensures old(p.script) == [] ==> p.script == []
    ensures var intent := old(p.ops)[o].intent;
            (old(p.script) == [] && Calm(old(p.companion), intent, epoch, owner)
             && Ready(old(p.companion).col, intent, i)
             && KeyOf(intent, intent.steps[i]) !in old(p.companion).ledger.rows) ==>
              && flow.Goes? && Calm(p.companion, intent, epoch, owner)
              && Took(old(p.companion), p.companion, intent, i)
    ensures var intent, c := old(p.ops)[o].intent, old(p.companion);
            old(p.script) == [] && KeyOf(intent, intent.steps[i]) !in c.ledger.rows ==>
              && Left(c, p.companion, intent, i, epoch, owner)
              && if Comes(c, intent, i, epoch, owner).Success? then flow.Goes?
                 else flow.Stops? && Decided(old(p.ops), p.ops, o, i, Doubt)
  {
    hide SystemOk, OpOk, Inv, ReadStep, JournalOk, Onward, Calm, Ready, Unsent, NoEffectEver, J.Legal, Advanced, Served,
         Perform, Comes, Left, Decided;
    var ok := MarkUnknownIfStarted(p, o, i);
    if !ok { return Dies; }
    ghost var marked := p.ops;
    OpIs(p.companion, p.net, p.past, p.ops, o);
    SameIsLegal(p.companion.ledger, p.net, p.past, p.ops[o]);
    ok := p.Advance(o, JournalOf(p.ops, o));
    if !ok { return Dies; }
    assert p.ops == marked && VerifiedTo(JournalOf(marked, o), i);
    flow := SendAgain(p, o, i, epoch, owner);
    if flow.Goes? { AdvancedFromMarked(old(p.ops), marked, p.ops, o, i); }
    DecidedFromMarked(old(p.ops), marked, p.ops, o, i);
  }

  /** The request itself, and the one outcome that counts: a verified row and a matching read-back. */
  method SendAgain(p: Client, o: Id, i: nat, epoch: Uuid, owner: Owned) returns (flow: Flow)
    requires p.Valid() && p.Has(o, i) && !J.Terminal(JournalOf(p.ops, o).state) && VerifiedTo(JournalOf(p.ops, o), i)
    requires StepAt(p.ops, o, i).state.Unknown?
    modifies p
    ensures p.Valid() && OwnIds(p.ops) == OwnIds(old(p.ops)) && SameOps(old(p.ops), p.ops, o) && old(p.past) <= p.past
    ensures flow.Goes? ==> Advanced(old(p.ops), p.ops, o, i)
    ensures old(p.script) == [] ==> p.script == []
    ensures var intent := old(p.ops)[o].intent;
            (old(p.script) == [] && Calm(old(p.companion), intent, epoch, owner)
             && Ready(old(p.companion).col, intent, i)
             && KeyOf(intent, intent.steps[i]) !in old(p.companion).ledger.rows) ==>
              && flow.Goes? && Calm(p.companion, intent, epoch, owner)
              && Took(old(p.companion), p.companion, intent, i)
    ensures var intent, c := old(p.ops)[o].intent, old(p.companion);
            old(p.script) == [] && KeyOf(intent, intent.steps[i]) !in c.ledger.rows ==>
              && Left(c, p.companion, intent, i, epoch, owner)
              && if Comes(c, intent, i, epoch, owner).Success? then flow.Goes?
                 else flow.Stops? && Decided(old(p.ops), p.ops, o, i, Doubt)
  {
    hide SystemOk, OpOk, Inv, ReadStep, JournalOk, Onward, Calm, Ready, Unsent, NoEffectEver, J.Legal, Advanced, Served,
         Perform, Comes, Left, Answers, SubmitCall, WellPlanned;
    ghost var start, intent := p.companion, p.ops[o].intent;
    SystemInv(start, p.net, p.past, p.ops);
    OpIs(start, p.net, p.past, p.ops, o);
    PlannedEffect(intent, i);
    var reply := p.Mutate(o, i, epoch, owner);
    if old(p.script) == [] && KeyOf(intent, intent.steps[i]) !in start.ledger.rows {
      ServedIsReady(start, p.net, OwnIds(p.ops), intent, i, epoch, owner);
    }
    if KeyOf(intent, intent.steps[i]) !in start.ledger.rows {
      AnswerComes(start, p.net, OwnIds(p.ops), intent, i, epoch, owner, p.companion, reply);
    }
    if reply.Lost? { return Dies; }
    var reading := p.ReadOne(o, i, epoch);
    if reading.Dead? { return Dies; }
    if reply.Settled? && reply.state.Verified? && reading.Got? && reading.value.Expected? {
      ExpectedMatches(p.companion.col, p.ops[o].intent, i, reading.value);
      flow := AdoptStep(p, o, i, reading.value.seen);
      return;
    }
    OpIs(p.companion, p.net, p.past, p.ops, o);
    UnknownState(p.companion.ledger, p.net, p.past, p.ops[o], i);
    var ok := ChangeState(p, o, J.NeedsRecovery);
    return if ok then Stops else Dies;
  }

  lemma DecidedFromMarked(a: Operations, b: Operations, c: Operations, o: Id, i: nat)
    requires SameOps(a, b, o) && b[o].receipt == a[o].receipt
             && |b[o].journal.value.steps| == |a[o].journal.value.steps|
    requires forall k | 0 <= k < |b[o].journal.value.steps| && k != i ::
             b[o].journal.value.steps[k] == a[o].journal.value.steps[k]
    ensures Decided(b, c, o, i, Doubt) ==> Decided(a, c, o, i, Doubt)
  {
    if Decided(b, c, o, i, Doubt) {
      forall k | 0 <= k < |a[o].journal.value.steps| && k != i ensures StepAt(c, o, k) == StepAt(a, o, k) {
        assert StepAt(c, o, k) == StepAt(b, o, k);
      }
    }
  }

  lemma AdvancedFromMarked(a: Operations, b: Operations, c: Operations, o: Id, i: nat)
    requires SameOps(a, b, o) && b[o].receipt == a[o].receipt
             && |b[o].journal.value.steps| == |a[o].journal.value.steps|
    requires Advanced(b, c, o, i)
    requires forall k | 0 <= k < |b[o].journal.value.steps| && k != i ::
             b[o].journal.value.steps[k] == a[o].journal.value.steps[k]
    ensures Advanced(a, c, o, i)
  {}

  lemma SameIsLegal(l: Ledger, net: set<Request>, past: set<Collection>, op: Operation)
    requires OpOk(l, net, past, op) && op.journal.Some? && !J.Terminal(op.journal.value.state)
             && JournalOk(op.journal.value)
    ensures J.Legal(op.journal.value, op.journal.value) && WithJournal(op, op.journal.value) == op
  {
    hide StepOk, Bound, OpOk;
    var j := op.journal.value;
    assert j.steps[|j.steps|..] == [];
  }

  lemma UnknownState(l: Ledger, net: set<Request>, past: set<Collection>, op: Operation, i: nat)
    requires OpOk(l, net, past, op) && op.journal.Some? && i < |op.journal.value.steps|
             && op.journal.value.steps[i].state.Unknown?
    ensures op.journal.value.state.NeedsRecovery?
  {
    hide StepOk, Bound;
    assert op.journal.value.steps[i] in op.journal.value.steps;
  }

  /** A step that was never started is sent from the state the driver would send it from; an operation that
      never reached its checkpointed state is closed instead. */
  method SendStep(p: Client, o: Id, i: nat, epoch: Uuid, owner: Owned) returns (flow: Flow)
    requires p.Valid() && p.Has(o, i) && !J.Terminal(JournalOf(p.ops, o).state) && VerifiedTo(JournalOf(p.ops, o), i)
    requires StepAt(p.ops, o, i).state.IntentRecorded?
    modifies p
    ensures p.Valid() && OwnIds(p.ops) == OwnIds(old(p.ops)) && SameOps(old(p.ops), p.ops, o) && old(p.past) <= p.past
    ensures flow.Goes? ==> Advanced(old(p.ops), p.ops, o, i)
    ensures !CanDispatch(JournalOf(old(p.ops), o))
            ==> p.net == old(p.net) && p.companion == old(p.companion) && !flow.Goes?
    ensures !CanDispatch(JournalOf(old(p.ops), o)) && Inert(JournalOf(old(p.ops), o)) ==> Inert(JournalOf(p.ops, o))
    ensures old(p.script) == [] ==> p.script == []
    ensures var intent := old(p.ops)[o].intent;
            (old(p.script) == [] && CanDispatch(JournalOf(old(p.ops), o))
             && Calm(old(p.companion), intent, epoch, owner)
             && Ready(old(p.companion).col, intent, i)) ==>
              && flow.Goes? && Calm(p.companion, intent, epoch, owner)
              && Took(old(p.companion), p.companion, intent, i)
    ensures var intent, c := old(p.ops)[o].intent, old(p.companion);
            var v := Comes(c, intent, i, epoch, owner);
            old(p.script) == [] ==>
              if CanDispatch(JournalOf(old(p.ops), o))
              then && Decided(old(p.ops), p.ops, o, i, v) && flow == (if v.Success? then Goes else Stops)
                   && Left(c, p.companion, intent, i, epoch, owner)
              else && flow.Stops?
                   && p.ops == old(p.ops)[o := WithJournal(old(p.ops)[o], InState(JournalOf(old(p.ops), o),
                                                                                  J.FailedBeforeWrite))]
  {
    hide SystemOk, OpOk, Inv, ReadStep, JournalOk, Calm, Ready, Accepts, Perform, Comes, Left, Decided, Took;
    if CanDispatch(JournalOf(p.ops, o)) {
      flow := DriveOne(p, o, i, epoch, owner);
      if flow.Goes? {
        forall k | i < k < |p.ops[o].intent.steps| ensures JournalOf(p.ops, o).steps[k]
            == JournalOf(old(p.ops), o).steps[k] {
          assert StepAt(p.ops, o, k) == StepAt(old(p.ops), o, k);
        }
      }
    } else {
      OpIs(p.companion, p.net, p.past, p.ops, o);
      NeverReached(JournalOf(p.ops, o), i);
      var ok := ChangeState(p, o, J.FailedBeforeWrite);
      return if ok then Stops else Dies;
    }
  }

  lemma NeverReached(j: J.Journal, i: nat)
    requires JournalOk(j) && i < |j.steps| && j.steps[i].state.IntentRecorded? && !CanDispatch(j)
             && !J.Terminal(j.state)
    ensures j.state in {J.Prepared, J.Preflight} && J.NothingSent(j.steps)
  {
    assert j.steps[i] in j.steps;
  }

  // ---------------------------------------------------------------- an undisturbed recovery

  lemma CalmIsNotInFlight(c: Companion, intent: Intent, epoch: Uuid, owner: Owned, key: Key)
    ensures Calm(c, intent, epoch, owner) && key in c.ledger.rows ==> !InFlight(Status(c.ledger.rows[key]))
  {
    if Calm(c, intent, epoch, owner) { assert !Flying(c.ledger.rows, key); }
  }

  // ---------------------------------------------------------------- one unverified step

  /** Classify the first unresolved step and, when asked to apply, act on it. */
  method ReconcileOne(p: Client, o: Id, i: nat, epoch: Uuid, owner: Owned, apply: bool, trusted: bool)
    returns (flow: Flow)
    requires p.Valid() && p.Has(o, i) && !J.Terminal(JournalOf(p.ops, o).state) && VerifiedTo(JournalOf(p.ops, o), i)
    requires !StepAt(p.ops, o, i).state.Verified? && !StepAt(p.ops, o, i).state.ObservedFailure?
    modifies p
    ensures p.Valid() && OwnIds(p.ops) == OwnIds(old(p.ops)) && SameOps(old(p.ops), p.ops, o) && old(p.past) <= p.past
    ensures flow.Goes? ==> apply && Advanced(old(p.ops), p.ops, o, i)
    ensures !apply ==> p.ops == old(p.ops) && p.net == old(p.net)
    ensures Inert(JournalOf(old(p.ops), o)) ==> Inert(JournalOf(p.ops, o))
    ensures old(p.script) == [] ==> p.script == []
    ensures var intent := old(p.ops)[o].intent;
            (old(p.script) == [] && apply && Calm(old(p.companion), intent, epoch, owner)) ==>
              && (!StepAt(old(p.ops), o, i).state.IntentRecorded?
                  && ReadStep(old(p.companion).col, intent.pre, intent.steps[i])
                     == Some(Expected(intent.steps[i].expected))
                  ==> flow.Goes? && p.companion == old(p.companion))
              && (StepAt(old(p.ops), o, i).state.IntentRecorded? && CanDispatch(JournalOf(old(p.ops), o))
                  && ReadStep(old(p.companion).col, intent.pre, intent.steps[i]) == Some(Unchanged)
                  && Ready(old(p.companion).col, intent, i)
                  ==> && flow.Goes? && Calm(p.companion, intent, epoch, owner)
                      && Took(old(p.companion), p.companion, intent, i))
              && ((StepAt(old(p.ops), o, i).state.RequestStarted? || StepAt(old(p.ops), o, i).state.Unknown?) && trusted
                  && KeyOf(intent, intent.steps[i]) !in old(p.companion).ledger.rows
                  && ReadStep(old(p.companion).col, intent.pre, intent.steps[i]) == Some(Unchanged)
                  && Ready(old(p.companion).col, intent, i)
                  ==> && flow.Goes? && Calm(p.companion, intent, epoch, owner)
                      && Took(old(p.companion), p.companion, intent, i))
    ensures old(p.script) == [] && apply ==>
              Resolved(old(p.ops), p.ops, o, i, old(p.companion), p.companion, epoch, owner, trusted, flow)
  {
    hide SystemOk, OpOk, Inv, ReadStep, JournalOk, Ready, Accepts, Perform, NoEffectEver, Onward, Advanced, J.Legal,
         Inert, Comes, Left, Decided, Took, Resolved, Held;
    var state := StepAt(p.ops, o, i).state;
    OpIs(p.companion, p.net, p.past, p.ops, o);
    InertWaits(JournalOf(p.ops, o), i);
    var status: Option<Option<State>> := None;
    ghost var own, asked := OwnIds(p.ops), p.companion;
    if !state.IntentRecorded? {
      var answer := p.NativeStatus(o, i);
      if !answer.Got? { return Dies; }
      status := Some(answer.value);
      asked := p.companion;
    }
    var reading := p.ReadOne(o, i, epoch);
    if !reading.Got? {
      UnseenIsResolved(p.ops, o, i, p.companion, epoch, owner, trusted);
      return Dies;
    }
    NoEffectStaysOnward(asked, p.companion, p.net, own, p.ops, o, i);
    CalmIsNotInFlight(asked, p.ops[o].intent, epoch, owner, KeyOf(p.ops[o].intent, p.ops[o].intent.steps[i]));
    var action := Classify(state, status, reading.value, trusted);
    if !apply { return Stops; }
    ghost var ops, c := p.ops, p.companion;
    if action.Adopt? { ExpectedMatches(c.col, ops[o].intent, i, reading.value); }
    if action.RecordFailed? { FailedNoEffect(asked.ledger, p.net, KeyOf(ops[o].intent, ops[o].intent.steps[i])); }
    flow := Act(p, o, i, epoch, owner, action);
    if old(p.script) == [] {
      ActedIsResolved(ops, p.ops, o, i, c, p.companion, epoch, owner, trusted, reading.value, flow);
    }
  }

  /** What an action needs. */
  ghost predicate MayAct(p: Client, o: Id, i: nat, action: Action)
    reads p
    requires p.Has(o, i)
  {
    var intent, state := p.ops[o].intent, StepAt(p.ops, o, i).state;
    match action
    case Adopt => && !state.IntentRecorded? && p.companion.col in p.past
                  && ReadStep(p.companion.col, intent.pre, intent.steps[i]) == Some(Expected(intent.steps[i].expected))
    case RecordFailed => (state.RequestStarted? || state.Unknown?)
                         && NoEffectEver(p.companion.ledger, p.net, KeyOf(intent, intent.steps[i]))
    case Resubmit => state.RequestStarted? || state.Unknown?
    case Send => state.IntentRecorded?
    case _ => true
  }

  /** What an action comes to when nothing disturbs it. */
  ghost predicate Acted(a: Operations, b: Operations, o: Id, i: nat, c: Companion, d: Companion, epoch: Uuid,
                        owner: Owned, action: Action, flow: Flow)
    requires o in a && a[o].journal.Some? && i < |a[o].intent.steps| == |JournalOf(a, o).steps|
  {
    var intent, v := a[o].intent, Comes(c, a[o].intent, i, epoch, owner);
    match action
    case Adopt => flow.Goes? && Advanced(a, b, o, i) && d == c
    case RecordFailed => flow.Stops? && Decided(a, b, o, i, Failure) && d == c
    case Resubmit =>
      KeyOf(intent, intent.steps[i]) !in c.ledger.rows ==>
        && Left(c, d, intent, i, epoch, owner)
        && if v.Success? then flow.Goes? && Advanced(a, b, o, i) else flow.Stops? && Decided(a, b, o, i, Doubt)
    case Send =>
      if CanDispatch(JournalOf(a, o)) then
        && Decided(a, b, o, i, v) && flow == (if v.Success? then Goes else Stops)
        && Left(c, d, intent, i, epoch, owner)
      else flow.Stops? && d == c && b == a[o := WithJournal(a[o], InState(JournalOf(a, o), J.FailedBeforeWrite))]
    case _ => flow.Stops? && Held(a, b, o, i) && d == c
  }

  /** The action for what the row and the collection show resolves the step. */
  lemma ActedIsResolved(a: Operations, b: Operations, o: Id, i: nat, c: Companion, d: Companion, epoch: Uuid,
                        owner: Owned, trusted: bool, reading: Reading, flow: Flow)
    requires o in a && a[o].journal.Some? && i < |a[o].intent.steps| == |JournalOf(a, o).steps|
    requires !StepAt(a, o, i).state.Verified? && !StepAt(a, o, i).state.ObservedFailure?
    requires c.exec.Idle? && c.session == Some(Session(a[o].intent.lineage, epoch))
             && ReadStep(c.col, a[o].intent.pre, a[o].intent.steps[i]) == Some(reading)
    ensures var state, row := StepAt(a, o, i).state, RowState(c.ledger, KeyOf(a[o].intent, a[o].intent.steps[i]));
            var action := Classify(state, if state.IntentRecorded? then None else Some(row), reading, trusted);
            Acted(a, b, o, i, c, d, epoch, owner, action, flow)
            ==> Resolved(a, b, o, i, c, d, epoch, owner, trusted, flow)
  {
    hide ReadStep, Comes, Left, Decided, Advanced;
  }

  lemma UnseenIsResolved(ops: Operations, o: Id, i: nat, c: Companion, epoch: Uuid, owner: Owned, trusted: bool)
    requires o in ops && ops[o].journal.Some? && i < |ops[o].intent.steps| == |JournalOf(ops, o).steps|
    ensures ShownNow(c, ops[o].intent, i, epoch).None?
            ==> Resolved(ops, ops, o, i, c, c, epoch, owner, trusted, Dies)
  {
    hide ReadStep;
  }

  /** Carry out the action. */
  method Act(p: Client, o: Id, i: nat, epoch: Uuid, owner: Owned, action: Action) returns (flow: Flow)
    requires p.Valid() && p.Has(o, i) && !J.Terminal(JournalOf(p.ops, o).state) && VerifiedTo(JournalOf(p.ops, o), i)
    requires !StepAt(p.ops, o, i).state.Verified? && !StepAt(p.ops, o, i).state.ObservedFailure?
    requires MayAct(p, o, i, action)
    modifies p
    ensures p.Valid() && OwnIds(p.ops) == OwnIds(old(p.ops)) && SameOps(old(p.ops), p.ops, o) && old(p.past) <= p.past
    ensures flow.Goes? ==> Advanced(old(p.ops), p.ops, o, i)
    ensures Inert(JournalOf(old(p.ops), o)) ==> Inert(JournalOf(p.ops, o))
    ensures old(p.script) == [] ==> p.script == []
    ensures old(p.script) == [] ==>
              Acted(old(p.ops), p.ops, o, i, old(p.companion), p.companion, epoch, owner, action, flow)
    ensures var intent, c := old(p.ops)[o].intent, old(p.companion);
            (old(p.script) == [] && Calm(c, intent, epoch, owner) && Ready(c.col, intent, i)
             && ((action.Send? && CanDispatch(JournalOf(old(p.ops), o)))
                 || (action.Resubmit? && KeyOf(intent, intent.steps[i]) !in c.ledger.rows))) ==>
              flow.Goes? && Calm(p.companion, intent, epoch, owner) && Took(c, p.companion, intent, i)
  {
    hide SystemOk, OpOk, Inv, ReadStep, JournalOk, Ready, Accepts, Perform, NoEffectEver, Onward, Advanced, J.Legal,
         Inert, Comes, Left, Decided, Took, Calm;
    OpIs(p.companion, p.net, p.past, p.ops, o);
    InertWaits(JournalOf(p.ops, o), i);
    match action {
      case Adopt => flow := AdoptStep(p, o, i, p.ops[o].intent.steps[i].expected);
      case RecordFailed =>
        var ok := MarkUnknownIfStarted(p, o, i);
        if !ok { return Dies; }
        ghost var marked := p.ops;
        OpIs(p.companion, p.net, p.past, p.ops, o);
        RefusedCloses(marked, o, i, "failed_before_write");
        ok := RecordFailure(p, o, i, "failed_before_write");
        if ok { FailureSince(old(p.ops), marked, p.ops, o, i, "failed_before_write"); }
        return if ok then Stops else Dies;
      case Resubmit => flow := ResubmitStep(p, o, i, epoch, owner);
      case Send => flow := SendStep(p, o, i, epoch, owner);
      case _ =>
        var ok := MarkUnknownIfStarted(p, o, i);
        return if ok then Stops else Dies;
    }
  }

  lemma FailureSince(a: Operations, marked: Operations, b: Operations, o: Id, i: nat, reason: string)
    requires SameOps(a, marked, o) && marked[o].receipt == a[o].receipt
    requires i < |JournalOf(a, o).steps| == |JournalOf(marked, o).steps|
    requires JournalOf(marked, o).steps == JournalOf(a, o).steps[i := StepAt(marked, o, i)]
    requires b == marked[o := WithJournal(marked[o], Refused(JournalOf(marked, o), i, reason))]
    requires JournalOf(b, o).state == if AloneSent(marked, o, i) then J.FailedBeforeWrite else J.NeedsRecovery
    ensures Decided(a, b, o, i, Failure)
  {
    forall k | 0 <= k < |JournalOf(a, o).steps| && k != i
      ensures StepAt(marked, o, k) == StepAt(a, o, k) == StepAt(b, o, k) {}
    assert AloneSent(a, o, i) <==> AloneSent(marked, o, i);
  }

  /** An inert attempt has nothing left to resolve but steps it may no longer send. */
  lemma InertWaits(j: J.Journal, i: nat)
    requires JournalOk(j) && !J.Terminal(j.state) && i < |j.steps|
    requires !j.steps[i].state.Verified? && !j.steps[i].state.ObservedFailure?
    ensures Inert(j) ==> j.steps[i].state.IntentRecorded? && !CanDispatch(j)
  {
    assert j.steps[i] in j.steps;
  }

  lemma InertIsNotDone(j: J.Journal)
    requires JournalOk(j) && J.AllVerified(j.steps) && j.steps != []
    ensures !Inert(j)
  {
    assert j.steps[0] in j.steps;
  }

  lemma FailedNoEffect(l: Ledger, net: set<Request>, key: Key)
    ensures System.Failed(l, key) ==> NoEffectEver(l, net, key)
  {}

  // ---------------------------------------------------------------- every unverified step

  /** One turn of the reconciler's loop. */
  method ReconcileTurn(p: Client, o: Id, i: nat, epoch: Uuid, owner: Owned, apply: bool, trusted: bool,
                       ghost intent: Intent, ghost start: Companion, ghost n: nat, ghost smooth: bool)
                         returns (flow: Flow)
    requires p.Valid() && p.Has(o, i) && !J.Terminal(JournalOf(p.ops, o).state) && VerifiedTo(JournalOf(p.ops, o), i)
    requires p.ops[o].intent == intent
             && (smooth ==> apply && trusted && Smooth(p, o, intent, start, epoch, owner, n, i))
    modifies p
    ensures p.Valid() && OwnIds(p.ops) == OwnIds(old(p.ops)) && SameOps(old(p.ops), p.ops, o) && old(p.past) <= p.past
    ensures !apply ==> p.ops == old(p.ops) && p.net == old(p.net)
    ensures old(p.script) == [] ==> p.script == []
    ensures flow.Goes? ==> p.Has(o, i) && VerifiedTo(JournalOf(p.ops, o), i + 1) && Finished(JournalOf(p.ops, o))
    ensures Inert(JournalOf(old(p.ops), o)) ==> Inert(JournalOf(p.ops, o))
    ensures smooth ==> flow.Goes? && Smooth(p, o, intent, start, epoch, owner, n, i + 1)
    ensures StepAt(old(p.ops), o, i).state.Verified? ==>
              flow.Goes? && p.ops == old(p.ops) && p.companion == old(p.companion) && p.net == old(p.net)
  {
    hide SystemOk, OpOk, Inv, ReadStep, JournalOk, Calm, Ready, Accepts, Perform, Executed, OnTrack, Inert;
    var state := StepAt(p.ops, o, i).state;
    OpIs(p.companion, p.net, p.past, p.ops, o);
    if state.Verified? {
      if smooth { SmoothSkips(p, o, intent, start, epoch, owner, n, i); }
      NotFresh(JournalOf(p.ops, o), i);
      return Goes;
    }
    if smooth { SmoothActs(p, o, intent, start, epoch, owner, n, i); }
    if state.ObservedFailure? { return Stops; }
    ghost var before, ops := p.companion, p.ops;
    flow := ReconcileOne(p, o, i, epoch, owner, apply, trusted);
    if flow.Goes? {
      OpIs(p.companion, p.net, p.past, p.ops, o);
      if smooth { SmoothGoesOn(p, o, ops, before, intent, start, epoch, owner, n, i); }
    }
  }

  /** An undisturbed world, an interrupted operation on track, with or without a lost request, and an owner
      at hand. */
  ghost predicate Recoverable(p: Client, o: Id, epoch: Uuid, owner: Owned, n: nat)
    reads p
  {
    && o in p.ops && p.ops[o].journal.Some? && p.script == []
    && n <= |p.ops[o].intent.steps| == |p.ops[o].journal.value.steps|
    && Calm(p.companion, p.ops[o].intent, epoch, owner) && OnTrack(p.companion.col, p.ops[o].intent, n)
    && Paused(p.companion.ledger, p.ops[o].intent, p.ops[o].journal.value, n)
  }

  /** Over every unverified step in order; `Goes` says that all are verified.  In an undisturbed world an
      interrupted operation on track is carried through: what took effect is adopted, what never reached the
      ledger is sent again, what was never sent is sent, and nothing is executed twice. */
  method ReconcileSteps(p: Client, o: Id, epoch: Uuid, owner: Owned, apply: bool, trusted: bool, ghost n: nat)
    returns (flow: Flow)
    requires p.Valid() && o in p.ops && p.ops[o].journal.Some? && !J.Terminal(JournalOf(p.ops, o).state)
    modifies p
    ensures p.Valid() && OwnIds(p.ops) == OwnIds(old(p.ops)) && SameOps(old(p.ops), p.ops, o) && old(p.past) <= p.past
    ensures !apply ==> p.ops == old(p.ops) && p.net == old(p.net)
    ensures flow.Goes? ==> J.AllVerified(JournalOf(p.ops, o).steps) && JournalOf(p.ops, o).steps != []
                           && Finished(JournalOf(p.ops, o))
    ensures Inert(JournalOf(old(p.ops), o)) ==> Inert(JournalOf(p.ops, o))
    ensures old(p.script) == [] ==> p.script == []
    ensures old(p.ops[o].intent.steps != [] && J.AllVerified(JournalOf(p.ops, o).steps)) ==>
              flow.Goes? && p.ops == old(p.ops) && p.companion == old(p.companion)
    ensures apply && trusted && old(Recoverable(p, o, epoch, owner, n)) ==>
              var intent := old(p.ops)[o].intent;
              && flow.Goes? && Calm(p.companion, intent, epoch, owner)
              && Executed(old(p.companion), p.companion, intent, n, |intent.steps| - n)
              && OnTrack(p.companion.col, intent, |intent.steps|)
  {
    hide SystemOk, OpOk, Inv, JournalOk, Calm, Executed, OnTrack, Inert;
    ghost var intent, start := p.ops[o].intent, p.companion;
    ghost var smooth := apply && trusted && Recoverable(p, o, epoch, owner, n);
    OpIs(p.companion, p.net, p.past, p.ops, o);
    NoneExecuted(p.companion, intent, n);
    for i := 0 to |p.ops[o].intent.steps|
      invariant p.Valid() && OwnIds(p.ops) == OwnIds(old(p.ops)) && SameOps(old(p.ops), p.ops, o)
                && old(p.past) <= p.past
      invariant !apply ==> p.ops == old(p.ops) && p.net == old(p.net)
      invariant |intent.steps| == |JournalOf(p.ops, o).steps| && VerifiedTo(JournalOf(p.ops, o), i)
                && !J.Terminal(JournalOf(p.ops, o).state)
      invariant i > 0 ==> Finished(JournalOf(p.ops, o))
      invariant Inert(JournalOf(old(p.ops), o)) ==> Inert(JournalOf(p.ops, o))
      invariant old(p.script) == [] ==> p.script == []
      invariant smooth ==> Smooth(p, o, intent, start, epoch, owner, n, i)
      invariant old(J.AllVerified(JournalOf(p.ops, o).steps)) ==> p.ops == old(p.ops) && p.companion == start
    {
      assert StepAt(p.ops, o, i) in JournalOf(p.ops, o).steps;
      flow := ReconcileTurn(p, o, i, epoch, owner, apply, trusted, intent, start, n, smooth);
      if !flow.Goes? { return; }
    }
    OpIs(p.companion, p.net, p.past, p.ops, o);
    return Goes;
  }

  /** The loop's progress: at step `i`, everything up to the larger of `i` and `n` has had its effect. */
  ghost predicate Smooth(p: Client, o: Id, intent: Intent, start: Companion, epoch: Uuid, owner: Owned, n: nat, i: nat)
    reads p
  {
    var m := if i < n then n else i;
    && o in p.ops && p.ops[o].journal.Some? && p.ops[o].intent == intent && p.script == []
    && m <= |intent.steps| == |p.ops[o].journal.value.steps|
    && Calm(p.companion, intent, epoch, owner) && OnTrack(p.companion.col, intent, m)
    && Executed(start, p.companion, intent, n, m - n)
    && if i <= n && Unreached(p.companion.ledger, intent, p.ops[o].journal.value, n) then true
       else && (i < n ==> Interrupted(p.ops[o].journal.value, n))
            && (i >= n ==> CanDispatch(p.ops[o].journal.value) || i == |intent.steps|)
            && forall k | m <= k < |intent.steps| :: p.ops[o].journal.value.steps[k].state.IntentRecorded?
  }

  lemma SmoothSkips(p: Client, o: Id, intent: Intent, start: Companion, epoch: Uuid, owner: Owned, n: nat, i: nat)
    requires Smooth(p, o, intent, start, epoch, owner, n, i) && i < |intent.steps|
    requires p.ops[o].journal.value.steps[i].state.Verified? && JournalOk(p.ops[o].journal.value)
    ensures Smooth(p, o, intent, start, epoch, owner, n, i + 1)
  {
    hide Calm, OnTrack, Executed, J.Shaped;
    var steps := p.ops[o].journal.value.steps;
    assert steps[i] in steps;
    if i + 1 < |steps| { assert steps[i + 1] in steps; }
  }

  lemma SmoothActs(p: Client, o: Id, intent: Intent, start: Companion, epoch: Uuid, owner: Owned, n: nat, i: nat)
    requires Smooth(p, o, intent, start, epoch, owner, n, i) && i < |intent.steps|
    requires !p.ops[o].journal.value.steps[i].state.Verified?
    ensures i + 1 >= n && !p.ops[o].journal.value.steps[i].state.ObservedFailure?
    ensures i < n ==> !p.ops[o].journal.value.steps[i].state.IntentRecorded?
                      && ReadStep(p.companion.col, intent.pre, intent.steps[i])
                         == Some(Expected(intent.steps[i].expected))
    ensures i >= n ==> ReadStep(p.companion.col, intent.pre, intent.steps[i]) == Some(Unchanged)
                       && Ready(p.companion.col, intent, i)
    ensures i >= n ==> var state := p.ops[o].journal.value.steps[i].state;
                       (state.IntentRecorded? && CanDispatch(p.ops[o].journal.value))
                       || ((state.RequestStarted? || state.Unknown?)
                           && KeyOf(intent, intent.steps[i]) !in p.companion.ledger.rows)
    ensures forall k | i < k < |intent.steps| :: p.ops[o].journal.value.steps[k].state.IntentRecorded?
  {
    hide Calm, Executed, Ready, ReadStep, Perform;
  }

  lemma SmoothGoesOn(p: Client, o: Id, ops: Operations, before: Companion, intent: Intent, start: Companion,
                     epoch: Uuid, owner: Owned,
                     n: nat, i: nat)
    requires Advanced(ops, p.ops, o, i) && ops[o].intent == intent && p.script == []
             && JournalOk(p.ops[o].journal.value)
    requires i < |intent.steps| == |p.ops[o].journal.value.steps| && i + 1 >= n
    requires var m := if i < n then n else i;
             && m <= |intent.steps| && OnTrack(before.col, intent, m) && Executed(start, before, intent, n, m - n)
             && Calm(p.companion, intent, epoch, owner)
             && (forall k | i < k < |intent.steps| :: ops[o].journal.value.steps[k].state.IntentRecorded?)
             && if i < n then p.companion == before
                else Took(before, p.companion, intent, i)
    ensures Smooth(p, o, intent, start, epoch, owner, n, i + 1)
  {
    hide Calm, Executed, Ready, ReadStep, Perform, Accepts;
    var steps := p.ops[o].journal.value.steps;
    if i + 1 < |steps| { assert steps[i + 1] in steps && steps[i + 1].state.IntentRecorded?; }
    if i >= n { ExecutedOneMore(start, before, p.companion, intent, n, i - n); }
  }
}
