/** The apply command for one item, repeated attempts at it, and what keeps an item from being applied twice. */
module Attempts {
  import opened Wrappers
  import opened Anki
  import opened Effects
  import opened Readback
  import opened Ledger
  import opened Companion
  import opened CompanionLaws
  import opened System
  import opened Moves
  import opened Serving
  import opened Client
  import opened Driver
  import opened Planning
  import opened Reconcile
  import opened Recovery
  import J = Journal

  // ---------------------------------------------------------------- fresh identifiers

  lemma MostOf(s: set<nat>) returns (m: nat)
    requires s != {}
    ensures m in s && forall k <- s :: k <= m
  {
    var x :| x in s;
    m := x;
    var rest := s - {x};
    if rest != {} {
      var r := MostOf(rest);
      if r > m { m := r; }
    }
    assert forall k <- s :: k == x || k in rest;
  }

  function Above(s: set<nat>): (n: nat)
    ensures forall k <- s :: k < n
  {
    if s == {} then 0
    else
      assert exists m <- s :: forall k <- s :: k <= m by { var m := MostOf(s); }
      var m :| m in s && forall k <- s :: k <= m;
      m + 1
  }

  /** Stands for freshly drawn UUIDs: above every identifier in use anywhere. */
  function FreshBase(c: Companion, net: set<Request>, ops: Operations): Id {
    Above(RowIds(c.ledger) + SentIds(net) + OwnIds(ops) + ops.Keys)
  }

  function RowIds(l: Ledger): set<Id> {
    set k | k in l.rows :: k.id
  }

  function SentIds(net: set<Request>): set<Id> {
    set r | r in net :: r.key.id
  }

  lemma FreshBaseIsFresh(c: Companion, net: set<Request>, ops: Operations, id: Id)
    requires id >= FreshBase(c, net, ops)
    ensures Unsent(c.ledger, net, id) && id !in OwnIds(ops) && id !in ops
  {
    forall k <- c.ledger.rows ensures k.id != id { assert k.id in RowIds(c.ledger); }
    forall r <- net ensures r.key.id != id { assert r.key.id in SentIds(net); }
  }

  // ---------------------------------------------------------------- publishing

  function NewOperation(intent: Intent, epoch: Id): Operation {
    Operation(intent, epoch, None, None)
  }

  function FirstJournal(o: Id, intent: Intent): J.Journal {
    J.Journal(o, intent.approved, J.Prepared,
              seq(|intent.steps|, k requires 0 <= k < |intent.steps| =>
                    J.Step(intent.steps[k].id, intent.steps[k].expected, J.IntentRecorded, None)))
  }

  lemma NewIsOk(c: Companion, net: set<Request>, past: set<Collection>, ops: Operations, intent: Intent, epoch: Id,
                base: Id)
    requires WellPlanned(intent) && base == FreshBase(c, net, ops) && forall s <- intent.steps :: base <= s.id
    ensures OpOk(c.ledger, net, past, NewOperation(intent, epoch)) && Ids(intent) !! OwnIds(ops)
  {
    forall s <- intent.steps ensures Unsent(c.ledger, net, s.id) && s.id !in OwnIds(ops)
        && Bound(c.ledger, net, intent, s) {
      FreshBaseIsFresh(c, net, ops, s.id);
    }
  }

  lemma FirstJournalOk(l: Ledger, net: set<Request>, past: set<Collection>, op: Operation, o: Id)
    requires OpOk(l, net, past, op) && op.journal.None?
    ensures OpOk(l, net, past, WithJournal(op, FirstJournal(o, op.intent))) && JournalOk(FirstJournal(o, op.intent))
    ensures J.NothingSent(FirstJournal(o, op.intent).steps)
  {
    hide Bound, FinallyWitnessed, Unsent;
    var j := FirstJournal(o, op.intent);
    assert J.ShapedAt(j.steps, 0);
    forall i, k | 0 <= i < k < |j.steps| ensures j.steps[i].id != j.steps[k].id {
      assert op.intent.steps[i].id != op.intent.steps[k].id;
    }
    forall i | 0 <= i < |j.steps| ensures StepOk(l, net, past, op.intent, op.intent.steps[i], j.steps[i]) {
      assert op.intent.steps[i] in op.intent.steps;
    }
  }

  lemma PublishedOk(c: Companion, net: set<Request>, past: set<Collection>, ops: Operations, o: Id, op: Operation)
    requires SystemOk(c, net, past, ops) && o !in ops && OpOk(c.ledger, net, past, op) && Ids(op.intent) !! OwnIds(ops)
    ensures SystemOk(c, net, past, ops[o := op])
  {
    hide Inv, OpOk;
    forall p <- ops ensures Ids(ops[p].intent) !! Ids(op.intent) { OwnsIds(ops, p); }
  }

  /** Each earlier attempt at the item, one by one. */
  method PriorAttempts(p: Client, item: nat) returns (ok: bool)
    ensures ok <==> PriorAdmits(p.ops, item)
  {
    var todo := p.ops.Keys;
    while todo != {}
      invariant todo <= p.ops.Keys
      invariant forall o <- p.ops :: o !in todo && p.ops[o].intent.item == item ==> Admitted(p.ops[o])
    {
      var o :| o in todo;
      todo := todo - {o};
      if p.ops[o].intent.item == item && !Admitted(p.ops[o]) { return false; }
    }
    return true;
  }

  /** The intent before the journal, both durable before anything is sent. */
  method Publish(p: Client, o: Id, intent: Intent, epoch: Id) returns (ok: bool)
    requires p.Valid() && o !in p.ops && OpOk(p.companion.ledger, p.net, p.past, NewOperation(intent, epoch))
             && Ids(intent) !! OwnIds(p.ops)
    modifies p`ops, p`script
    ensures p.Valid() && (p.ops == old(p.ops) || p.ops == old(p.ops)[o := NewOperation(intent, epoch)]
                          || p.ops == old(p.ops)[o := WithJournal(NewOperation(intent, epoch),
                                                                  FirstJournal(o, intent))])
    ensures ok ==> p.ops == old(p.ops)[o := WithJournal(NewOperation(intent, epoch), FirstJournal(o, intent))]
    ensures !ok ==> p.ops == old(p.ops) || p.ops == old(p.ops)[o := NewOperation(intent, epoch)]
    ensures old(p.script) == [] ==> ok && p.script == []
  {
    hide Inv, OpOk, SystemOk;
    ok := p.script == [] || p.script[0].fate == Fine;
    if p.script != [] { p.script := p.script[1..]; }
    if !ok { return; }
    PublishedOk(p.companion, p.net, p.past, p.ops, o, NewOperation(intent, epoch));
    p.ops := p.ops[o := NewOperation(intent, epoch)];
    ok := p.script == [] || p.script[0].fate == Fine;
    if p.script != [] { p.script := p.script[1..]; }
    if !ok { return; }
    FirstJournalOk(p.companion.ledger, p.net, p.past, p.ops[o], o);
    SystemWrites(p.companion, p.net, p.past, p.ops, o, WithJournal(p.ops[o], FirstJournal(o, intent)));
    p.ops := p.ops[o := WithJournal(p.ops[o], FirstJournal(o, intent))];
  }

  // ---------------------------------------------------------------- one attempt

  /** Earlier operations stay; the new one, if any, is for this item. */
  ghost predicate Adds(a: Operations, b: Operations, o: Id, item: nat) {
    && (forall p <- a :: p in b && b[p] == a[p])
    && (b == a || (o !in a && o in b && b.Keys == a.Keys + {o} && b[o].intent.item == item))
  }

  /** The intent an apply makes now. */
  function IntentNow(plan: Plan, c: Companion, net: set<Request>, ops: Operations): Option<Intent> {
    MakeIntent(plan, c.col, FreshBase(c, net, ops))
  }

  /** A resting companion and earlier attempts that admit another, and the item's intent, made now, on track. */
  ghost predicate Applies(p: Client, plan: Plan)
    reads p
  {
    && p.companion.session.Some? && PriorAdmits(p.ops, plan.item)
    && var intent := IntentNow(plan, p.companion, p.net, p.ops);
       && intent.Some? && Resting(p.companion, intent.value, p.companion.session.value.epoch)
       && OnTrack(p.companion.col, intent.value, 0)
  }

  /** No request was ever journaled. */
  predicate NeverBegun(op: Operation) {
    op.journal.Some? ==> op.journal.value.state in {J.Prepared, J.Preflight, J.FailedBeforeWrite}
  }

  /** How a run since `start` ends when calls are cut off and nothing else interferes: committed with every
      effect made once, never begun and without effect, or stopped where its journal says. */
  ghost predicate Ended(op: Operation, start: Companion, c: Companion, epoch: Uuid) {
    && Resting(c, op.intent, epoch)
    && ((op.journal.Some? && op.journal.value.state.Committed? && Executed(start, c, op.intent, 0, |op.intent.steps|))
        || (NeverBegun(op) && Unmoved(start, c))
        || CutOff(op, start, c, epoch))
  }

  /** What an apply that was at most cut off leaves: nothing, or one operation with the intent of that moment,
      in the session of that moment, and its effects as its journal has them. */
  ghost predicate Accounted(plan: Plan, a: Companion, net: set<Request>, before: Operations, b: Companion,
                            after: Operations, o: Id) {
    if after == before then Unmoved(a, b)
    else && o !in before && o in after && IntentNow(plan, a, net, before) == Some(after[o].intent)
         && Ended(after[o], a, b, after[o].epoch)
  }

  /** Apply one reviewed item: frozen intent and journal first, then an owner, then the steps, then the
      commit.  In an undisturbed world an intent on track ends committed with each effect made once; when the
      world only cuts calls off, it ends so, without any effect, or where its journal says. */
  method ApplyItem(p: Client, plan: Plan) returns (flow: Flow, o: Id)
    requires p.Valid()
    modifies p
    ensures p.Valid() && Adds(old(p.ops), p.ops, o, plan.item)
    ensures !PriorAdmits(old(p.ops), plan.item) ==> p.ops == old(p.ops) && p.net == old(p.net)
    ensures p.cutsOnly && old(Applies(p, plan)) ==>
              && p.companion.session == old(p.companion).session
              && Accounted(plan, old(p.companion), old(p.net), old(p.ops), p.companion, p.ops, o)
    ensures old(p.script) == [] && old(Applies(p, plan)) ==>
              var intent := IntentNow(plan, old(p.companion), old(p.net), old(p.ops)).value;
              && flow.Goes? && o !in old(p.ops) && o in p.ops && p.ops[o].intent == intent
              && p.ops[o].journal.Some? && JournalOf(p.ops, o).state.Committed?
              && Executed(old(p.companion), p.companion, intent, 0, |intent.steps|)
              && p.script == [] && p.companion.session == old(p.companion).session
              && Resting(p.companion, intent, p.companion.session.value.epoch)
              && CurrentOwner(p.companion.ledger).None?
  {
    hide Inv, OpOk, SystemOk, OnTrack, Executed, JournalOk, MakeIntent, Resting, Onward;
    ghost var smooth := (p.cutsOnly || p.script == []) && Applies(p, plan);
    if smooth {
      RestingLineage(p.companion, IntentNow(plan, p.companion, p.net, p.ops).value, p.companion.session.value.epoch);
    }
    flow, o := Dies, 0;
    var admitted := PriorAttempts(p, plan.item);
    if !admitted { return; }
    var ready, epoch;
    ready, o, epoch := Prepare(p, plan);
    if !ready { return; }
    flow := Execute(p, o, epoch);
    if smooth { RestingLineage(p.companion, p.ops[o].intent, epoch); }
  }

  /** The live collection is read, the intent is frozen from it, and intent and journal are published. */
  method Prepare(p: Client, plan: Plan) returns (ready: bool, o: Id, epoch: Uuid)
    requires p.Valid()
    modifies p`companion, p`script, p`past, p`ops
    ensures p.Valid() && Adds(old(p.ops), p.ops, o, plan.item)
    ensures ready ==> o !in old(p.ops) && o in p.ops && p.ops[o].journal == Some(FirstJournal(o, p.ops[o].intent))
    ensures p.cutsOnly ==> p.companion == old(p.companion)
    ensures p.cutsOnly && p.ops != old(p.ops) ==>
              && o !in old(p.ops) && o in p.ops && (!ready ==> p.ops[o].journal.None?)
              && p.companion.session == Some(Session(plan.lineage, epoch)) && p.ops[o].epoch == epoch
              && IntentNow(plan, p.companion, p.net, old(p.ops)) == Some(p.ops[o].intent)
    ensures old(p.script) == [] && old(Applies(p, plan)) ==>
              && ready && p.script == [] && p.companion == old(p.companion) && epoch == p.companion.session.value.epoch
              && p.ops[o].intent == IntentNow(plan, p.companion, p.net, old(p.ops)).value
  {
    hide Inv, OpOk, SystemOk, OnTrack, Onward, JournalOk, MakeIntent, Unsent, Resting, FirstJournal, WellPlanned;
    ready, o, epoch := false, 0, 0;
    ghost var smooth := p.script == [] && Applies(p, plan);
    var session := CurrentSession(p);
    if !session.Got? { return; }
    epoch := session.value.epoch;
    if smooth {
      RestingLineage(p.companion, IntentNow(plan, p.companion, p.net, p.ops).value, epoch);
    }
    MadeLineage(plan, p.companion.col, FreshBase(p.companion, p.net, p.ops));
    if session.value.lineage != plan.lineage { return; }
    var seen := p.Look(plan.lineage, epoch);
    if !seen.Got? { return; }
    ready, o := Freeze(p, plan, seen.value, epoch);
  }

  /** The intent for what was read, published under fresh identifiers with its first journal. */
  method Freeze(p: Client, plan: Plan, col: Collection, epoch: Uuid) returns (ready: bool, o: Id)
    requires p.Valid()
    modifies p`script, p`ops
    ensures p.Valid() && Adds(old(p.ops), p.ops, o, plan.item)
    ensures ready ==> o !in old(p.ops) && o in p.ops && p.ops[o].journal == Some(FirstJournal(o, p.ops[o].intent))
    ensures var made := MakeIntent(plan, col, FreshBase(p.companion, p.net, old(p.ops)));
            && (p.ops != old(p.ops) ==> && o !in old(p.ops) && o in p.ops && made == Some(p.ops[o].intent)
                                        && p.ops[o].epoch == epoch && (!ready ==> p.ops[o].journal.None?))
            && (old(p.script) == [] && made.Some? ==> ready && p.script == [] && p.ops[o].intent == made.value)
  {
    hide Inv, OpOk, SystemOk, MakeIntent, FirstJournal, WellPlanned;
    var base := FreshBase(p.companion, p.net, p.ops);
    var made := MakeIntent(plan, col, base);
    ready, o := false, base;
    if made.None? { return; }
    MadeIntentPlanned(plan, col, base);
    FreshBaseIsFresh(p.companion, p.net, p.ops, o);
    NewIsOk(p.companion, p.net, p.past, p.ops, made.value, epoch, base);
    ready := Publish(p, o, made.value, epoch);
  }

  /** From the prepared journal to its checkpointed state, with an owner; without one the attempt fails
      before any write. */
  method Checkpoint(p: Client, o: Id, epoch: Uuid) returns (owner: Answer<Owned>)
    requires p.Valid() && o in p.ops && p.ops[o].journal == Some(FirstJournal(o, p.ops[o].intent))
    modifies p`companion, p`script, p`ops
    ensures p.Valid() && SameOps(old(p.ops), p.ops, o) && OwnIds(p.ops) == OwnIds(old(p.ops))
    ensures owner.Got? ==> JournalOf(p.ops, o).state.Checkpointed? && J.NothingSent(JournalOf(p.ops, o).steps)
                           && |JournalOf(p.ops, o).steps| == |p.ops[o].intent.steps|
    ensures (old(p.script) == [] && Resting(old(p.companion), old(p.ops)[o].intent, epoch)) ==>
              owner.Got? && p.script == [] && Calm(p.companion, old(p.ops)[o].intent, epoch, owner.value)
              && p.companion.col == old(p.companion).col && p.companion.log == old(p.companion).log
    ensures owner.Got? || NeverBegun(p.ops[o])
    ensures p.cutsOnly && Resting(old(p.companion), old(p.ops)[o].intent, epoch) ==>
              && Resting(p.companion, p.ops[o].intent, epoch) && Unmoved(old(p.companion), p.companion)
              && (owner.Got? ==> Calm(p.companion, p.ops[o].intent, epoch, owner.value))
  {
    hide Inv, OpOk, SystemOk, Calm, Onward, JournalOk, Resting, J.Legal;
    ghost var intent := p.ops[o].intent;
    var ok := ChangeState(p, o, J.Preflight);
    if !ok { return Dead; }
    owner := p.Begin(p.ops[o].intent, epoch);
    if owner.Dead? { return; }
    if owner.Failed? {
      ok := ChangeState(p, o, J.FailedBeforeWrite);
      return;
    }
    ok := ChangeState(p, o, J.Checkpointed);
    if !ok { return Dead; }
  }

  /** The steps, then the commit, then the owner's release. */
  method Carry(p: Client, o: Id, epoch: Uuid, owner: Owned) returns (flow: Flow)
    requires p.Valid() && o in p.ops && p.ops[o].journal.Some? && JournalOf(p.ops, o).state.Checkpointed?
    modifies p
    ensures p.Valid() && SameOps(old(p.ops), p.ops, o)
    ensures old(p.script) == [] && old(Untouched(p, o, epoch, owner)) ==>
              && flow.Goes? && JournalOf(p.ops, o).state.Committed? && p.script == []
              && CurrentOwner(p.companion.ledger).None?
    ensures (p.cutsOnly || old(p.script) == []) && old(Untouched(p, o, epoch, owner)) ==>
              var intent := p.ops[o].intent;
              && Resting(p.companion, intent, epoch)
              && (if JournalOf(p.ops, o).state.Committed?
                  then Executed(old(p.companion), p.companion, intent, 0, |intent.steps|)
                  else CutOff(p.ops[o], old(p.companion), p.companion, epoch))
  {
    hide Inv, OpOk, SystemOk, Calm, OnTrack, Executed, JournalOk, FinalRead, Resting, J.Legal, WellPlanned,
         J.AllVerified, J.NothingSent, CutOff, Onward;
    ghost var intent, calm := p.ops[o].intent, p.companion;
    ghost var smooth := (p.cutsOnly || p.script == []) && Untouched(p, o, epoch, owner);
    OpIs(p.companion, p.net, p.past, p.ops, o);
    PlannedLast(intent);
    flow := Drive(p, o, epoch, owner);
    ghost var done := p.companion;
    if flow.Goes? {
      OpIs(p.companion, p.net, p.past, p.ops, o);
      DrivenState(JournalOf(p.ops, o));
      if smooth { CalmFinal(p.companion, intent, epoch, owner); }
      flow := Commit(p, o, epoch);
      if !flow.Goes? {
        if smooth { UncommittedIsCutOff(p.ops[o], calm, done, epoch, owner); }
        return;
      }
    }
    if smooth { CutOffIsOpen(p.ops[o], calm, done, epoch); }
    CalmIsOwned(done, intent, epoch, owner);
    if flow != Dies { p.End(owner); }
    if smooth {
      if flow.Goes? {
        SameLog(calm, calm, done, p.companion, intent, 0, |intent.steps|);
        CalmRests(done, p.companion, intent, epoch, owner);
      } else {
        CutOffRests(p.ops[o], calm, done, p.companion, epoch);
        CutOffStays(p.ops[o], calm, calm, done, p.companion, epoch);
      }
    }
  }

  /** From the prepared journal to the commit. */
  method Execute(p: Client, o: Id, epoch: Uuid) returns (flow: Flow)
    requires p.Valid() && o in p.ops && p.ops[o].journal == Some(FirstJournal(o, p.ops[o].intent))
    modifies p
    ensures p.Valid() && SameOps(old(p.ops), p.ops, o)
    ensures (old(p.script) == [] && Resting(old(p.companion), old(p.ops)[o].intent, epoch)
             && OnTrack(old(p.companion).col, old(p.ops)[o].intent, 0)) ==>
              var intent := old(p.ops)[o].intent;
              && flow.Goes? && JournalOf(p.ops, o).state.Committed?
              && Executed(old(p.companion), p.companion, intent, 0, |intent.steps|)
              && p.script == [] && Resting(p.companion, intent, epoch) && CurrentOwner(p.companion.ledger).None?
    ensures p.cutsOnly && Resting(old(p.companion), old(p.ops)[o].intent, epoch)
            && OnTrack(old(p.companion).col, old(p.ops)[o].intent, 0) ==>
              Ended(p.ops[o], old(p.companion), p.companion, epoch)
  {
    hide Inv, OpOk, SystemOk, Calm, OnTrack, Executed, JournalOk, Resting, J.Legal, WellPlanned, FirstJournal,
         J.NothingSent, CutOff, NeverBegun, Onward;
    ghost var intent, start := p.ops[o].intent, p.companion;
    ghost var smooth := (p.cutsOnly || p.script == []) && Resting(p.companion, intent, epoch)
                        && OnTrack(p.companion.col, intent, 0);
    var owner := Checkpoint(p, o, epoch);
    if !owner.Got? { return if owner.Dead? then Dies else Stops; }
    ghost var calm := p.companion;
    flow := Carry(p, o, epoch, owner.value);
    if smooth {
      if JournalOf(p.ops, o).state.Committed? {
        SameLog(start, calm, p.companion, p.companion, intent, 0, |intent.steps|);
      } else {
        CutOffStays(p.ops[o], start, calm, p.companion, p.companion, epoch);
      }
    }
  }

  lemma CutOffIsOpen(op: Operation, start: Companion, c: Companion, epoch: Uuid)
    ensures CutOff(op, start, c, epoch) ==> op.journal.Some? && !J.Terminal(op.journal.value.state)
  {}

  lemma CutOffRests(op: Operation, start: Companion, c: Companion, d: Companion, epoch: Uuid)
    requires CutOff(op, start, c, epoch) && d == c.(ledger := d.ledger)
    ensures Resting(d, op.intent, epoch)
  {}

  /** Every step is verified, and only the commit is missing. */
  lemma UncommittedIsCutOff(op: Operation, start: Companion, c: Companion, epoch: Uuid, owner: Owned)
    requires op.journal.Some? && |op.journal.value.steps| == |op.intent.steps| && !J.Terminal(op.journal.value.state)
    requires J.AllVerified(op.journal.value.steps) && op.intent.steps != [] && Calm(c, op.intent, epoch, owner)
    requires Executed(start, c, op.intent, 0, |op.intent.steps|) && OnTrack(c.col, op.intent, |op.intent.steps|)
    ensures CutOff(op, start, c, epoch) && Resting(c, op.intent, epoch)
  {
    hide OnTrack;
    CalmIsResting(c, op.intent, epoch, owner);
    var j := op.journal.value;
    forall k | 0 <= k < |j.steps| ensures j.steps[k].state.Verified? { assert j.steps[k] in j.steps; }
    assert Interrupted(j, |j.steps|);
  }

  lemma PlannedLast(intent: Intent)
    requires WellPlanned(intent)
    ensures intent.steps != []
    ensures var last := intent.steps[|intent.steps| - 1].body; last.CreateNote? || last.UpdateNote?
  {}

  lemma DrivenState(j: J.Journal)
    requires JournalOk(j) && J.AllVerified(j.steps) && j.steps != [] && CanDispatch(j)
    ensures Finished(j)
  {
    assert j.steps[0] in j.steps;
  }

  lemma RestingLineage(c: Companion, intent: Intent, epoch: Uuid)
    requires Resting(c, intent, epoch)
    ensures c.exec.Idle? && c.session == Some(Session(intent.lineage, epoch))
  {}

  lemma MadeLineage(plan: Plan, col: Collection, base: Id)
    ensures MakeIntent(plan, col, base).Some? ==> MakeIntent(plan, col, base).value.lineage == plan.lineage
  {}

  // ---------------------------------------------------------------- an item is applied once

  /** At most one attempt at each item can have made, or can still make, its main effect. */
  ghost predicate OneOpen(ops: Operations) {
    forall a <- ops, b <- ops ::
        ops[a].intent.item == ops[b].intent.item && !Dormant(ops[a]) && !Dormant(ops[b]) ==> a == b
  }

  predicate NoneAtCheckpoint(ops: Operations, item: nat) {
    forall o <- ops :: ops[o].intent.item == item ==> !AtCheckpoint(ops[o])
  }

  lemma ApplyKeepsOneOpen(c: Companion, net: set<Request>, past: set<Collection>, a: Operations, b: Operations, o: Id,
                          item: nat)
    requires SystemOk(c, net, past, a) && Adds(a, b, o, item) && OneOpen(a)
    requires b != a ==> PriorAdmits(a, item) && NoneAtCheckpoint(a, item)
    ensures OneOpen(b)
  {
    hide Inv, OpOk, Dormant, Admitted;
    if b != a {
      forall q <- a | a[q].intent.item == item ensures Dormant(a[q]) {
        assert OpOk(c.ledger, net, past, a[q]);
        AdmittedExactly(c.ledger, net, past, a[q]);
      }
      forall x <- b, y <- b | b[x].intent.item == b[y].intent.item && !Dormant(b[x]) && !Dormant(b[y]) ensures x == y {
        if x != o { assert x in a && b[x] == a[x]; }
        if y != o { assert y in a && b[y] == a[y]; }
      }
    } else {
      assert forall q <- a :: b[q] == a[q];
    }
  }

  lemma ReconcileKeepsOneOpen(a: Operations, b: Operations, o: Id)
    requires Touches(a, b, o) && (Dormant(a[o]) ==> Dormant(b[o])) && OneOpen(a)
    ensures OneOpen(b)
  {
    hide Dormant;
    forall x <- b, y <- b | b[x].intent.item == b[y].intent.item && !Dormant(b[x]) && !Dormant(b[y]) ensures x == y {
      assert b[x].intent == a[x].intent && b[y].intent == a[y].intent;
      assert !Dormant(a[x]) && !Dormant(a[y]);
    }
  }

  lemma InertMain(j: J.Journal)
    requires JournalOk(j) && Inert(j) && j.steps != []
    ensures var last := j.steps[|j.steps| - 1]; last.state.IntentRecorded? || last.state.ObservedFailure?
  {
    assert j.steps[|j.steps| - 1] in j.steps;
    if j.state.NeedsRecovery? { FailureIsLast(j); }
  }

  lemma DormantHasNoMain(c: Companion, net: set<Request>, past: set<Collection>, op: Operation)
    requires Inv(c) && OpOk(c.ledger, net, past, op) && Dormant(op)
    ensures op.intent.steps != [] && forall e <- c.log :: e.key.id != MainStep(op.intent).id
  {
    hide Inv, JournalOk, Unsent, NoEffectEver, Inert, FinallyWitnessed, Witnessed;
    var n := |op.intent.steps| - 1;
    var s := op.intent.steps[n];
    assert Bound(c.ledger, net, op.intent, s);
    if op.journal.Some? {
      InertMain(op.journal.value);
      assert StepOk(c.ledger, net, past, op.intent, s, op.journal.value.steps[n]);
    }
    hide OpOk, StepOk, Bound;
    forall e <- c.log ensures e.key.id != s.id {
      if e.key.id == s.id {
        OwnEntry(c, net, op.intent, s, e);
        if Unsent(c.ledger, net, s.id) {
          UnsentNoEntry(c, net, s.id);
        } else {
          NoEffectNoEntry(c, net, KeyOf(op.intent, s));
        }
      }
    }
  }

  /** Whichever two attempts at one item made their main effect, it is the same attempt and the same entry. */
  ghost predicate AppliedOnce(log: seq<Entry>, ops: Operations) {
    forall a <- ops, b <- ops, i, j | 0 <= i < |log| && 0 <= j < |log| ::
      (IsMain(ops[a], log[i]) && IsMain(ops[b], log[j]) && ops[a].intent.item == ops[b].intent.item)
          ==> a == b && i == j
  }

  /** The entry is the effect of the attempt's main step. */
  predicate IsMain(op: Operation, e: Entry) {
    op.intent.steps != [] && e.key.id == MainStep(op.intent).id
  }

  /** The main effect of one item is in the log at most once, over all its attempts. */
  lemma ItemAppliedOnce(c: Companion, net: set<Request>, past: set<Collection>, ops: Operations)
    requires SystemOk(c, net, past, ops) && OneOpen(ops)
    ensures forall a <- ops :: ops[a].intent.steps != []
    ensures AppliedOnce(c.log, ops)
  {
    hide Inv, OpOk, Dormant;
    forall a <- ops ensures ops[a].intent.steps != [] { OpIs(c, net, past, ops, a); PlannedLast(ops[a].intent); }
    forall a <- ops, b <- ops, i, j | 0 <= i < |c.log| && 0 <= j < |c.log| && IsMain(ops[a], c.log[i])
                                      && IsMain(ops[b], c.log[j]) && ops[a].intent.item == ops[b].intent.item
      ensures a == b && i == j
    {
      MainIsOpen(c, net, past, ops, a, i);
      MainIsOpen(c, net, past, ops, b, j);
      assert a == b;
      StepEffectOnce(c, net, past, ops, a, MainStep(ops[a].intent), i, j);
    }
  }

  lemma MainIsOpen(c: Companion, net: set<Request>, past: set<Collection>, ops: Operations, a: Id, i: nat)
    requires SystemOk(c, net, past, ops) && a in ops && ops[a].intent.steps != [] && i < |c.log|
    requires c.log[i].key.id == MainStep(ops[a].intent).id
    ensures !Dormant(ops[a])
  {
    hide Inv, OpOk;
    OpIs(c, net, past, ops, a);
    SystemInv(c, net, past, ops);
    if Dormant(ops[a]) { DormantHasNoMain(c, net, past, ops[a]); }
  }

  /** A client that has done nothing yet, beside a fresh companion. */
  lemma FreshSystem(col: Collection)
    ensures SystemOk(Fresh(col), {}, {}, map[]) && OneOpen(map[])
  {
    FreshInv(col);
  }

  // ---------------------------------------------------------------- any sequence of commands

  datatype Command = ApplyOne(plan: Plan) | Reconcile(operation: Id, apply: bool, rebind: Option<Rebind>) | Meanwhile

  /** What one command does to the published operations. */
  ghost predicate Turned(a: Operations, b: Operations, command: Command) {
    match command
    case ApplyOne(plan) => (exists o :: Adds(a, b, o, plan.item)) && (b != a ==> PriorAdmits(a, plan.item))
    case Reconcile(o, _, _) => if o in a then Touches(a, b, o) && (Dormant(a[o]) ==> Dormant(b[o])) else b == a
    case Meanwhile => b == a
  }

  /** The operations before the first command and after each one. */
  ghost predicate Ran(states: seq<Operations>, commands: seq<Command>) {
    |states| == |commands| + 1 && forall i | 0 <= i < |commands| :: Turned(states[i], states[i + 1], commands[i])
  }

  /** No command starts an attempt while an earlier one of its item stands at its checkpoint. */
  ghost predicate NoneOverCheckpoint(states: seq<Operations>, commands: seq<Command>)
    requires |states| == |commands| + 1
  {
    forall i | 0 <= i < |commands| && commands[i].ApplyOne? :: NoneAtCheckpoint(states[i], commands[i].plan.item)
  }

  /** Any commands, in any order, under any script of interference, losses and crashes: the invariant holds
      afterwards, and with it truthful failures, sound commits and one effect per step.  If no command
      started a new attempt while an earlier one of its item stood at its checkpoint, every item was applied
      at most once. */
  method Campaign(p: Client, commands: seq<Command>) returns (ghost states: seq<Operations>)
    requires p.Valid()
    modifies p
    ensures p.Valid()
    ensures Ran(states, commands) && states[0] == old(p.ops) && states[|commands|] == p.ops
    ensures OneOpen(states[0]) && NoneOverCheckpoint(states, commands)
            ==> OneOpen(p.ops) && AppliedOnce(p.companion.log, p.ops)
  {
    hide SystemOk, Inv, OpOk, OneOpen, Adds, Touches, Dormant, PriorAdmits, NoneAtCheckpoint, AppliedOnce;
    states := [p.ops];
    for i := 0 to |commands|
      invariant p.Valid() && Ran(states, commands[..i]) && states[0] == old(p.ops) && states[i] == p.ops
      invariant OneOpen(states[0]) && NoneOverCheckpoint(states, commands[..i]) ==> OneOpen(p.ops)
    {
      ghost var ops, so := p.ops, OneOpen(states[0]) && NoneOverCheckpoint(states + [p.ops], commands[..i + 1]);
      assert so ==> NoneOverCheckpoint(states, commands[..i]);
      CampaignTurn(p, commands[i]);
      states := states + [p.ops];
    }
    assert commands[..|commands|] == commands;
    if OneOpen(p.ops) { ItemAppliedOnce(p.companion, p.net, p.past, p.ops); }
  }

  /** One command. */
  method CampaignTurn(p: Client, command: Command)
    requires p.Valid()
    modifies p
    ensures p.Valid() && Turned(old(p.ops), p.ops, command)
    ensures old(OneOpen(p.ops)) && (command.ApplyOne? ==> NoneAtCheckpoint(old(p.ops), command.plan.item))
            ==> OneOpen(p.ops)
  {
    hide SystemOk, Inv, OpOk, OneOpen, Adds, Touches, Dormant, PriorAdmits, NoneAtCheckpoint;
    ghost var c, net, past, ops := p.companion, p.net, p.past, p.ops;
    match command {
      case ApplyOne(plan) =>
        var flow, o := ApplyItem(p, plan);
        assert Adds(ops, p.ops, o, plan.item);
        if OneOpen(ops) && NoneAtCheckpoint(ops, plan.item) {
          ApplyKeepsOneOpen(c, net, past, ops, p.ops, o, plan.item);
        }
      case Reconcile(o, apply, rebind) =>
        if o in p.ops {
          var flow := ReconcileOperation(p, o, apply, rebind, 0);
          if OneOpen(ops) { ReconcileKeepsOneOpen(ops, p.ops, o); }
        }
      case Meanwhile => var turn := p.Pause();
    }
  }

  /** From the first start of both sides: unless a command started an attempt over one that stood at its
      checkpoint, no item was applied twice. */
  method CampaignFromStart(col: Collection, turns: seq<Turn>, commands: seq<Command>)
    returns (p: Client, ghost states: seq<Operations>)
    ensures p.Valid() && Ran(states, commands) && states[0] == map[] && states[|commands|] == p.ops
    ensures NoneOverCheckpoint(states, commands) ==> AppliedOnce(p.companion.log, p.ops)
  {
    hide AppliedOnce, NoneOverCheckpoint, Ran;
    FreshSystem(col);
    p := new Client(Fresh(col), {}, map[], turns);
    states := Campaign(p, commands);
  }
}
