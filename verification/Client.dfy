/** The command line's port and store, with the world around them.  `script` says what
    happens around each call: what others do before and after it, and whether the call, its reply or the
    process is lost.  Where nobody acts after an accepted request, its callback runs.  An empty script is an
    undisturbed world.  Every method keeps `Valid`, so the
    invariant of module `System` holds after any sequence of commands under any script. */
module Client {
  import opened Wrappers
  import opened Anki
  import opened Effects
  import opened Readback
  import opened Ledger
  import opened LedgerLaws
  import opened Companion
  import opened CompanionLaws
  import opened System
  import opened Moves
  import opened Serving
  import J = Journal

  /** `Late` kills the process after the call took effect; `Undelivered` and `Unheard` lose the request and
      the reply. */
  datatype Fate = Fine | Killed | Late | Refusing | Undelivered | Unheard

  datatype Turn = Turn(before: seq<Label>, fate: Fate, scheduled: bool, after: seq<Label>)

  /** Nobody else acts around the call; at most it, its reply or the process is lost. */
  predicate Cuts(t: Turn) {
    t.before == [] && t.after == [] && t.scheduled && !t.fate.Refusing?
  }

  predicate OnlyCuts(script: seq<Turn>) {
    forall t <- script :: Cuts(t)
  }

  datatype Answer<+T> = Dead | Failed | Got(value: T)

  /** The port's answer to a mutation: the row's settled state, a refusal that queued nothing, or neither. */
  datatype Reply = Lost | Rejected(reason: string) | Ambiguous | Settled(state: State)

  /** A step or command goes on, stops with its reason journaled, or is cut off. */
  datatype Flow = Goes | Stops | Dies

  ghost predicate Onward(a: Companion, b: Companion, net: set<Request>, own: set<Id>) {
    Inv(b) && Forward(a, b) && Later(a.ledger, b.ledger, net, own)
  }

  lemma OnwardItself(c: Companion, net: set<Request>, own: set<Id>)
    requires Inv(c)
    ensures Onward(c, c, net, own)
  {
    hide Inv;
    LaterItself(c.ledger, net, own);
  }

  lemma OnwardTransitive(a: Companion, b: Companion, c: Companion, net: set<Request>, more: set<Request>, own: set<Id>)
    requires Onward(a, b, net, own) && Onward(b, c, more, own) && net <= more
    ensures Onward(a, c, more, own)
  {
    hide Inv, Extends;
    forall k <- b.ledger.rows ensures k in a.ledger.rows || RowArrived(k, b.ledger.rows[k], more, own) {
      if k !in a.ledger.rows { assert RowArrived(k, b.ledger.rows[k], net, own); }
    }
    ForwardTransitive(a, b, c);
    LaterTransitive(a.ledger, b.ledger, c.ledger, more, own);
  }

  /** Only this operation's journal and receipt may change. */
  ghost predicate SameOps(a: Operations, b: Operations, o: Id) {
    && o in a && b.Keys == a.Keys && (forall p <- a :: p != o ==> b[p] == a[p])
    && b[o] == a[o].(journal := b[o].journal, receipt := b[o].receipt)
    && a[o].journal.Some? && b[o].journal.Some?
  }

  function StepAt(ops: Operations, o: Id, i: nat): J.Step
    requires o in ops && ops[o].journal.Some? && i < |ops[o].journal.value.steps|
  {
    ops[o].journal.value.steps[i]
  }

  class Client {
    var companion: Companion
    var net: set<Request>
    var ops: Operations
    var script: seq<Turn>
    ghost var past: set<Collection>
    /** Whether the script does nothing but cut calls off. */
    ghost const cutsOnly: bool

    ghost predicate Valid()
      reads this
    {
      SystemOk(companion, net, past, ops) && (cutsOnly ==> OnlyCuts(script))
    }

    constructor (c: Companion, ghost seen: set<Collection>, start: Operations, turns: seq<Turn>)
      requires SystemOk(c, {}, seen, start)
      ensures Valid() && companion == c && net == {} && ops == start && script == turns && past == seen
      ensures cutsOnly == OnlyCuts(turns)
    {
      companion, net, ops, script, past, cutsOnly := c, {}, start, turns, seen, OnlyCuts(turns);
    }

    /** The operation has a journal, with a step at `i`. */
    ghost predicate Has(o: Id, i: nat)
      reads this
    {
      o in ops && ops[o].journal.Some? && i < |ops[o].intent.steps| == |ops[o].journal.value.steps|
    }

    // -------------------------------------------------------------- the port and the store

    /** What others do until the next call. */
    method Pause() returns (turn: Turn)
      requires Valid()
      modifies `companion, `script
      ensures Valid() && Onward(old(companion), companion, net, OwnIds(ops))
      ensures old(script) == [] ==> script == [] && companion == old(companion) && turn == Turn([], Fine, true, [])
      ensures cutsOnly ==> companion == old(companion) && Cuts(turn)
    {
      hide Inv, OpOk, Interfere;
      if script == [] {
        OnwardItself(companion, net, OwnIds(ops));
        return Turn([], Fine, true, []);
      }
      ghost var before := companion;
      turn, script := script[0], script[1..];
      assert turn in old(script);
      NobodyActs(companion, net, OwnIds(ops));
      companion := Interfere(companion, net, OwnIds(ops), turn.before);
      InterfereLater(before, net, OwnIds(ops), turn.before);
      SystemStays(before, companion, net, past, past, ops);
    }

    /** The user edits the collection between two commands. */
    method Edit(col: Collection)
      requires Valid() && companion.exec.Idle? && WellFormed(col)
      modifies `companion
      ensures Valid() && companion == old(companion).(col := col)
    {
      hide Inv, OpOk, WellFormed;
      ghost var before := companion;
      ApplyLater(before, UserEdit(col), net, OwnIds(ops));
      companion := companion.(col := col);
      assert companion == Apply(before, UserEdit(col));
      SystemStays(before, companion, net, past, past, ops);
    }

    /** Append one journal version; the process may die first, or the append fail. */
    method Advance(o: Id, j: J.Journal) returns (ok: bool)
      requires Valid() && o in ops && ops[o].journal.Some?
      requires J.Legal(ops[o].journal.value, j) && OpOk(companion.ledger, net, past, WithJournal(ops[o], j))
      modifies `ops, `script
      ensures Valid() && OwnIds(ops) == OwnIds(old(ops))
      ensures ops == if ok then old(ops)[o := WithJournal(old(ops)[o], j)] else old(ops)
      ensures old(script) == [] ==> ok && script == []
    {
      hide Inv, OpOk;
      ok := script == [] || script[0].fate == Fine;
      if script != [] { script := script[1..]; }
      if ok {
        SystemWrites(companion, net, past, ops, o, WithJournal(ops[o], j));
        ops := ops[o := WithJournal(ops[o], j)];
      }
    }

    method SaveReceipt(o: Id, seen: Seen) returns (ok: bool)
      requires Valid() && o in ops && ops[o].journal.Some?
               && OpOk(companion.ledger, net, past, ops[o].(receipt := Some(seen)))
      modifies `ops, `script
      ensures Valid() && OwnIds(ops) == OwnIds(old(ops))
      ensures ops == if ok then old(ops)[o := old(ops)[o].(receipt := Some(seen))] else old(ops)
      ensures old(script) == [] ==> ok && script == []
    {
      hide Inv, OpOk;
      ok := script == [] || script[0].fate == Fine;
      if script != [] { script := script[1..]; }
      if ok {
        SystemWrites(companion, net, past, ops, o, ops[o].(receipt := Some(seen)));
        ops := ops[o := ops[o].(receipt := Some(seen))];
      }
    }

    /** A read on the main thread, between callbacks and in the expected session. */
    method Look(lineage: Uuid, epoch: Uuid) returns (r: Answer<Collection>)
      requires Valid()
      modifies `companion, `script, `past
      ensures Valid() && Onward(old(companion), companion, net, OwnIds(ops)) && old(past) <= past
      ensures r.Got? ==> r.value == companion.col && companion.col in past
      ensures r.Got? ==> companion.exec.Idle? && companion.session == Some(Session(lineage, epoch))
      ensures old(script) == [] ==> script == [] && companion == old(companion) && !r.Dead?
      ensures old(script) == [] && companion.exec.Idle? && companion.session == Some(Session(lineage, epoch)) ==> r.Got?
      ensures cutsOnly ==> companion == old(companion)
    {
      hide Inv, OpOk, Onward;
      var turn := Pause();
      if turn.fate == Killed || turn.fate == Late { return Dead; }
      if turn.fate != Fine || !companion.exec.Idle? || companion.session != Some(Session(lineage, epoch)) {
        return Failed;
      }
      ghost var seen := past + {companion.col};
      LaterItself(companion.ledger, net, OwnIds(ops));
      assert Inv(companion);
      SystemStays(companion, companion, net, past, seen, ops);
      past := seen;
      return Got(companion.col);
    }

    /** What the collection shows for a step. */
    method ReadOne(o: Id, i: nat, epoch: Uuid) returns (r: Answer<Reading>)
      requires Valid() && Has(o, i)
      modifies `companion, `script, `past
      ensures Valid() && Onward(old(companion), companion, net, OwnIds(ops)) && old(past) <= past
      ensures r.Got? ==> companion.col in past
                         && ReadStep(companion.col, ops[o].intent.pre, ops[o].intent.steps[i]) == Some(r.value)
      ensures r.Got? ==> companion.exec.Idle? && companion.session == Some(Session(ops[o].intent.lineage, epoch))
      ensures old(script) == [] ==> script == [] && companion == old(companion) && !r.Dead?
      ensures (old(script) == [] && companion.exec.Idle?
               && companion.session == Some(Session(ops[o].intent.lineage, epoch))
               && ReadStep(companion.col, ops[o].intent.pre, ops[o].intent.steps[i]).Some?) ==> r.Got?
      ensures cutsOnly ==> companion == old(companion)
    {
      hide Inv, OpOk, Onward, ReadStep;
      var seen := Look(ops[o].intent.lineage, epoch);
      match seen {
        case Dead => return Dead;
        case Failed => return Failed;
        case Got(col) =>
          var reading := ReadStep(col, ops[o].intent.pre, ops[o].intent.steps[i]);
          return if reading.Some? then Got(reading.value) else Failed;
      }
    }

    method NativeStatus(o: Id, i: nat) returns (r: Answer<Option<State>>)
      requires Valid() && Has(o, i)
      modifies `companion, `script
      ensures Valid() && Onward(old(companion), companion, net, OwnIds(ops))
      ensures var key := KeyOf(ops[o].intent, ops[o].intent.steps[i]);
              r.Got? ==> r.value == if key in companion.ledger.rows then Some(Status(companion.ledger.rows[key]))
                  else None
      ensures old(script) == [] ==> script == [] && companion == old(companion) && r.Got?
    {
      hide Inv, OpOk, Onward;
      var turn := Pause();
      if turn.fate == Killed || turn.fate == Late { return Dead; }
      if turn.fate != Fine { return Failed; }
      var key := KeyOf(ops[o].intent, ops[o].intent.steps[i]);
      return Got(if key in companion.ledger.rows then Some(Status(companion.ledger.rows[key])) else None);
    }

    /** A fresh native owner bound to the open session and the operation's approval. */
    method Begin(intent: Intent, epoch: Uuid) returns (r: Answer<Owned>)
      requires Valid()
      modifies `companion, `script
      ensures Valid() && Onward(old(companion), companion, net, OwnIds(ops))
      ensures old(script) == [] ==> script == []
      ensures (old(script) == [] && Resting(old(companion), intent, epoch)) ==>
                && r.Got? && Calm(companion, intent, epoch, r.value) && companion.col == old(companion).col
                && companion.log == old(companion).log && companion.ledger.rows.Keys == old(companion).ledger.rows.Keys
      ensures var token := FreshToken(old(companion).ledger.owners);
              var l := Label.Begin(intent.lineage, epoch, intent.approved, token);
              old(script) == [] ==>
                && companion == Apply(old(companion), l)
                && r == if Enabled(old(companion), l)
                        then Got(Owned(token, MaxGeneration(old(companion).ledger.owners) + 1)) else Answer.Failed
      ensures cutsOnly && Resting(old(companion), intent, epoch) ==>
                && Resting(companion, intent, epoch) && Unmoved(old(companion), companion)
                && (r.Got? ==> Calm(companion, intent, epoch, r.value))
    {
      hide Inv, OpOk, Onward, Later, Enabled, Next, Interfere, Calm;
      ghost var start := companion;
      var turn := Pause();
      ghost var paused := companion;
      if turn.fate == Killed { return Dead; }
      if turn.fate == Refusing || turn.fate == Undelivered { return Failed; }
      var token := FreshToken(companion.ledger.owners);
      var label_ := Label.Begin(intent.lineage, epoch, intent.approved, token);
      var begun := Enabled(companion, label_);
      SystemInv(companion, net, past, ops);
      RestingBegins(start, intent, epoch);
      if !begun { return Failed; }
      var owner := Owned(token, MaxGeneration(companion.ledger.owners) + 1);
      ApplyLater(companion, label_, net, OwnIds(ops));
      companion := Apply(companion, label_);
      IsOnward(paused, companion, net, OwnIds(ops));
      OnwardTransitive(start, paused, companion, net, net, OwnIds(ops));
      SystemStays(paused, companion, net, past, past, ops);
      if turn.fate == Late { return Dead; }
      return if turn.fate == Fine then Got(owner) else Failed;
    }

    /** Release the owner; its outcome is ignored. */
    method End(owner: Owned)
      requires Valid()
      modifies `companion, `script
      ensures Valid() && Onward(old(companion), companion, net, OwnIds(ops))
      ensures old(script) == [] ==> script == [] && companion == old(companion).(ledger := companion.ledger)
      ensures old(script) == [] && old(companion).exec.Idle?
              && IsCurrent(old(companion).ledger, owner.token, owner.fence)
              ==> CurrentOwner(companion.ledger).None?
      ensures cutsOnly ==> companion == old(companion).(ledger := companion.ledger)
                           && Unmoved(old(companion), companion)
    {
      hide Inv, OpOk, Onward, Later, Next, Interfere, MaxGeneration, Find, Newest;
      ghost var start := companion;
      var turn := Pause();
      ghost var paused := companion;
      if turn.fate != Fine { return; }
      SystemInv(companion, net, past, ops);
      ApplyLater(companion, Label.End(owner.token, owner.fence), net, OwnIds(ops));
      EndLogs(companion, owner);
      companion := Apply(companion, Label.End(owner.token, owner.fence));
      IsOnward(paused, companion, net, OwnIds(ops));
      OnwardTransitive(start, paused, companion, net, net, OwnIds(ops));
      SystemStays(paused, companion, net, past, past, ops);
    }

    /** Send one step's request and poll its row until it settles or the deadline passes. */
    method Mutate(o: Id, i: nat, epoch: Uuid, owner: Owned) returns (reply: Reply)
      requires Valid() && Has(o, i) && !StepAt(ops, o, i).state.IntentRecorded?
               && !StepAt(ops, o, i).state.ObservedFailure?
      modifies `companion, `net, `script
      ensures Valid() && old(net) <= net && Onward(old(companion), companion, net, OwnIds(ops))
      ensures reply.Rejected? && Unsent(old(companion).ledger, old(net), ops[o].intent.steps[i].id)
              ==> NoEffectEver(companion.ledger, net, KeyOf(ops[o].intent, ops[o].intent.steps[i]))
      ensures reply.Settled?
              ==> StatusIs(companion.ledger, KeyOf(ops[o].intent, ops[o].intent.steps[i]), reply.state)
                  && !InFlight(reply.state)
      ensures old(script) == [] ==> script == []
      ensures old(script) == [] && Awaiting(old(companion), ops[o].intent, i, epoch, owner)
              ==> reply.Settled? && reply.state.Verified?
                  && companion == Served(old(companion), RequestFor(ops[o].intent, i, epoch, owner), net, OwnIds(ops))
      ensures cutsOnly && Awaiting(old(companion), ops[o].intent, i, epoch, owner)
              ==> var served := Served(old(companion), RequestFor(ops[o].intent, i, epoch, owner), net, OwnIds(ops));
                  if reply.Settled? then reply.state.Verified? && companion == served
                  else !reply.Rejected? && companion in {old(companion), served}
      ensures var r := RequestFor(ops[o].intent, i, epoch, owner);
              old(script) == [] && r.key !in old(companion).ledger.rows && !r.body.ExportCheckpoint?
              ==> Answers(old(companion), r, net, OwnIds(ops), companion, reply)
    {
      hide Inv, OpOk, Onward, Later, ReadStep, Accepts, Perform, ReadsBack, Interfere, Enabled, Next, Unsent,
           NoEffectEver, Awaiting, SystemOk, Extends, Calm, Ready, SubmitCall;
      ghost var start := companion;
      var own := OwnIds(ops);
      var r := RequestFor(ops[o].intent, i, epoch, owner);
      SystemInv(companion, net, past, ops);
      var turn := Pause();
      ghost var paused := companion;
      SystemInv(companion, net, past, ops);
      StillUnsent(start, paused, net, own, ops, o, i);
      if turn.fate == Killed { return Lost; }
      if turn.fate == Refusing { return Rejected("refused before sending"); }
      SystemSends(companion, net, past, ops, o, i, r);
      OnwardMore(start, paused, net, r, own);
      if turn.fate == Undelivered || !companion.exec.Idle? {
        net := net + {r};
        CalmIsIdle(start, ops[o].intent, i, epoch, owner);
        return Ambiguous;
      }
      var call := SubmitCall(companion, r);
      if call.Err? {
        CalmAccepts(start, ops[o].intent, i, epoch, owner);
        if turn.fate != Fine { net := net + {r}; return Ambiguous; }
        return Rejected("refused by the companion");
      }
      net := net + {r};
      companion := Apply(companion, Submit(r, turn.scheduled));
      ApplyLater(paused, Submit(r, turn.scheduled), net, own);
      ghost var accepted := companion;
      AcceptedRow(paused, r, turn.scheduled);
      var labels := if turn.after == [] then ServeLabels(companion, r.key) else turn.after;
      companion := Interfere(companion, net, own, labels);
      InterfereLater(accepted, net, own, labels);
      IsOnward(paused, accepted, net, own);
      IsOnward(accepted, companion, net, own);
      OnwardSteps(start, paused, accepted, companion, net, own);
      SystemStays(paused, companion, net, past, past, ops);
      RowsStay(accepted.ledger, companion.ledger, r.key);
      CalmServed(start, net, own, ops[o].intent, i, epoch, owner);
      NewIsSettled(paused, net, own, r);
      if turn.fate == Late { return Lost; }
      if turn.fate != Fine { return Ambiguous; }
      var state := Status(companion.ledger.rows[r.key]);
      if InFlight(state) { return Ambiguous; }
      return Settled(state);
    }
  }

  /** The companion after a restart, or between operations: nobody is at work in the open session. */
  ghost predicate Resting(c: Companion, intent: Intent, epoch: Uuid) {
    && c.exec.Idle? && c.exporting.None? && c.session == Some(Session(intent.lineage, epoch))
    && c.live == {} && c.callbacks == {}
  }

  /** A step no request was accepted for is ready, and the client's owner clears it. */
  ghost predicate Awaiting(c: Companion, intent: Intent, i: nat, epoch: Uuid, owner: Owned) {
    && i < |intent.steps| && Calm(c, intent, epoch, owner) && Ready(c.col, intent, i)
    && KeyOf(intent, intent.steps[i]) !in c.ledger.rows
  }

  /** The undisturbed answer to a new request: no answer while a callback runs, a refusal that changed nothing, or
      the state in which the callback left the row. */
  ghost predicate Answers(c: Companion, r: Request, net: set<Request>, own: set<Id>, d: Companion, reply: Reply) {
    if !c.exec.Idle? then reply.Ambiguous? && d == c
    else if SubmitCall(c, r).Err? then reply.Rejected? && d == c
    else d == Served(c, r, net, own) && r.key in d.ledger.rows && reply == Settled(Status(d.ledger.rows[r.key]))
  }

  lemma NewIsSettled(c: Companion, net: set<Request>, own: set<Id>, r: Request)
    requires Inv(c) && c.exec.Idle? && SubmitCall(c, r).Ok?
    ensures r.key !in c.ledger.rows && !r.body.ExportCheckpoint? ==>
              r.key in Served(c, r, net, own).ledger.rows
              && !InFlight(Status(Served(c, r, net, own).ledger.rows[r.key]))
  {
    hide Inv, Accepts, Served, SubmitCall, Perform, ReadsBack;
    if r.key !in c.ledger.rows && !r.body.ExportCheckpoint? { ServedAny(c, net, own, r); }
  }

  /** No effect since, and no new row. */
  ghost predicate Unmoved(a: Companion, b: Companion) {
    b.col == a.col && b.log == a.log && b.ledger.rows.Keys == a.ledger.rows.Keys
  }

  function FreshToken(owners: seq<Owner>): (token: Uuid)
    ensures forall o <- owners :: o.token < token
  {
    if owners == [] then 0
    else
      var rest, last := FreshToken(owners[..|owners| - 1]), owners[|owners| - 1];
      assert forall o <- owners :: o in owners[..|owners| - 1] || o == last;
      if last.token >= rest then last.token + 1 else rest
  }

  // ---------------------------------------------------------------- lemmas of the port

  lemma EndLogs(c: Companion, owner: Owned)
    requires Inv(c)
    ensures var d := Apply(c, Label.End(owner.token, owner.fence));
            && d == c.(ledger := d.ledger) && Unmoved(c, d)
            && (c.exec.Idle? && IsCurrent(c.ledger, owner.token, owner.fence) ==> CurrentOwner(d.ledger).None?)
  {
    hide Sound, MaxGeneration, Find;
    SoundIs(c);
    EndOwnerEnds(c.ledger, owner.token, owner.fence);
    if IsCurrent(c.ledger, owner.token, owner.fence) { CurrentIsLast(c.ledger, owner.token, owner.fence); }
  }

  lemma CurrentIsLast(l: Ledger, token: Uuid, fence: nat)
    requires Sound(l) && IsCurrent(l, token, fence)
    ensures exists o <- l.owners :: o.generation == fence && o.token == token
  {
    CurrentIsIssued(l, token, fence);
    assert l.owners[|l.owners| - 1] in l.owners;
  }

  lemma NobodyActs(c: Companion, net: set<Request>, own: set<Id>)
    ensures Interfere(c, net, own, []) == c
  {}

  /** Nothing blocks a new owner while nobody is at work, and it clears whatever a crash left in flight. */
  lemma RestingBegins(c: Companion, intent: Intent, epoch: Uuid)
    requires Inv(c)
    ensures Resting(c, intent, epoch) ==>
              var token := FreshToken(c.ledger.owners);
              var l := Label.Begin(intent.lineage, epoch, intent.approved, token);
              && Enabled(c, l)
              && Calm(Apply(c, l), intent, epoch, Owned(token, MaxGeneration(c.ledger.owners) + 1))
              && Apply(c, l).col == c.col && Apply(c, l).log == c.log
              && Apply(c, l).ledger.rows.Keys == c.ledger.rows.Keys && Resting(Apply(c, l), intent, epoch)
  {
    hide Sound, Accepts, MaxGeneration, Find;
    if Resting(c, intent, epoch) {
      var token := FreshToken(c.ledger.owners);
      BeginOwnerSound(c.ledger, intent.lineage, epoch, intent.approved, token, c.live);
      var l := Label.Begin(intent.lineage, epoch, intent.approved, token);
      NewOwnerIsCurrent(c.ledger, Apply(c, l).ledger);
    }
  }

  lemma NewOwnerIsCurrent(a: Ledger, b: Ledger)
    requires Sound(a) && b.released == a.released
    requires Newest(b).Some? && Newest(b).value.generation > MaxGeneration(a.owners)
    ensures CurrentOwner(b) == Newest(b)
  {}

  lemma StillUnsent(a: Companion, b: Companion, net: set<Request>, own: set<Id>, ops: Operations, o: Id, i: nat)
    requires Onward(a, b, net, own) && own == OwnIds(ops) && o in ops && i < |ops[o].intent.steps|
    ensures var s := ops[o].intent.steps[i];
            Unsent(a.ledger, net, s.id) ==> NoEffectEver(b.ledger, net, KeyOf(ops[o].intent, s))
  {
    hide Inv;
    OwnsIds(ops, o);
    var s := ops[o].intent.steps[i];
    assert s.id in Ids(ops[o].intent);
    if Unsent(a.ledger, net, s.id) { UnsentStays(a.ledger, b.ledger, net, own, s.id); }
  }

  lemma OnwardMore(a: Companion, b: Companion, net: set<Request>, r: Request, own: set<Id>)
    requires Onward(a, b, net, own)
    ensures Onward(a, b, net + {r}, own)
  {
    hide Inv, Extends;
    forall k <- b.ledger.rows ensures k in a.ledger.rows || RowArrived(k, b.ledger.rows[k], net + {r}, own) {
      if k !in a.ledger.rows { assert RowArrived(k, b.ledger.rows[k], net, own); }
    }
  }

  lemma OnwardSteps(a: Companion, b: Companion, c: Companion, d: Companion, net: set<Request>, own: set<Id>)
    requires Onward(a, b, net, own) && Onward(b, c, net, own) && Onward(c, d, net, own)
    ensures Onward(a, d, net, own) && Later(b.ledger, d.ledger, net, own)
  {
    hide Onward;
    OnwardTransitive(a, b, c, net, net, own);
    OnwardTransitive(a, c, d, net, net, own);
    OnwardTransitive(b, c, d, net, net, own);
    assert Later(b.ledger, d.ledger, net, own) by { OnwardIsLater(b, d, net, own); }
  }

  lemma IsOnward(a: Companion, b: Companion, net: set<Request>, own: set<Id>)
    requires Later(a.ledger, b.ledger, net, own) && Inv(b) && Forward(a, b)
    ensures Onward(a, b, net, own)
  {}

  lemma OnwardIsLater(a: Companion, b: Companion, net: set<Request>, own: set<Id>)
    requires Onward(a, b, net, own)
    ensures Later(a.ledger, b.ledger, net, own) && Inv(b) && Forward(a, b)
  {}

  lemma RowsStay(a: Ledger, b: Ledger, key: Key)
    requires Extends(a, b) && key in a.rows
    ensures key in b.rows
  {}

  lemma AcceptedRow(c: Companion, r: Request, scheduled: bool)
    requires Inv(c) && c.exec.Idle? && SubmitCall(c, r).Ok?
    ensures r.key in Apply(c, Submit(r, scheduled)).ledger.rows
  {
    hide Inv;
  }

  lemma CalmIsIdle(c: Companion, intent: Intent, i: nat, epoch: Uuid, owner: Owned)
    ensures Awaiting(c, intent, i, epoch, owner) ==> c.exec.Idle?
  {}

  lemma CalmAccepts(c: Companion, intent: Intent, i: nat, epoch: Uuid, owner: Owned)
    requires Inv(c) && i < |intent.steps|
    ensures Awaiting(c, intent, i, epoch, owner) ==> SubmitCall(c, RequestFor(intent, i, epoch, owner)).Ok?
  {
    hide Inv, Accepts, Perform, ReadStep, ReadsBack, Calm;
    if Awaiting(c, intent, i, epoch, owner) {
      Submitted(c, intent, i, epoch, owner);
    }
  }

  lemma CalmServed(c: Companion, net: set<Request>, own: set<Id>, intent: Intent, i: nat, epoch: Uuid, owner: Owned)
    requires Inv(c) && i < |intent.steps|
    ensures Awaiting(c, intent, i, epoch, owner)
            ==> var r := RequestFor(intent, i, epoch, owner); var d := Served(c, r, net, own);
                r.key in d.ledger.rows && Status(d.ledger.rows[r.key]).Verified?
  {
    hide Inv, Accepts, Perform, ReadStep, ReadsBack, Calm, Ready;
    if Awaiting(c, intent, i, epoch, owner) {
      ServedCalm(c, net, own, intent, i, epoch, owner);
    }
  }
}
