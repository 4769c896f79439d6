/** The ledger as the companion runs it: rows in mutable tables, a history check that walks the events,
    and one transaction per call.  Every method is proved against the ledger functions of module
    `Ledger`; a call that fails leaves the tables as they were. */
module OperationLedger {
  import opened Wrappers
  import opened Effects
  import opened Ledger
  import opened LedgerLaws
  import Spec = Ledger

  /** The checks on one stored event: its place, its digest, its link, and the states allowed there. */
  predicate Continues(event: Event, sequence: nat, previous: Option<Digest>, state: State) {
    && event.sequence == sequence && event.digest == Digest(event.body)
    && event.body.sequence == sequence && event.body.previous == previous
    && match sequence
       case 1 => event.body.state.Queued?
       case 2 => event.body.state.Running? || event.body.state.FailedBeforeWrite?
       case 3 => state.Running? && (event.body.state.Unknown? || event.body.state.Verified?)
       case _ => false
  }

  class OperationLedger {
    var owners: seq<Owner>
    var released: set<nat>
    var rows: map<Key, Row>

    function View(): Ledger
      reads this
    {
      Ledger(owners, released, rows)
    }

    constructor ()
      ensures View() == Ledger([], {}, map[]) && Sound(View())
    {
      owners, released, rows := [], {}, map[];
    }

    /** Walks one row's events with the running previous digest and state. */
    static method CheckHistory(events: seq<Event>) returns (r: Result<State, Error>)
      ensures r == if ValidHistory(events) then Ok(events[|events| - 1].body.state) else Err(HistoryInvalid)
    {
      if !(1 <= |events| <= 3) { return Err(HistoryInvalid); }
      var previous: Option<Digest> := None;
      var state := Queued;
      assert events[..0] == [];
      for i := 0 to |events|
        invariant Walked(events, i, previous, state)
      {
        if !Continues(events[i], i + 1, previous, state) {
          WalkStops(events, i, previous, state);
          return Err(HistoryInvalid);
        }
        WalkGoesOn(events, i, previous, state);
        previous, state := Some(events[i].digest), events[i].body.state;
      }
      assert events[..|events|] == events;
      return Ok(state);
    }

    method RowStatus(key: Key) returns (r: Result<State, Error>)
      ensures r == if key !in rows then Err(NotFound)
                   else if ValidHistory(rows[key].events) then Ok(Status(rows[key])) else Err(HistoryInvalid)
    {
      if key !in rows { return Err(NotFound); }
      r := CheckHistory(rows[key].events);
    }

    method MaxFence() returns (m: nat)
      ensures m == MaxGeneration(owners)
    {
      m := 0;
      for i := 0 to |owners|
        invariant m == MaxGeneration(owners[..i])
      {
        assert owners[..i + 1][..i] == owners[..i];
        if owners[i].generation > m { m := owners[i].generation; }
      }
      assert owners[..|owners|] == owners;
    }

    method Current() returns (owner: Option<Owner>)
      ensures owner == CurrentOwner(View())
    {
      var newest := MaxFence();
      owner := None;
      for i := 0 to |owners|
        invariant owner == Find(owners[..i], newest)
      {
        assert owners[..i + 1][..i] == owners[..i];
        if owners[i].generation == newest { owner := Some(owners[i]); }
      }
      assert owners[..|owners|] == owners;
      if owner.Some? && owner.value.generation in released { FindsGeneration(owners, newest); owner := None; }
      else if owner.Some? { FindsGeneration(owners, newest); }
    }

    /** A fresh owner under the next fence.  Rows no live worker holds are closed on the way; a live one
        rolls the whole call back. */
    method BeginOwner(lineage: Uuid, epoch: Uuid, approved: Uuid, token: Uuid, live: set<Key>)
      returns (r: Result<Owner, Error>)
      modifies this
      ensures r.Err? ==> View() == old(View())
      ensures r.Ok? ==> Spec.BeginOwner(old(View()), lineage, epoch, approved, token, live) == Ok(View())
                        && owners == old(owners) + [r.value]
      ensures old(Sound(View())) ==> Sound(View())
      ensures old(Recorded(View()))
              ==> (r.Ok? <==> Spec.BeginOwner(old(View()), lineage, epoch, approved, token, live).Ok?)
    {
      hide ValidHistory, Sound, Recorded, MaxGeneration;
      ghost var before := View();
      var saved := rows;
      var todo := rows.Keys;
      while todo != {}
        invariant todo <= saved.Keys && rows.Keys == saved.Keys
        invariant forall k <- saved :: rows[k] == if k in todo then saved[k] else Orphaned(saved[k])
        invariant forall k <- saved :: k !in todo ==> !(InFlight(Status(saved[k])) && k in live)
        invariant owners == before.owners && released == before.released
      {
        var key :| key in todo;
        todo := todo - {key};
        var status := RowStatus(key);
        if status.Err? { rows := saved; InvalidRow(before, key); return Err(status.error); }
        if InFlight(status.value) {
          if key in live { rows := saved; return Err(Pending); }
          rows := rows[key := Close(rows[key], if status.value.Running? then Unknown(WorkerCrash)
                                               else FailedBeforeWrite(WorkerLostBeforeWrite))];
        }
      }
      assert rows == map k | k in saved :: Orphaned(saved[k]);
      if exists o <- owners :: o.token == token { rows := saved; return Err(IoFailed); }
      var top := MaxFence();
      var owner := Owner(top + 1, token, lineage, epoch, approved);
      owners := owners + [owner];
      if Sound(before) { BeginOwnerSound(before, lineage, epoch, approved, token, live); }
      return Ok(owner);
    }

    method EndOwner(token: Uuid, fence: nat) returns (r: Result<(), Error>)
      modifies this
      ensures r.Err? ==> View() == old(View()) && Spec.EndOwner(old(View()), token, fence).Err?
      ensures r.Ok? ==> Spec.EndOwner(old(View()), token, fence) == Ok(View())
      ensures old(Sound(View())) ==> Sound(View())
      ensures r.Ok? <==> exists o <- old(owners) :: o.generation == fence && o.token == token
      ensures r.Ok? ==> owners == old(owners) && rows == old(rows)
      ensures r.Ok? && old(Sound(View())) ==>
                Spec.CurrentOwner(View()) == (if old(Spec.IsCurrent(View(), token, fence)) then None
                                              else Spec.CurrentOwner(old(View())))
    {
      ghost var before := View();
      if Sound(before) { EndOwnerEnds(before, token, fence); }
      if !exists o <- owners :: o.generation == fence && o.token == token { return Err(OwnerUnknown); }
      if fence !in released { released := released + {fence}; }
      assert released == before.released + {fence};
      if Sound(before) { EndOwnerSound(before, token, fence); }
      return Ok(());
    }

    /** Accept one intent; the flag says whether this call inserted the row. */
    method QueueNew(request: Request) returns (r: Result<(State, bool), Error>)
      modifies this
      ensures r.Err? ==> View() == old(View())
      ensures r.Ok? ==> Spec.QueueNew(old(View()), request) == Ok((View(), r.value.1))
                        && request.key in rows && r.value.0 == Status(rows[request.key])
      ensures old(Sound(View())) ==> Sound(View())
      ensures old(Recorded(View())) ==> (r.Ok? <==> Spec.QueueNew(old(View()), request).Ok?)
    {
      ghost var before := View();
      if !ValidBody(request.body) { return Err(PayloadInvalid); }
      if request.key in rows {
        var status := RowStatus(request.key);
        if status.Err? { InvalidRow(before, request.key); return Err(status.error); }
        var row := rows[request.key];
        if row.body != request.body || row.approved != request.approved { return Err(ReplayConflict); }
        return Ok((status.value, false));
      }
      var owner := Current();
      if owner.None? || owner.value.token != request.token || owner.value.generation != request.fence {
        return Err(OwnerStale);
      }
      if owner.value.lineage != request.key.lineage || owner.value.epoch != request.epoch
         || owner.value.approved != request.approved { return Err(OwnerBindingConflict); }
      var todo := rows.Keys;
      while todo != {}
        invariant todo <= rows.Keys && View() == before
        invariant forall k <- rows :: k !in todo ==> !InFlight(Status(rows[k]))
      {
        var key :| key in todo;
        todo := todo - {key};
        var status := RowStatus(key);
        if status.Err? { InvalidRow(before, key); return Err(status.error); }
        if InFlight(status.value) { return Err(Pending); }
      }
      rows := rows[request.key := Close(Row(request.body, request.approved, request.epoch, request.token, request.fence,
                                            []), Queued)];
      if Sound(before) { QueueNewSound(before, request); }
      return Ok((Queued, true));
    }

    method OwnedStatus(key: Key, token: Uuid, fence: nat) returns (r: Result<State, Error>)
      ensures r == if key !in rows then Err(NotFound)
                   else if !ValidHistory(rows[key].events) then Err(HistoryInvalid)
                   else if !Owned(View(), key, token, fence) then Err(OwnerConflict) else Ok(Status(rows[key]))
    {
      r := RowStatus(key);
      if r.Ok? && (rows[key].token != token || rows[key].fence != fence) { r := Err(OwnerConflict); }
    }

    /** Durable `running` before any native effect; the flag says whether this call made the step. */
    method MarkRunning(key: Key, token: Uuid, fence: nat) returns (r: Result<bool, Error>)
      modifies this`rows
      ensures r.Err? ==> View() == old(View())
      ensures r.Ok? ==> Spec.MarkRunning(old(View()), key, token, fence) == Ok(View())
                        && (r.value <==> View() != old(View()))
      ensures old(Sound(View())) ==> Sound(View()) && (r.Ok? <==> Spec.MarkRunning(old(View()), key, token, fence).Ok?)
    {
      hide ValidHistory, Sound, Recorded, CurrentOwner;
      ghost var before := View();
      var status := OwnedStatus(key, token, fence);
      if status.Err? { if key in rows { InvalidRow(before, key); } return Err(status.error); }
      if status.value.Running? { return Ok(false); }
      if status.value.FailedBeforeWrite? { return Err(StateConflict); }
      if !status.value.Queued? { return Err(RequiresRecovery); }
      var owner := Current();
      if owner.None? || owner.value.token != token || owner.value.generation != fence { return Err(OwnerStale); }
      rows := rows[key := Close(rows[key], Running)];
      assert Status(rows[key]) == Running;
      if Sound(before) { MarkRunningSound(before, key, token, fence); }
      return Ok(true);
    }

    method MarkUnknown(key: Key, token: Uuid, fence: nat, doubt: Doubt) returns (r: Result<(), Error>)
      modifies this`rows
      ensures r.Err? ==> View() == old(View())
      ensures r.Ok? ==> Spec.MarkUnknown(old(View()), key, token, fence, doubt) == Ok(View())
      ensures old(Sound(View()))
              ==> Sound(View()) && (r.Ok? <==> Spec.MarkUnknown(old(View()), key, token, fence, doubt).Ok?)
    {
      hide ValidHistory, Sound, Recorded, CurrentOwner;
      ghost var before := View();
      var status := OwnedStatus(key, token, fence);
      if status.Err? { if key in rows { InvalidRow(before, key); } return Err(status.error); }
      if status.value == Unknown(doubt) { return Ok(()); }
      if !status.value.Running? { return Err(StateConflict); }
      rows := rows[key := Close(rows[key], Unknown(doubt))];
      if Sound(before) { MarkUnknownSound(before, key, token, fence, doubt); }
      return Ok(());
    }

    /** Close `running` only with a read-back receipt. */
    method MarkVerified(key: Key, token: Uuid, fence: nat, receipt: Receipt) returns (r: Result<(), Error>)
      modifies this`rows
      ensures r.Err? ==> View() == old(View())
      ensures r.Ok? ==> Spec.MarkVerified(old(View()), key, token, fence, receipt) == Ok(View())
      ensures old(Sound(View()))
              ==> Sound(View()) && (r.Ok? <==> Spec.MarkVerified(old(View()), key, token, fence, receipt).Ok?)
    {
      hide ValidHistory, Sound, Recorded, CurrentOwner;
      ghost var before := View();
      var status := OwnedStatus(key, token, fence);
      if status.Err? { if key in rows { InvalidRow(before, key); } return Err(status.error); }
      if status.value == Verified(receipt) { return Ok(()); }
      if !status.value.Running? { return Err(StateConflict); }
      rows := rows[key := Close(rows[key], Verified(receipt))];
      if Sound(before) { MarkVerifiedSound(before, key, token, fence, receipt); }
      return Ok(());
    }

    /** Close a queued request only; a running one may already have an effect. */
    method FailBeforeWrite(key: Key, token: Uuid, fence: nat, why: BeforeWrite) returns (r: Result<(), Error>)
      modifies this`rows
      ensures r.Err? ==> View() == old(View())
      ensures r.Ok? ==> Spec.FailBeforeWrite(old(View()), key, token, fence, why) == Ok(View())
      ensures old(Sound(View()))
              ==> Sound(View()) && (r.Ok? <==> Spec.FailBeforeWrite(old(View()), key, token, fence, why).Ok?)
    {
      hide ValidHistory, Sound, Recorded, CurrentOwner;
      ghost var before := View();
      var status := OwnedStatus(key, token, fence);
      if status.Err? { if key in rows { InvalidRow(before, key); } return Err(status.error); }
      if status.value == FailedBeforeWrite(why) { return Ok(()); }
      if !status.value.Queued? { return Err(StateConflict); }
      rows := rows[key := Close(rows[key], FailedBeforeWrite(why))];
      if Sound(before) { FailBeforeWriteSound(before, key, token, fence, why); }
      return Ok(());
    }
  }

  // ---------------------------------------------------------------- the history walk

  ghost predicate Walked(events: seq<Event>, i: nat, previous: Option<Digest>, state: State) {
    && i <= |events| && events[..i] == Chain(States(events[..i]))
    && (i > 0 ==> Lifecycle(States(events[..i])) && state == events[i - 1].body.state)
    && previous == if i == 0 then None else Some(events[i - 1].digest)
  }

  lemma WalkGoesOn(events: seq<Event>, i: nat, previous: Option<Digest>, state: State)
    requires i < |events| && Walked(events, i, previous, state) && Continues(events[i], i + 1, previous, state)
    ensures Walked(events, i + 1, Some(events[i].digest), events[i].body.state)
  {
    PrefixStates(events, i);
    assert events[..i] != [] ==> events[..i][i - 1] == events[i - 1];
    assert events[i] == NextEvent(events[..i], events[i].body.state);
    var states := States(events[..i + 1]);
    if i == 2 { assert States(events[..i])[1] == state && states[..2] == States(events[..i]); }
  }

  lemma WalkStops(events: seq<Event>, i: nat, previous: Option<Digest>, state: State)
    requires i < |events| && Walked(events, i, previous, state) && !Continues(events[i], i + 1, previous, state)
    ensures !ValidHistory(events)
  {
    assert events[..i] != [] ==> events[..i][i - 1] == events[i - 1];
    var states, next := States(events[..i]), events[i].body.state;
    var longer := states + [next];
    assert |states| == i && longer[i] == next && (i > 0 ==> states[i - 1] == state);
    if i == 2 { assert longer[..2] == states; }
    if i == 1 { assert longer[0] == states[0]; }
    assert NextEvent(events[..i], next).body == EventBody(i + 1, next, previous);
    assert Lifecycle(longer) ==> Continues(NextEvent(events[..i], next), i + 1, previous, state);
    NoSuchHistory(events, i);
  }

  lemma PrefixStates(events: seq<Event>, i: nat)
    requires i < |events| && events[..i] == Chain(States(events[..i]))
    ensures States(events[..i + 1]) == States(events[..i]) + [events[i].body.state]
    ensures events[i] == NextEvent(events[..i], events[i].body.state)
            ==> events[..i + 1] == Chain(States(events[..i + 1]))
  {
    assert events[..i + 1] == events[..i] + [events[i]];
    assert States(events[..i + 1])[..i] == States(events[..i]);
  }

  lemma {:induction false} ChainPrefix(states: seq<State>, i: nat)
    requires i <= |states|
    ensures Chain(states)[..i] == Chain(states[..i])
    decreases |states|
  {
    if i < |states| {
      ChainPrefix(states[..|states| - 1], i);
      assert states[..|states| - 1][..i] == states[..i];
    } else {
      assert states[..i] == states;
    }
  }

  lemma LifecyclePrefix(states: seq<State>, i: nat)
    requires Lifecycle(states) && i < |states|
    ensures Lifecycle(states[..i] + [states[i]])
  {
    if |states| == 3 { assert states[..2] == [states[0], states[1]]; }
  }

  lemma ChainAt(states: seq<State>, i: nat)
    requires i < |states|
    ensures Chain(states[..i + 1]) == Chain(states[..i]) + [NextEvent(Chain(states[..i]), states[i])]
  {
    assert states[..i + 1][..i] == states[..i];
  }

  lemma ValidPrefix(events: seq<Event>, i: nat)
    requires ValidHistory(events) && i < |events|
    ensures events[i] == NextEvent(events[..i], events[i].body.state)
    ensures Lifecycle(States(events[..i]) + [events[i].body.state])
  {
    var states := States(events);
    assert States(events[..i]) == states[..i] && states[i] == events[i].body.state;
    hide States, Chain, NextEvent, Lifecycle;
    LifecyclePrefix(states, i);
    ChainPrefix(states, i);
    ChainPrefix(states, i + 1);
    ChainAt(states, i);
    assert events[i] == events[..i + 1][i];
  }

  /** An event that is not the chained next one, or not an allowed state, rules the history out. */
  lemma NoSuchHistory(events: seq<Event>, i: nat)
    requires i < |events|
    requires events[i] != NextEvent(events[..i], events[i].body.state)
             || !Lifecycle(States(events[..i]) + [events[i].body.state])
    ensures !ValidHistory(events)
  {
    if ValidHistory(events) { ValidPrefix(events, i); }
  }

  lemma {:induction false} FindsGeneration(owners: seq<Owner>, generation: nat)
    ensures Find(owners, generation).Some? ==> Find(owners, generation).value.generation == generation
  {
    if owners != [] { FindsGeneration(owners[..|owners| - 1], generation); }
  }

  lemma InvalidRow(l: Ledger, key: Key)
    requires key in l.rows
    ensures !ValidHistory(l.rows[key].events) ==> !Recorded(l) && !Sound(l)
  {
    if Recorded(l) { assert RecordedRow(key, l.rows[key], l.owners); }
  }
}
