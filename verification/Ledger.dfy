/** The companion's durable operation ledger as a value: append-only owner, release, operation and
    event rows, and each ledger call as a function that either fails without any change or returns
    the new ledger. */
module Ledger {
  import opened Wrappers
  import opened Anki
  import opened Effects

  type Uuid = nat

  datatype Key = Key(lineage: Uuid, id: Uuid)

  datatype BeforeWrite =
    PreflightRejected | OperatorCancelled | SessionChanged | CheckpointFailed | WorkerLostBeforeWrite
  datatype Doubt = TransportAmbiguous | WorkerCrash | ObservationIncomplete

  /** Read-back evidence that closes a row as verified. */
  datatype Receipt = NoteReceipt(nid: NoteId, content: Content) | RemovedReceipt(nid: NoteId)
                   | MediaReceipt(filename: string, media: Media) | ExportReceipt(size: nat)

  datatype State =
    Queued | Running | FailedBeforeWrite(why: BeforeWrite) | Unknown(doubt: Doubt) | Verified(receipt: Receipt)

  /** An event's digest stands for its whole body, the previous event's digest included. */
  datatype Digest = Digest(body: EventBody)
  datatype EventBody = EventBody(sequence: nat, state: State, previous: Option<Digest>)
  datatype Event = Event(sequence: nat, digest: Digest, body: EventBody)

  datatype Row = Row(body: Body, approved: Uuid, epoch: Uuid, token: Uuid, fence: nat, events: seq<Event>)
  datatype Owner = Owner(generation: nat, token: Uuid, lineage: Uuid, epoch: Uuid, approved: Uuid)
  datatype Ledger = Ledger(owners: seq<Owner>, released: set<nat>, rows: map<Key, Row>)

  datatype Error = NotFound | HistoryInvalid | ReplayConflict | OwnerStale | OwnerBindingConflict | OwnerUnknown
                 | PayloadInvalid | Pending | OwnerConflict | StateConflict | RequiresRecovery | IoFailed

  // ---------------------------------------------------------------- histories

  predicate InFlight(state: State) {
    state.Queued? || state.Running?
  }

  function NextEvent(events: seq<Event>, state: State): Event {
    var previous := if events == [] then None else Some(events[|events| - 1].digest);
    var body := EventBody(|events| + 1, state, previous);
    Event(|events| + 1, Digest(body), body)
  }

  /** The history with these states, chained by digests. */
  function Chain(states: seq<State>): seq<Event>
    ensures |Chain(states)| == |states|
  {
    if states == [] then []
    else var rest := Chain(states[..|states| - 1]); rest + [NextEvent(rest, states[|states| - 1])]
  }

  function States(events: seq<Event>): seq<State> {
    seq(|events|, i requires 0 <= i < |events| => events[i].body.state)
  }

  /** The five histories a row can have. */
  predicate Lifecycle(states: seq<State>) {
    || states == [Queued]
    || states == [Queued, Running]
    || (|states| == 2 && states[0] == Queued && states[1].FailedBeforeWrite?)
    || (|states| == 3 && states[..2] == [Queued, Running] && (states[2].Verified? || states[2].Unknown?))
  }

  predicate ValidHistory(events: seq<Event>) {
    Lifecycle(States(events)) && events == Chain(States(events))
  }

  function Status(row: Row): State {
    if row.events == [] then Queued else row.events[|row.events| - 1].body.state
  }

  function Close(row: Row, state: State): Row {
    row.(events := row.events + [NextEvent(row.events, state)])
  }

  // ---------------------------------------------------------------- owners

  function MaxGeneration(owners: seq<Owner>): nat {
    if owners == [] then 0
    else
      var rest := MaxGeneration(owners[..|owners| - 1]);
      if owners[|owners| - 1].generation > rest then owners[|owners| - 1].generation else rest
  }

  function Find(owners: seq<Owner>, generation: nat): Option<Owner> {
    if owners == [] then None
    else if owners[|owners| - 1].generation == generation then Some(owners[|owners| - 1])
    else Find(owners[..|owners| - 1], generation)
  }

  /** The owner of the highest generation, released or not. */
  function Newest(l: Ledger): Option<Owner> {
    Find(l.owners, MaxGeneration(l.owners))
  }

  function CurrentOwner(l: Ledger): Option<Owner> {
    var owner := Newest(l);
    if owner.Some? && owner.value.generation !in l.released then owner else None
  }

  predicate IsCurrent(l: Ledger, token: Uuid, fence: nat) {
    var owner := CurrentOwner(l);
    owner.Some? && owner.value.token == token && owner.value.generation == fence
  }

  /** An in-flight row whose worker is gone: it never started its effect, or it may have. */
  function Orphaned(row: Row): Row {
    match Status(row)
    case Queued => Close(row, FailedBeforeWrite(WorkerLostBeforeWrite))
    case Running => Close(row, Unknown(WorkerCrash))
    case _ => row
  }

  function BeginOwner(l: Ledger, lineage: Uuid, epoch: Uuid, approved: Uuid, token: Uuid,
                      live: set<Key>): Result<Ledger, Error> {
    if exists k <- l.rows :: InFlight(Status(l.rows[k])) && k in live then Err(Pending)
    else if exists o <- l.owners :: o.token == token then Err(IoFailed)
    else
      var owner := Owner(MaxGeneration(l.owners) + 1, token, lineage, epoch, approved);
      Ok(l.(owners := l.owners + [owner], rows := map k | k in l.rows :: Orphaned(l.rows[k])))
  }

  function EndOwner(l: Ledger, token: Uuid, fence: nat): Result<Ledger, Error> {
    if exists o <- l.owners :: o.generation == fence && o.token == token then Ok(l.(released := l.released + {fence}))
    else Err(OwnerUnknown)
  }

  // ---------------------------------------------------------------- operations

  datatype Request = Request(key: Key, body: Body, approved: Uuid, epoch: Uuid, token: Uuid, fence: nat)

  function RequireOwner(l: Ledger, r: Request): Option<Error> {
    if !IsCurrent(l, r.token, r.fence) then Some(OwnerStale)
    else
      var owner := CurrentOwner(l).value;
      if owner.lineage != r.key.lineage || owner.epoch != r.epoch || owner.approved != r.approved
          then Some(OwnerBindingConflict)
      else None
  }

  /** Accept one typed intent; the flag says whether this call inserted the row. */
  function QueueNew(l: Ledger, r: Request): Result<(Ledger, bool), Error> {
    if !ValidBody(r.body) then Err(PayloadInvalid)
    else if r.key in l.rows then
      var row := l.rows[r.key];
      if row.body != r.body || row.approved != r.approved then Err(ReplayConflict) else Ok((l, false))
    else if RequireOwner(l, r).Some? then Err(RequireOwner(l, r).value)
    else if exists k <- l.rows :: InFlight(Status(l.rows[k])) then Err(Pending)
    else Ok((l.(rows := l.rows[r.key := Close(Row(r.body, r.approved, r.epoch, r.token, r.fence, []), Queued)]), true))
  }

  predicate Owned(l: Ledger, key: Key, token: Uuid, fence: nat) {
    key in l.rows && l.rows[key].token == token && l.rows[key].fence == fence
  }

  function OwnedError(l: Ledger, key: Key): Error {
    if key !in l.rows then NotFound else OwnerConflict
  }

  function Append(l: Ledger, key: Key, state: State): Ledger
    requires key in l.rows
  {
    l.(rows := l.rows[key := Close(l.rows[key], state)])
  }

  function MarkRunning(l: Ledger, key: Key, token: Uuid, fence: nat): Result<Ledger, Error> {
    if !Owned(l, key, token, fence) then Err(OwnedError(l, key))
    else match Status(l.rows[key])
      case Running => Ok(l)
      case FailedBeforeWrite(_) => Err(StateConflict)
      case Queued => if IsCurrent(l, token, fence) then Ok(Append(l, key, Running)) else Err(OwnerStale)
      case _ => Err(RequiresRecovery)
  }

  function MarkUnknown(l: Ledger, key: Key, token: Uuid, fence: nat, doubt: Doubt): Result<Ledger, Error> {
    if !Owned(l, key, token, fence) then Err(OwnedError(l, key))
    else if Status(l.rows[key]) == Unknown(doubt) then Ok(l)
    else if !Status(l.rows[key]).Running? then Err(StateConflict)
    else Ok(Append(l, key, Unknown(doubt)))
  }

  function MarkVerified(l: Ledger, key: Key, token: Uuid, fence: nat, receipt: Receipt): Result<Ledger, Error> {
    if !Owned(l, key, token, fence) then Err(OwnedError(l, key))
    else if Status(l.rows[key]) == Verified(receipt) then Ok(l)
    else if !Status(l.rows[key]).Running? then Err(StateConflict)
    else Ok(Append(l, key, Verified(receipt)))
  }

  function FailBeforeWrite(l: Ledger, key: Key, token: Uuid, fence: nat, why: BeforeWrite): Result<Ledger, Error> {
    if !Owned(l, key, token, fence) then Err(OwnedError(l, key))
    else if Status(l.rows[key]) == FailedBeforeWrite(why) then Ok(l)
    else if !Status(l.rows[key]).Queued? then Err(StateConflict)
    else Ok(Append(l, key, FailedBeforeWrite(why)))
  }

  // ---------------------------------------------------------------- laws of histories

  lemma {:induction false} ChainStates(states: seq<State>)
    ensures States(Chain(states)) == states
  {
    if states != [] {
      var head := states[..|states| - 1];
      ChainStates(head);
      var events := Chain(states);
      forall i | 0 <= i < |states| ensures events[i].body.state == states[i] {
        if i < |head| { assert States(Chain(head))[i] == events[i].body.state; }
      }
    }
  }

  /** The digest of the last event pins every event before it. */
  lemma {:induction false} LastDigestPinsHistory(a: seq<State>, b: seq<State>)
    requires a != [] && b != []
    requires Chain(a)[|a| - 1].digest == Chain(b)[|b| - 1].digest
    ensures a == b
    decreases |a|
  {
    var x, y := a[..|a| - 1], b[..|b| - 1];
    assert Chain(a) == Chain(x) + [NextEvent(Chain(x), a[|a| - 1])];
    assert Chain(b) == Chain(y) + [NextEvent(Chain(y), b[|b| - 1])];
    if x != [] && y != [] {
      LastDigestPinsHistory(x, y);
    }
    assert a == x + [a[|a| - 1]] && b == y + [b[|b| - 1]];
  }

  lemma CloseExtends(events: seq<Event>, state: State)
    requires ValidHistory(events) && Lifecycle(States(events) + [state])
    ensures ValidHistory(events + [NextEvent(events, state)])
    ensures States(events + [NextEvent(events, state)]) == States(events) + [state]
  {
    var longer := events + [NextEvent(events, state)];
    assert States(longer) == States(events) + [state];
    assert (States(events) + [state])[..|events|] == States(events);
  }

  /** The status decides the whole history. */
  lemma StatusDecides(row: Row)
    requires ValidHistory(row.events)
    ensures match Status(row)
            case Queued => States(row.events) == [Queued]
            case Running => States(row.events) == [Queued, Running]
            case FailedBeforeWrite(_) => States(row.events) == [Queued, Status(row)]
            case _ => States(row.events) == [Queued, Running, Status(row)]
  {
    var states := States(row.events);
    assert |states| > 0 && states[|states| - 1] == Status(row);
  }

  /** Legal moves of a row. */
  predicate Moves(from: State, to: State) {
    || from == to
    || (from.Queued? && (to.Running? || to.FailedBeforeWrite?))
    || (from.Running? && (to.Unknown? || to.Verified?))
  }

  lemma CloseMoves(row: Row, state: State)
    requires ValidHistory(row.events) && Moves(Status(row), state) && state != Status(row)
    ensures ValidHistory(Close(row, state).events) && Status(Close(row, state)) == state
  {
    StatusDecides(row);
    CloseExtends(row.events, state);
  }

  lemma FirstEvent(row: Row)
    requires row.events == []
    ensures ValidHistory(Close(row, Queued).events) && Status(Close(row, Queued)) == Queued
  {
    var events := Close(row, Queued).events;
    assert States(events) == [Queued] && Chain([]) == [];
    assert [Queued][..0] == [];
  }

  // ---------------------------------------------------------------- laws of owners

  lemma {:induction false} NewestIsMax(owners: seq<Owner>)
    ensures forall o <- owners :: o.generation <= MaxGeneration(owners)
    ensures owners != [] && (forall o <- owners :: o.generation > 0) ==> Find(owners, MaxGeneration(owners)).Some?
    ensures forall g ::
              Find(owners, g).Some? ==> Find(owners, g).value in owners && Find(owners, g).value.generation == g
  {
    if owners != [] {
      var rest := owners[..|owners| - 1];
      NewestIsMax(rest);
      assert owners == rest + [owners[|owners| - 1]];
    }
  }

  lemma AppendedIsNewest(owners: seq<Owner>, owner: Owner)
    requires owner.generation > MaxGeneration(owners)
    ensures MaxGeneration(owners + [owner]) == owner.generation
    ensures Find(owners + [owner], owner.generation) == Some(owner)
  {
    assert (owners + [owner])[..|owners|] == owners;
  }
}
