/** The fencing invariant: what every ledger call keeps, and that rows only move forward. */
module LedgerLaws {
  import opened Wrappers
  import opened Anki
  import opened Effects
  import opened Ledger

  function OwnerOf(k: Key, row: Row): Owner {
    Owner(row.fence, row.token, k.lineage, row.epoch, row.approved)
  }

  /** Generations strictly increase and tokens are never reused. */
  ghost predicate Issued(owners: seq<Owner>) {
    && (forall i, j | 0 <= i < j < |owners| ::
        owners[i].generation < owners[j].generation && owners[i].token != owners[j].token)
    && (forall o <- owners :: o.generation > 0)
  }

  ghost predicate RecordedRow(k: Key, row: Row, owners: seq<Owner>) {
    ValidHistory(row.events) && ValidBody(row.body) && OwnerOf(k, row) in owners
  }

  /** Histories are whole, owners are issued in order, only issued ones are released, and every row was
      accepted from an issued owner. */
  ghost predicate Recorded(l: Ledger) {
    && Issued(l.owners) && (forall g <- l.released :: g <= MaxGeneration(l.owners))
    && forall k <- l.rows :: RecordedRow(k, l.rows[k], l.owners)
  }

  predicate Flying(rows: map<Key, Row>, k: Key) {
    k in rows && InFlight(Status(rows[k]))
  }

  ghost predicate FencedBy(rows: map<Key, Row>, newest: Option<Owner>) {
    && (forall j, k :: Flying(rows, j) && Flying(rows, k) ==> j == k)
    && (forall k :: Flying(rows, k) ==> newest == Some(OwnerOf(k, rows[k])))
  }

  /** At most one row is in flight over all lineages, and it carries the newest owner. */
  ghost predicate Fenced(l: Ledger) {
    FencedBy(l.rows, Newest(l))
  }

  ghost predicate Sound(l: Ledger) {
    Recorded(l) && Fenced(l)
  }

  // ---------------------------------------------------------------- rows only move forward

  predicate Reaches(from: State, to: State) {
    || from == to
    || from.Queued?
    || (from.Running? && (to.Unknown? || to.Verified?))
  }

  predicate Follows(a: Row, b: Row) {
    b == a.(events := b.events) && Reaches(Status(a), Status(b))
  }

  /** Nothing is withdrawn: owners and releases stay, and every row keeps its intent and moves forward. */
  ghost predicate Extends(a: Ledger, b: Ledger) {
    && a.owners <= b.owners && a.released <= b.released
    && forall k <- a.rows :: k in b.rows && Follows(a.rows[k], b.rows[k])
  }

  lemma ExtendsItself(l: Ledger)
    ensures Extends(l, l)
  {}

  lemma ExtendsTransitive(a: Ledger, b: Ledger, c: Ledger)
    requires Extends(a, b) && Extends(b, c)
    ensures Extends(a, c)
  {
    forall k <- a.rows ensures k in c.rows && Follows(a.rows[k], c.rows[k]) {
      assert k in b.rows && Follows(a.rows[k], b.rows[k]) && Follows(b.rows[k], c.rows[k]);
    }
  }

  // ---------------------------------------------------------------- one call at a time

  lemma LastIsNewest(owners: seq<Owner>)
    requires Issued(owners) && owners != []
    ensures MaxGeneration(owners) == owners[|owners| - 1].generation
    ensures Find(owners, MaxGeneration(owners)) == Some(owners[|owners| - 1])
  {
    var rest, last := owners[..|owners| - 1], owners[|owners| - 1];
    if rest != [] {
      LastIsNewest(rest);
      assert last.generation > rest[|rest| - 1].generation;
    }
  }

  lemma FencedWrite(rows: map<Key, Row>, newest: Option<Owner>, key: Key, row: Row)
    requires FencedBy(rows, newest)
    requires InFlight(Status(row)) ==> newest == Some(OwnerOf(key, row)) && forall k :: Flying(rows, k) ==> k == key
    ensures FencedBy(rows[key := row], newest)
  {
    var after := rows[key := row];
    forall k | Flying(after, k) ensures newest == Some(OwnerOf(k, after[k])) {
      if k != key { assert Flying(rows, k); }
    }
    forall j, k | Flying(after, j) && Flying(after, k) ensures j == k {
      if j != key { assert Flying(rows, j); }
      if k != key { assert Flying(rows, k); }
    }
  }

  function WithRow(l: Ledger, key: Key, row: Row): Ledger {
    l.(rows := l.rows[key := row])
  }

  lemma WriteSound(l: Ledger, key: Key, row: Row)
    requires Sound(l) && RecordedRow(key, row, l.owners)
    requires InFlight(Status(row))
             ==> Newest(l) == Some(OwnerOf(key, row)) && forall k :: Flying(l.rows, k) ==> k == key
    requires key in l.rows ==> Follows(l.rows[key], row)
    ensures Sound(WithRow(l, key, row)) && Extends(l, WithRow(l, key, row))
  {
    hide ValidHistory, MaxGeneration, Find, Status;
    FencedWrite(l.rows, Newest(l), key, row);
  }

  /** A row may make any legal move; what stays in flight was already fenced. */
  lemma AppendSound(l: Ledger, key: Key, state: State)
    requires Sound(l) && key in l.rows && Moves(Status(l.rows[key]), state) && state != Status(l.rows[key])
    ensures Sound(Append(l, key, state)) && Extends(l, Append(l, key, state))
    ensures Status(Append(l, key, state).rows[key]) == state
  {
    CloseMoves(l.rows[key], state);
    assert RecordedRow(key, l.rows[key], l.owners);
    assert Flying(l.rows, key);
    WriteSound(l, key, Close(l.rows[key], state));
  }

  lemma OrphanedFollows(row: Row)
    requires ValidHistory(row.events)
    ensures Follows(row, Orphaned(row)) && ValidHistory(Orphaned(row).events) && !InFlight(Status(Orphaned(row)))
    ensures Orphaned(row) != row ==> InFlight(Status(row))
  {
    match Status(row)
    case Queued => CloseMoves(row, FailedBeforeWrite(WorkerLostBeforeWrite));
    case Running => CloseMoves(row, Unknown(WorkerCrash));
    case _ =>
  }

  lemma IssuedAppends(owners: seq<Owner>, owner: Owner)
    requires Issued(owners) && owner.generation == MaxGeneration(owners) + 1
             && forall o <- owners :: o.token != owner.token
    ensures Issued(owners + [owner]) && forall o <- owners :: o.generation < owner.generation
  {
    NewestIsMax(owners);
  }

  /** A successful begin leaves nothing in flight, under a generation above every earlier one; it orphans
      exactly the rows no live worker holds. */
  lemma BeginOwnerSound(l: Ledger, lineage: Uuid, epoch: Uuid, approved: Uuid, token: Uuid, live: set<Key>)
    requires Sound(l) && BeginOwner(l, lineage, epoch, approved, token, live).Ok?
    ensures var after := BeginOwner(l, lineage, epoch, approved, token, live).value;
            && Sound(after) && Extends(l, after)
            && (forall k :: !Flying(after.rows, k))
            && (forall k <- l.rows :: after.rows[k] != l.rows[k] ==> Flying(l.rows, k) && k !in live)
            && after.owners == l.owners + [after.owners[|l.owners|]]
            && Newest(after) == Some(after.owners[|l.owners|])
            && (forall o <- l.owners :: o.generation < after.owners[|l.owners|].generation && o.token != token)
  {
    hide ValidHistory, MaxGeneration, Find, Status, Orphaned, Issued;
    var after := BeginOwner(l, lineage, epoch, approved, token, live).value;
    IssuedAppends(l.owners, after.owners[|l.owners|]);
    AppendedIsNewest(l.owners, after.owners[|l.owners|]);
    forall k <- l.rows
      ensures Follows(l.rows[k], after.rows[k]) && !InFlight(Status(after.rows[k]))
              && RecordedRow(k, after.rows[k], after.owners)
      ensures after.rows[k] != l.rows[k] ==> Flying(l.rows, k) && k !in live
    {
      assert RecordedRow(k, l.rows[k], l.owners);
      OrphanedFollows(l.rows[k]);
    }
    assert forall k <- after.rows :: k in l.rows;
  }

  lemma EndOwnerSound(l: Ledger, token: Uuid, fence: nat)
    requires Sound(l) && EndOwner(l, token, fence).Ok?
    ensures Sound(EndOwner(l, token, fence).value) && Extends(l, EndOwner(l, token, fence).value)
  {
    NewestIsMax(l.owners);
  }

  /** A released owner is over: the newest one leaves no current owner behind, an older one changes nothing,
      and a new request of the released owner is refused.  Rows and owners stay. */
  lemma EndOwnerEnds(l: Ledger, token: Uuid, fence: nat)
    requires Sound(l)
    ensures EndOwner(l, token, fence).Ok? <==> exists o <- l.owners :: o.generation == fence && o.token == token
    ensures EndOwner(l, token, fence).Ok? ==>
              var after := EndOwner(l, token, fence).value;
              && after.owners == l.owners && after.rows == l.rows
              && CurrentOwner(after) == (if IsCurrent(l, token, fence) then None else CurrentOwner(l))
              && (forall r: Request | r.token == token && r.fence == fence && r.key !in l.rows ::
                    QueueNew(after, r).Err?)
              && (forall k <- l.rows | l.rows[k].token == token && l.rows[k].fence == fence ::
                    Status(l.rows[k]).Queued? ==> MarkRunning(after, k, token, fence) == Err(OwnerStale))
  {
    hide ValidHistory, ValidBody, Status;
    if EndOwner(l, token, fence).Ok? {
      var after := EndOwner(l, token, fence).value;
      NewestIsMax(l.owners);
      LastIsNewest(l.owners);
      var o :| o in l.owners && o.generation == fence && o.token == token;
      assert Newest(after) == Newest(l);
      if Newest(l).value.generation == fence { assert Newest(l).value == o; }
    }
  }

  lemma CurrentIsIssued(l: Ledger, token: Uuid, fence: nat)
    requires Issued(l.owners) && IsCurrent(l, token, fence)
    ensures l.owners != [] && CurrentOwner(l) == Newest(l) == Some(l.owners[|l.owners| - 1])
  {
    LastIsNewest(l.owners);
  }

  /** An inserted row is the only one in flight, it carries the newest owner, and its request was bound
      to that owner's lineage, session and approval. */
  lemma QueueNewSound(l: Ledger, r: Request)
    requires Sound(l) && QueueNew(l, r).Ok?
    ensures var (after, inserted) := QueueNew(l, r).value;
            && Sound(after) && Extends(l, after)
            && (inserted <==> r.key !in l.rows) && (!inserted ==> after == l)
            && (inserted ==> Flying(after.rows, r.key) && Status(after.rows[r.key]) == Queued
                             && after.owners == l.owners)
            && after.rows[r.key].body == r.body && after.rows[r.key].approved == r.approved
            && (inserted ==> OwnerOf(r.key, after.rows[r.key]) == CurrentOwner(l).value)
            && after == l.(rows := l.rows[r.key := after.rows[r.key]])
  {
    var (after, inserted) := QueueNew(l, r).value;
    if inserted {
      CurrentIsIssued(l, r.token, r.fence);
      FirstEvent(Row(r.body, r.approved, r.epoch, r.token, r.fence, []));
      WriteSound(l, r.key, after.rows[r.key]);
    }
  }

  /** Only the newest owner starts a row, and only from `queued`. */
  lemma MarkRunningSound(l: Ledger, key: Key, token: Uuid, fence: nat)
    requires Sound(l) && MarkRunning(l, key, token, fence).Ok?
    ensures var after := MarkRunning(l, key, token, fence).value;
            Sound(after) && Extends(l, after) && key in after.rows && Status(after.rows[key]) == Running
            && (after != l ==> IsCurrent(l, token, fence) && Status(l.rows[key]) == Queued)
  {
    if Status(l.rows[key]).Queued? { AppendSound(l, key, Running); }
  }

  /** Closing calls: each is repeatable, and otherwise needs the state before it. */
  lemma MarkUnknownSound(l: Ledger, key: Key, token: Uuid, fence: nat, doubt: Doubt)
    requires Sound(l) && MarkUnknown(l, key, token, fence, doubt).Ok?
    ensures var after := MarkUnknown(l, key, token, fence, doubt).value;
            Sound(after) && Extends(l, after) && key in after.rows && Status(after.rows[key]) == Unknown(doubt)
  {
    if Status(l.rows[key]) != Unknown(doubt) { AppendSound(l, key, Unknown(doubt)); }
  }

  lemma MarkVerifiedSound(l: Ledger, key: Key, token: Uuid, fence: nat, receipt: Receipt)
    requires Sound(l) && MarkVerified(l, key, token, fence, receipt).Ok?
    ensures var after := MarkVerified(l, key, token, fence, receipt).value;
            Sound(after) && Extends(l, after) && key in after.rows && Status(after.rows[key]) == Verified(receipt)
  {
    if Status(l.rows[key]) != Verified(receipt) { AppendSound(l, key, Verified(receipt)); }
  }

  lemma FailBeforeWriteSound(l: Ledger, key: Key, token: Uuid, fence: nat, why: BeforeWrite)
    requires Sound(l) && FailBeforeWrite(l, key, token, fence, why).Ok?
    ensures var after := FailBeforeWrite(l, key, token, fence, why).value;
            Sound(after) && Extends(l, after) && key in after.rows && Status(after.rows[key]) == FailedBeforeWrite(why)
  {
    if Status(l.rows[key]) != FailedBeforeWrite(why) { AppendSound(l, key, FailedBeforeWrite(why)); }
  }

  /** Nobody but the owner a row was accepted under moves it. */
  lemma OthersRefused(l: Ledger, key: Key, token: Uuid, fence: nat)
    requires key in l.rows ==> l.rows[key].token != token || l.rows[key].fence != fence
    ensures var error := if key in l.rows then OwnerConflict else NotFound;
            && MarkRunning(l, key, token, fence) == Err(error)
            && (forall doubt :: MarkUnknown(l, key, token, fence, doubt) == Err(error))
            && (forall receipt :: MarkVerified(l, key, token, fence, receipt) == Err(error))
            && (forall why :: FailBeforeWrite(l, key, token, fence, why) == Err(error))
  {}

  /** A request of a replaced or released owner is refused unless it only repeats an accepted one. */
  lemma StaleRequestRefused(l: Ledger, r: Request)
    requires Sound(l) && r.key !in l.rows
    requires Newest(l) != Some(Owner(r.fence, r.token, r.key.lineage, r.epoch, r.approved)) || r.fence in l.released
    ensures QueueNew(l, r).Err?
  {}

  /** The five histories, exactly: a chain of legal moves from `queued` is a valid history and every
      valid history is one. */
  predicate Advances(states: seq<State>, i: nat)
    requires 0 < i < |states|
  {
    states[i] != states[i - 1] && Moves(states[i - 1], states[i])
  }

  lemma HistoriesAreMoves(states: seq<State>)
    ensures Lifecycle(states)
            <==> (states != [] && states[0] == Queued && forall i | 0 < i < |states| :: Advances(states, i))
  {
    if |states| >= 4 {
      assert !(states[0] == Queued && Advances(states, 1) && Advances(states, 2) && Advances(states, 3));
    } else if |states| == 3 && Advances(states, 1) && Advances(states, 2) {
      assert states[..2] == [states[0], states[1]];
    } else if |states| == 2 {
      assert Advances(states, 1) <==> states[1] != states[0] && Moves(states[0], states[1]);
    }
  }
}
