/** Session observations: an epoch names one opening of one file, and survives only the companion's own
    export of that same file. */
module SessionTracker {
  import opened Wrappers

  type Uuid = nat
  type Handle = nat
  type Identity = nat

  datatype Record = Record(lineage: Uuid, epoch: Uuid)

  /** What was open: the profile, the canonical path, the file identity and the handle object. */
  datatype Opening = Opening(profile: string, path: string, identity: Identity, handle: Handle)

  datatype Snapshot = Snapshot(record: Record, opening: Opening)

  datatype Error = Unavailable | FileUnavailable | Conflict | HandleInvalid

  /** One call of the runtime, with what the file system and Anki report at that moment: `found` is the
      identity of a regular file at the path, if any.  `Resume` names its snapshot by the call that took it. */
  datatype Call =
    | Invalidate
    | Open(lineage: Uuid, profile: string, path: string, found: Option<Identity>, opener: Option<Handle>)
    | Observe(profile: string, path: string, found: Option<Identity>, handle: Handle)
    | Resume(snapshot: nat, profile: string, path: string, found: Option<Identity>, handle: Handle)
    | Snap

  class SessionTracker {
    var record: Option<Record>
    var handle: Option<Handle>
    var path: Option<string>
    var identity: Option<Identity>
    var profile: Option<string>
    /** Stands for the generator of fresh identifiers. */
    var nextEpoch: Uuid
    ghost var issued: map<Uuid, Opening>

    /** The opening the fields describe. */
    ghost predicate Holds(opening: Opening)
      reads this
    {
      handle == Some(opening.handle) && path == Some(opening.path) && identity == Some(opening.identity)
          && profile == Some(opening.profile)
    }

    ghost predicate Valid()
      reads this
    {
      && (record.Some? ==> record.value.epoch in issued && Holds(issued[record.value.epoch]))
      && forall e <- issued :: e < nextEpoch
    }

    ghost predicate Genuine(s: Snapshot)
      reads this
    {
      s.record.epoch in issued && issued[s.record.epoch] == s.opening
    }

    constructor ()
      ensures Valid() && record.None? && issued == map[]
    {
      record, handle, path, identity, profile, issued, nextEpoch := None, None, None, None, None, map[], 0;
    }

    method Invalidate()
      requires Valid()
      modifies this
      ensures nextEpoch == old(nextEpoch)
      ensures Valid() && record.None? && issued == old(issued)
    {
      record, handle, path, identity, profile := None, None, None, None, None;
    }

    /** Each load gets an epoch never issued before; a failed one leaves no session behind. */
    method Opened(lineage: Uuid, newProfile: string, newPath: string, found: Option<Identity>,
                  newHandle: Option<Handle>)
      returns (r: Result<Record, Error>)
      requires Valid()
      modifies this
      ensures Valid()
      ensures r.Ok? <==> newHandle.Some? && found.Some?
      ensures r.Ok? ==> record == Some(r.value) && r.value.lineage == lineage && r.value.epoch !in old(issued)
                        && issued == old(issued)[r.value.epoch := Opening(newProfile, newPath, found.value,
                            newHandle.value)]
      ensures r.Err? ==> record.None? && issued == old(issued)
    {
      Invalidate();
      if newHandle.None? { return Err(HandleInvalid); }
      if found.None? { return Err(FileUnavailable); }
      record := Some(Record(lineage, nextEpoch));
      handle, path, identity, profile := newHandle, Some(newPath), found, Some(newProfile);
      issued := issued[nextEpoch := Opening(newProfile, newPath, found.value, newHandle.value)];
      nextEpoch := nextEpoch + 1;
      return Ok(record.value);
    }

    /** A session is reported only while everything still is as it was at its opening; any difference ends it. */
    method Observed(newProfile: string, newPath: string, found: Option<Identity>, newHandle: Handle)
      returns (r: Result<Record, Error>)
      requires Valid()
      modifies this
      ensures Valid() && issued == old(issued)
      ensures r.Ok? <==> old(record).Some? && found.Some?
                         && old(issued)[old(record).value.epoch] == Opening(newProfile, newPath, found.value, newHandle)
      ensures r.Ok? ==> record == old(record) == Some(r.value)
      ensures r.Err? ==> record.None?
    {
      if record.None? { return Err(Unavailable); }
      if found.None? { Invalidate(); return Err(FileUnavailable); }
      if Some(newProfile) != profile || Some(newPath) != path || found != identity || Some(newHandle) != handle {
        Invalidate();
        return Err(Conflict);
      }
      return Ok(record.value);
    }

    /** Taken before the companion's own temporary close. */
    method TakeSnapshot() returns (r: Option<Snapshot>)
      requires Valid()
      ensures r.Some? <==> record.Some?
      ensures r.Some? ==> Genuine(r.value) && Some(r.value.record) == record
    {
      if record.None? { return None; }
      r := Some(Snapshot(record.value, Opening(profile.value, path.value, identity.value, handle.value)));
    }

    /** Keeps the epoch only when profile, path, file identity and handle are the snapshot's. */
    method Resume(s: Snapshot, newProfile: string, newPath: string, found: Option<Identity>, newHandle: Handle)
      returns (kept: bool)
      requires Valid() && Genuine(s)
      modifies this
      ensures Valid() && issued == old(issued)
      ensures kept <==> found.Some? && s.opening == Opening(newProfile, newPath, found.value, newHandle)
      ensures record == if kept then Some(s.record) else None
    {
      if found.None? { Invalidate(); return false; }
      if newProfile != s.opening.profile || newPath != s.opening.path || found.value != s.opening.identity
          || newHandle != s.opening.handle {
        Invalidate();
        return false;
      }
      record := Some(s.record);
      handle, path, identity, profile := Some(newHandle), Some(newPath), found, Some(newProfile);
      return true;
    }

    /** The session in force. */
    ghost function Current(): Option<Answer>
      reads this
    {
      if record.Some? && record.value.epoch in issued
          then Some(Reported(record.value.epoch, issued[record.value.epoch])) else None
    }

    /** One call; a snapshot is what `Resume` was given. */
    method Step(call: Call, snapshot: Option<Snapshot>) returns (answer: Answer, taken: Option<Snapshot>)
      requires Valid() && (snapshot.Some? ==> Genuine(snapshot.value))
      modifies this
      ensures Valid() && forall e <- old(issued) :: e in issued && issued[e] == old(issued)[e]
      ensures Replies(old(Current()), call, Seen(snapshot), answer)
              && Current() == Leaves(old(Current()), call, Seen(snapshot), answer)
      ensures answer.Reported? ==> answer.epoch in issued && issued[answer.epoch] == answer.opening
      ensures answer.Reported? && call.Open? ==> answer.epoch !in old(issued)
      ensures taken.Some? <==> call.Snap? && answer.Reported?
      ensures taken.Some? ==> Genuine(taken.value) && Seen(taken) == Some(answer)
    {
      answer, taken := Silent, None;
      match call {
        case Invalidate => Invalidate();
        case Open(lineage, newProfile, newPath, found, newHandle) =>
          var r := Opened(lineage, newProfile, newPath, found, newHandle);
          if r.Ok? { answer := Reported(r.value.epoch, Opening(newProfile, newPath, found.value, newHandle.value)); }
        case Observe(newProfile, newPath, found, newHandle) =>
          var r := Observed(newProfile, newPath, found, newHandle);
          if r.Ok? { answer := Reported(r.value.epoch, Opening(newProfile, newPath, found.value, newHandle)); }
        case Snap =>
          taken := TakeSnapshot();
          if taken.Some? { answer := Reported(taken.value.record.epoch, taken.value.opening); }
        case Resume(_, newProfile, newPath, found, newHandle) =>
          if snapshot.Some? {
            var kept := Resume(snapshot.value, newProfile, newPath, found, newHandle);
            if kept { answer := Reported(snapshot.value.record.epoch, snapshot.value.opening); }
          }
      }
    }

    /** Any sequence of calls, each answered as it must be: a successful opening gets an epoch never answered
        before, an observation or a resumption answers with an epoch only for the very profile, path, file and
        handle of its opening, and so one epoch never names two openings. */
    method Replay(calls: seq<Call>) returns (answers: seq<Answer>)
      requires Valid()
      modifies this
      ensures Valid() && |answers| == |calls|
      ensures forall i | 0 <= i < |calls| :: Answered(old(Current()), calls, answers, i)
      ensures Current() == InForce(old(Current()), calls, answers)
      ensures forall i, j | 0 <= i < |calls| && 0 <= j < |calls| :: Agree(answers[i], answers[j])
    {
      hide Replies, Leaves, Valid, InForce, Answered;
      NothingCalled(Current(), calls);
      answers := [];
      ghost var start := Current();
      var snapshots: map<nat, Snapshot> := map[];
      for i := 0 to |calls|
        invariant Valid() && |answers| == i
        invariant start.Some? ==> start.value.Reported? && start.value.epoch in issued
        invariant Current() == InForce(start, calls[..i], answers)
        invariant forall k | 0 <= k < i :: Answered(start, calls, answers, k)
        invariant forall a <- answers :: a.Reported? ==> a.epoch in issued && issued[a.epoch] == a.opening
        invariant forall k: nat :: k in snapshots <==> Took(calls[..i], answers, k)
        invariant forall k <- snapshots :: Genuine(snapshots[k]) && Seen(Some(snapshots[k])) == Some(answers[k])
      {
        var given := if calls[i].Resume? && calls[i].snapshot in snapshots then Some(snapshots[calls[i].snapshot])
            else None;
        assert Seen(given) == SnapshotOf(calls[..i], answers, calls[i]);
        var answer, taken := Step(calls[i], given);
        OneMoreAnswer(start, calls, answers, answer);
        answers := answers + [answer];
        if taken.Some? { snapshots := snapshots[i := taken.value]; }
      }
      assert calls[..|calls|] == calls;
    }
  }

  // ---------------------------------------------------------------- what the answers must be

  /** The epoch a call reports, and what was open at that epoch. */
  datatype Answer = Silent | Reported(epoch: Uuid, opening: Opening)

  function Seen(s: Option<Snapshot>): Option<Answer> {
    if s.Some? then Some(Reported(s.value.record.epoch, s.value.opening)) else None
  }

  predicate Agree(a: Answer, b: Answer) {
    a.Reported? && b.Reported? && a.epoch == b.epoch ==> a.opening == b.opening
  }

  /** The answer to one call, up to the identifier of a new epoch. */
  predicate Replies(current: Option<Answer>, call: Call, snapshot: Option<Answer>, answer: Answer) {
    match call
    case Invalidate => answer == Silent
    case Snap => answer == if current.Some? then current.value else Silent
    case Open(_, profile, path, found, opener) =>
      if found.Some? && opener.Some? then
        answer.Reported? && answer.opening == Opening(profile, path, found.value, opener.value)
      else answer == Silent
    case Observe(profile, path, found, handle) => answer == Still(current, profile, path, found, handle)
    case Resume(_, profile, path, found, handle) => answer == Still(snapshot, profile, path, found, handle)
  }

  /** A known session, when what is open now is what was open then. */
  function Still(known: Option<Answer>, profile: string, path: string, found: Option<Identity>, handle: Handle): Answer
  {
    if known.Some? && known.value.Reported? && found.Some?
        && known.value.opening == Opening(profile, path, found.value, handle)
    then known.value else Silent
  }

  /** The session in force after one call. */
  function Leaves(current: Option<Answer>, call: Call, snapshot: Option<Answer>, answer: Answer): Option<Answer> {
    if call.Snap? || (call.Resume? && snapshot.None?) then current
    else if answer.Reported? then Some(answer) else None
  }

  /** The call took a snapshot. */
  predicate Took(calls: seq<Call>, answers: seq<Answer>, k: nat) {
    k < |calls| && k < |answers| && calls[k].Snap? && answers[k].Reported?
  }

  function SnapshotOf(calls: seq<Call>, answers: seq<Answer>, call: Call): Option<Answer> {
    if call.Resume? && Took(calls, answers, call.snapshot) then Some(answers[call.snapshot]) else None
  }

  /** The session in force after some calls. */
  function InForce(start: Option<Answer>, calls: seq<Call>, answers: seq<Answer>): Option<Answer>
    requires |answers| == |calls|
    decreases |calls|
  {
    if calls == [] then start
    else
      var n := |calls| - 1;
      Leaves(InForce(start, calls[..n], answers[..n]), calls[n], SnapshotOf(calls[..n], answers[..n], calls[n]),
             answers[n])
  }

  /** The answer to one call of a sequence; a new epoch is none of the ones answered before. */
  predicate Answered(start: Option<Answer>, calls: seq<Call>, answers: seq<Answer>, i: nat)
    requires i < |answers| <= |calls|
  {
    && Replies(InForce(start, calls[..i], answers[..i]), calls[i], SnapshotOf(calls[..i], answers[..i], calls[i]),
               answers[i])
    && (calls[i].Open? && answers[i].Reported? ==>
          && (start.Some? && start.value.Reported? ==> start.value.epoch != answers[i].epoch)
          && forall k | 0 <= k < i && answers[k].Reported? :: answers[k].epoch != answers[i].epoch)
  }

  lemma NothingCalled(start: Option<Answer>, calls: seq<Call>)
    ensures InForce(start, calls[..0], []) == start
  {}

  /** One more call and its answer. */
  lemma OneMoreAnswer(start: Option<Answer>, calls: seq<Call>, answers: seq<Answer>, next: Answer)
    requires var i := |answers|; i < |calls| && (forall k | 0 <= k < i :: Answered(start, calls, answers, k))
    requires var i := |answers|;
             Replies(InForce(start, calls[..i], answers), calls[i], SnapshotOf(calls[..i], answers, calls[i]), next)
    requires calls[|answers|].Open? && next.Reported? ==>
               && (start.Some? && start.value.Reported? ==> start.value.epoch != next.epoch)
               && forall a <- answers :: a.Reported? ==> a.epoch != next.epoch
    ensures var i := |answers|;
            && (forall k | 0 <= k <= i :: Answered(start, calls, answers + [next], k))
            && InForce(start, calls[..i + 1], answers + [next])
               == Leaves(InForce(start, calls[..i], answers), calls[i], SnapshotOf(calls[..i], answers, calls[i]), next)
            && forall k: nat :: Took(calls[..i + 1], answers + [next], k)
                                <==> Took(calls[..i], answers, k) || (k == i && calls[i].Snap? && next.Reported?)
  {
    hide Replies, Leaves;
    var i, more := |answers|, answers + [next];
    assert calls[..i + 1][..i] == calls[..i] && more[..i] == answers;
    forall k | 0 <= k < i ensures Answered(start, calls, more, k) {
      assert Answered(start, calls, answers, k) && more[..k] == answers[..k];
    }
  }
}
