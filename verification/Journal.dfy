/** The operation journal: step states, operation states, and the transitions the store appends. */
module Journal {
  import opened Wrappers
  import opened Readback

  datatype StepState = IntentRecorded | RequestStarted | ObservedSuccess | ObservedFailure | Unknown | Verified

  datatype OperationState =
    | Prepared | Preflight | Checkpointed | Mutating | Verifying | NeedsRecovery
    | Committed | FailedBeforeWrite | Restored | Compensated

  /** The identity, payload and precondition of a step are frozen with its intent. */
  datatype Step = Step(id: Id, expected: Seen, state: StepState, observed: Option<Seen>)

  datatype Journal = Journal(operation: Id, approved: Id, state: OperationState, steps: seq<Step>)

  // ---------------------------------------------------------------- what the store accepts

  predicate Terminal(state: OperationState) {
    state.Committed? || state.FailedBeforeWrite? || state.Restored?
  }

  predicate Unresolved(state: StepState) {
    state.RequestStarted? || state.Unknown?
  }

  predicate Pending(j: Journal) {
    && !Terminal(j.state)
    && (j.state.Mutating? || j.state.Verifying? || j.state.NeedsRecovery?
        || exists s <- j.steps :: Unresolved(s.state) || s.state.ObservedSuccess? || s.state.ObservedFailure?)
  }

  predicate AllVerified(steps: seq<Step>) {
    forall s <- steps :: s.state.Verified?
  }

  predicate NothingSent(steps: seq<Step>) {
    forall s <- steps :: s.state.IntentRecorded?
  }

  predicate OnlyFailures(steps: seq<Step>) {
    forall s <- steps :: s.state.IntentRecorded? || s.state.ObservedFailure?
  }

  predicate SoundStep(s: Step) {
    (s.state.Verified? ==> s.observed == Some(s.expected)) && (s.state.IntentRecorded? ==> s.observed.None?)
  }

  predicate Validated(j: Journal) {
    && (forall i, k | 0 <= i < k < |j.steps| :: j.steps[i].id != j.steps[k].id)
    && (forall s <- j.steps :: SoundStep(s))
    && !j.state.Compensated?
    && (j.state.Restored? ==> forall s <- j.steps :: !Unresolved(s.state))
    && (j.state.Committed? ==> j.steps != [] && AllVerified(j.steps))
    && (j.state.FailedBeforeWrite? ==> OnlyFailures(j.steps))
  }

  predicate StateMoves(from: OperationState, to: OperationState) {
    || from == to
    || match from
       case Prepared => to in {Preflight, FailedBeforeWrite, NeedsRecovery}
       case Preflight => to in {Checkpointed, FailedBeforeWrite, NeedsRecovery}
       case Checkpointed => to in {Mutating, FailedBeforeWrite, NeedsRecovery}
       case Mutating => to in {Verifying, NeedsRecovery, FailedBeforeWrite}
       case Verifying => to in {NeedsRecovery, Committed}
       case NeedsRecovery => to in {Mutating, Verifying, FailedBeforeWrite, Restored}
       case Committed => to == Restored
       case _ => false
  }

  predicate StepMoves(from: StepState, to: StepState) {
    || from == to
    || match from
       case IntentRecorded => to.RequestStarted?
       case RequestStarted => to.ObservedSuccess? || to.ObservedFailure? || to.Unknown?
       case ObservedSuccess => to.Verified?
       case Unknown => to.Verified? || to.ObservedFailure?
       case _ => false
  }

  predicate StepFollows(a: Step, b: Step) {
    && a.id == b.id && a.expected == b.expected && StepMoves(a.state, b.state)
    && (a.state.Verified? ==> a == b)
    && (a.state == b.state ==> a.observed == b.observed)
  }

  /** A step may start only when every earlier one is verified and nothing is unresolved. */
  predicate MayStart(steps: seq<Step>, i: nat)
    requires i < |steps|
  {
    (forall k | 0 <= k < i :: steps[k].state.Verified?) && forall s <- steps :: !Unresolved(s.state)
  }

  predicate Starts(a: seq<Step>, b: seq<Step>, i: nat)
    requires i < |a| && i < |b|
  {
    b[i].state.RequestStarted? && a[i].state.IntentRecorded?
  }

  predicate Legal(a: Journal, b: Journal) {
    && Validated(b)
    && a.operation == b.operation && a.approved == b.approved
    && StateMoves(a.state, b.state)
    && (Terminal(a.state) || a.state.Compensated? ==> b.state.Restored? && !a.state.Restored?)
    && |a.steps| <= |b.steps|
    && (forall i | 0 <= i < |a.steps| :: Starts(a.steps, b.steps, i) ==> MayStart(a.steps, i))
    && (forall i | 0 <= i < |a.steps| :: StepFollows(a.steps[i], b.steps[i]))
    && NothingSent(b.steps[|a.steps|..])
    && ((exists s <- b.steps :: s.state.Unknown?) ==> b.state.NeedsRecovery?)
    && (b.state.Restored? && !a.state.Restored? ==> a.steps == b.steps)
  }

  // ---------------------------------------------------------------- journal shape

  /** Verified steps, then one in whatever state, then intents. */
  predicate ShapedAt(steps: seq<Step>, k: nat) {
    && k <= |steps|
    && (forall i | 0 <= i < k :: steps[i].state.Verified?)
    && (forall i | k < i < |steps| :: steps[i].state.IntentRecorded?)
  }

  ghost predicate Shaped(steps: seq<Step>) {
    exists k: nat :: ShapedAt(steps, k)
  }

  lemma LegalKeepsShape(a: Journal, b: Journal)
    requires Shaped(a.steps) && Legal(a, b)
    ensures Shaped(b.steps)
  {
    var k: nat :| ShapedAt(a.steps, k);
    var n := |a.steps|;
    forall i | n <= i < |b.steps| ensures b.steps[i].state.IntentRecorded? {
      assert b.steps[n..][i - n] in b.steps[n..];
    }
    if m: nat :| k < m < n && !b.steps[m].state.IntentRecorded? {
      assert StepFollows(a.steps[m], b.steps[m]) && Starts(a.steps, b.steps, m);
      forall i | 0 <= i < m ensures b.steps[i].state.Verified? { assert StepFollows(a.steps[i], b.steps[i]); }
      forall i | m < i < n ensures b.steps[i].state.IntentRecorded? {
        assert StepFollows(a.steps[i], b.steps[i]);
        assert !MayStart(a.steps, i) by { assert !a.steps[m].state.Verified?; }
        assert !Starts(a.steps, b.steps, i);
      }
      assert ShapedAt(b.steps, m);
    } else {
      forall i | 0 <= i < k ensures b.steps[i].state.Verified? { assert StepFollows(a.steps[i], b.steps[i]); }
      assert ShapedAt(b.steps, k);
    }
  }

  /** A history the store accepted: a valid journal with nothing sent, then legal appends. */
  ghost predicate History(versions: seq<Journal>) {
    && versions != [] && Validated(versions[0]) && NothingSent(versions[0].steps) && versions[0].state.Prepared?
    && forall i | 0 < i < |versions| :: Legal(versions[i - 1], versions[i])
  }

  /** The last version of a history: its shape, what `Verified` and `Committed` mean, and that a version
      that failed before any write or committed with a given set of steps never changes them again. */
  lemma {:induction false} HistoryShape(versions: seq<Journal>)
    requires History(versions)
    ensures var last := versions[|versions| - 1];
            && Shaped(last.steps)
            && (forall s <- last.steps :: s.state.Verified? ==> s.observed == Some(s.expected))
            && (last.state.Committed? ==> AllVerified(last.steps))
            && (last.state.FailedBeforeWrite? ==> OnlyFailures(last.steps))
    decreases |versions|
  {
    var last := versions[|versions| - 1];
    if |versions| == 1 {
      assert ShapedAt(last.steps, 0);
    } else {
      var rest := versions[..|versions| - 1];
      assert forall i | 0 < i < |rest| :: Legal(rest[i - 1], rest[i]);
      HistoryShape(rest);
      assert Legal(versions[|versions| - 1 - 1], versions[|versions| - 1]);
      LegalKeepsShape(rest[|rest| - 1], last);
    }
  }

  /** A terminal state is final, except that a restore may follow a commit. */
  lemma {:induction false} TerminalIsFinal(versions: seq<Journal>, k: nat)
    requires History(versions) && k < |versions| && Terminal(versions[k].state)
    ensures var last := versions[|versions| - 1];
            last.steps == versions[k].steps && (last.state == versions[k].state || last.state.Restored?)
    decreases |versions|
  {
    if k < |versions| - 1 {
      var rest := versions[..|versions| - 1];
      assert forall i | 0 < i < |rest| :: Legal(rest[i - 1], rest[i]);
      TerminalIsFinal(rest, k);
      assert Legal(versions[|versions| - 2], versions[|versions| - 1]);
    }
  }

  /** What becomes of a step: its identity and expectation stay, it never goes back, and what is verified or
      known to have failed never changes again. */
  predicate Progress(a: Step, b: Step) {
    && b.id == a.id && b.expected == a.expected
    && (!a.state.IntentRecorded? ==> !b.state.IntentRecorded?)
    && (b.state.RequestStarted? ==> a.state.IntentRecorded? || a.state.RequestStarted?)
    && (b.state.Unknown? ==> a.state.IntentRecorded? || a.state.RequestStarted? || a == b)
    && (b.state.ObservedFailure? ==> !a.state.ObservedSuccess?)
    && (a.state.Verified? || a.state.ObservedFailure? ==> b == a)
  }

  lemma OneProgress(a: Journal, b: Journal, k: nat)
    requires Legal(a, b) && k < |a.steps|
    ensures k < |b.steps| && Progress(a.steps[k], b.steps[k]) && b.operation == a.operation && b.approved == a.approved
  {
    assert StepFollows(a.steps[k], b.steps[k]);
  }

  /** Over any accepted history an operation keeps its identity and its approval, and every step only progresses. */
  lemma {:induction false} HistoryProgress(versions: seq<Journal>, m: nat, n: nat, k: nat)
    requires History(versions) && m <= n < |versions| && k < |versions[m].steps|
    ensures k < |versions[n].steps| && Progress(versions[m].steps[k], versions[n].steps[k])
    ensures versions[n].operation == versions[m].operation && versions[n].approved == versions[m].approved
    decreases n - m
  {
    hide Legal;
    if m < n {
      HistoryProgress(versions, m, n - 1, k);
      assert Legal(versions[n - 1], versions[n]);
      OneProgress(versions[n - 1], versions[n], k);
    }
  }

  /** A request is journaled only when every step before it is verified and nothing is unresolved, a new step
      only as an intent, and doubt only with the operation waiting for recovery. */
  lemma HistorySteps(versions: seq<Journal>, n: nat, k: nat)
    requires History(versions) && 0 < n < |versions| && k < |versions[n].steps|
    ensures var before, s := versions[n - 1].steps, versions[n].steps[k];
            && (s.state.RequestStarted? && k < |before| && before[k].state.IntentRecorded? ==>
                  && (forall i | 0 <= i < k :: before[i].state.Verified?)
                  && (forall i | 0 <= i < |before| :: !before[i].state.RequestStarted? && !before[i].state.Unknown?))
            && (k >= |before| ==> s.state.IntentRecorded?)
            && (s.state.Unknown? ==> versions[n].state.NeedsRecovery?)
            && (s.state.IntentRecorded? ==> s.observed.None?)
            && (forall i | 0 <= i < |versions[n].steps| && i != k :: versions[n].steps[i].id != s.id)
            && !versions[n].state.Compensated?
  {
    assert Legal(versions[n - 1], versions[n]);
    var before, after := versions[n - 1].steps, versions[n].steps;
    assert after[k] in after;
    if k >= |before| { assert after[|before|..][k - |before|] in after[|before|..]; }
    if k < |before| && Starts(before, after, k) {
      assert MayStart(before, k);
      forall i | 0 <= i < |before| ensures !Unresolved(before[i].state) { assert before[i] in before; }
    }
  }
}
