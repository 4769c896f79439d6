/** A verified collection checkpoint: its journal, its artifact, its receipt, the abandonment of an
    interrupted one, and the gate every dependent write passes. */
module Checkpoint {
  import opened Wrappers
  import opened Scope
  import opened Readback
  import J = Journal

  /** A package file; its bytes stand for their SHA-256. */
  datatype Package = Package(bytes: nat, size: nat)

  /** The restoration test's evidence. */
  datatype Restoration = Restoration(passed: bool, scope: ScopeManifest, package: nat)

  /** What an inspection or a restoration found of a scope in a package. */
  datatype Report = Report(scheduling: bool, mediaVerified: nat, schema: bool)

  datatype Receipt = Receipt(
    binding: nat, checksum: nat, scope: ScopeManifest,
    includesScheduling: bool, includesMedia: bool, includesSchema: bool, restoration: Restoration)

  datatype Record = Record(
    receipt: Receipt, size: nat, scope: ScopeManifest, restoration: Restoration, wholeCollection: bool,
    group: Option<nat>, manifest: nat, created: nat)

  datatype Error = ScopeInvalid | ManifestRequired | Rejected | ExportUnknown | Unverified | OutputExists | LocalFailure
                 | ReceiptExists | TransitionRefused | JournalRequired
                 | BindingMismatch | RestorationUnverified | CoverageInsufficient | RecordCorrupt | ScopeInsufficient
                 | ReuseRejected | ArtifactChanged

  // ---------------------------------------------------------------- the gate

  datatype Dependent = Dependent(
    binding: nat, need: Requirement, notes: seq<nat>, cards: seq<nat>, models: seq<nat>, media: seq<nat>,
    group: Option<nat>, manifest: nat, now: nat, maxAgeSeconds: nat)

  /** Everything the write depends on lies in the checkpoint's scope. */
  predicate Covers(scope: ScopeManifest, d: Dependent) {
    && (forall n <- d.notes :: n in scope.notes) && (forall c <- d.cards :: c in CardIds(scope.cards))
    && (forall m <- d.models :: m in scope.models) && (forall m <- d.media :: m in MediaNames(scope.media))
  }

  predicate Restored(r: Record) {
    && r.restoration.passed && r.restoration.scope == r.receipt.scope && r.restoration.package == r.receipt.checksum
    && r.receipt.restoration == r.restoration
  }

  predicate Sufficient(r: Record, need: Requirement) {
    && (need.scheduling ==> r.receipt.includesScheduling) && (need.media ==> r.receipt.includesMedia)
    && (need.schema ==> r.receipt.includesSchema && r.wholeCollection)
  }

  predicate SameGroup(r: Record, d: Dependent) {
    r.group.Some? && r.group == d.group
  }

  /** Another group may use it only while young and with the same protected manifest. */
  predicate Reusable(r: Record, d: Dependent) {
    && d.maxAgeSeconds != 0 && r.created <= d.now && d.now - r.created <= d.maxAgeSeconds * 1000
    && r.manifest == d.manifest
  }

  /** When the gate opens. */
  predicate Allows(r: Record, d: Dependent, file: Option<Package>) {
    && r.receipt.binding == d.binding && Restored(r) && Sufficient(r, d.need) && r.scope == r.receipt.scope
    && Covers(r.scope, d)
    && (SameGroup(r, d) || Reusable(r, d))
    && file == Some(Package(r.receipt.checksum, r.size))
  }

  /** The gate: it never opens without cause, and for a validated scope it opens exactly when it may. */
  method RequireCheckpoint(r: Record, d: Dependent, file: Option<Package>) returns (result: Result<bool, Error>)
    ensures result.Ok? ==> Allows(r, d, file) && (result.value <==> !SameGroup(r, d))
    ensures ValidScope(r.scope) ==> (result.Ok? <==> Allows(r, d, file))
  {
    if r.receipt.binding != d.binding { return Err(BindingMismatch); }
    if !r.restoration.passed || r.restoration.scope != r.receipt.scope || r.restoration.package != r.receipt.checksum
       || r.receipt.restoration != r.restoration { return Err(RestorationUnverified); }
    if (d.need.scheduling && !r.receipt.includesScheduling) || (d.need.media && !r.receipt.includesMedia)
       || (d.need.schema && (!r.receipt.includesSchema || !r.wholeCollection)) { return Err(CoverageInsufficient); }
    if r.scope != r.receipt.scope { return Err(RecordCorrupt); }
    var notes := AllFound(d.notes, r.scope.notes);
    var cards := AllFound(d.cards, CardIds(r.scope.cards));
    var models := AllFound(d.models, r.scope.models);
    var media := forall m <- d.media :: m in MediaNames(r.scope.media);
    if !notes || !cards || !models || !media { return Err(ScopeInsufficient); }
    var reused := !(r.group.Some? && r.group == d.group);
    if reused {
      var age := if d.now > r.created then d.now - r.created else 0;
      if d.maxAgeSeconds == 0 || d.now < r.created || age > d.maxAgeSeconds * 1000 || r.manifest != d.manifest {
        return Err(ReuseRejected);
      }
    }
    if file != Some(Package(r.receipt.checksum, r.size)) { return Err(ArtifactChanged); }
    return Ok(reused);
  }

  // ---------------------------------------------------------------- the lifecycle

  /** What the exporter answers, and what it left at the temporary path. */
  datatype Export = Claimed(bytes: nat, size: nat) | ExportRejected | ExportLost

  datatype Request = Request(scope: ScopeManifest, binding: nat, group: Option<nat>, manifest: nat, now: nat)

  /** The record says what it was made for. */
  predicate RecordOf(r: Record, request: Request) {
    && r.scope == request.scope && r.receipt.binding == request.binding && r.group == request.group
    && r.manifest == request.manifest && r.created == request.now
  }

  /** The one step's state in each operation state of a checkpoint journal. */
  predicate Stage(j: J.Journal) {
    && |j.steps| == 1 && J.Validated(j)
    && match j.state
       case Prepared => j.steps[0].state.IntentRecorded?
       case Preflight => j.steps[0].state.IntentRecorded?
       case Checkpointed => j.steps[0].state.IntentRecorded?
       case Mutating => j.steps[0].state.RequestStarted?
       case Verifying => j.steps[0].state.ObservedSuccess?
       case NeedsRecovery => j.steps[0].state.Unknown? || j.steps[0].state.ObservedSuccess?
       case FailedBeforeWrite => j.steps[0].state.ObservedFailure?
       case Committed => j.steps[0].state.Verified?
       case _ => false
  }

  /** The journals that can be abandoned: the export was requested, and its outcome was not observed. */
  predicate Abandonable(j: J.Journal) {
    |j.steps| == 1 && (j.steps[0].state.RequestStarted? || j.steps[0].state.Unknown?)
  }

  class Lifecycle {
    /** The package inspection and the restoration test: what they find of a scope, or nothing when they fail. */
    const inspect: (Package, ScopeManifest) -> Option<Report>
    const restore: (Package, ScopeManifest) -> Option<Report>
    var journal: Option<J.Journal>
    var record: Option<Record>
    var temporary: Option<Package>
    var output: Option<Package>
    /** Whether each following durable write succeeds; a missing one does. */
    var script: seq<bool>

    /** A receipt rests on a validated scope, an inspected package and a restoration test of it that found the
        same; it claims the coverage that was found and no more. */
    ghost predicate Evidenced(r: Record)
      reads this
    {
      && ValidScope(r.scope) && r.receipt.scope == r.scope && Restored(r) && r.wholeCollection
      && var report := inspect(Package(r.receipt.checksum, r.size), r.scope);
         && report.Some? && restore(Package(r.receipt.checksum, r.size), r.scope) == report
         && r.receipt.includesScheduling == report.value.scheduling && r.receipt.includesSchema == report.value.schema
         && r.receipt.includesMedia == (report.value.mediaVerified == |r.scope.media|)
    }

    ghost predicate Valid()
      reads this
    {
      && (journal.Some? ==> Stage(journal.value))
      && (record.Some? ==> journal.Some? && Evidenced(record.value)
                           && (journal.value.state.Verifying? || journal.value.state.Committed?))
      && (journal.Some? && journal.value.state.Committed? ==> record.Some?)
    }

    constructor (inspect: (Package, ScopeManifest) -> Option<Report>,
                 restore: (Package, ScopeManifest) -> Option<Report>,
                 script: seq<bool>)
      ensures Valid() && journal.None? && record.None? && temporary.None? && output.None?
    {
      this.inspect, this.restore := inspect, restore;
      journal, record, temporary, output := None, None, None, None;
      this.script := script;
    }

    method Durable() returns (ok: bool)
      modifies `script
      ensures (ok <==> Last(old(script), 1)) && script == Rest(old(script), 1)
    {
      ok := script == [] || script[0];
      if script != [] { script := script[1..]; }
    }

    /** Append a version the store accepts; the write itself may fail. */
    method Advance(next: J.Journal) returns (ok: bool)
      requires Valid() && journal.Some? && record.None? && J.Legal(journal.value, next) && Stage(next)
               && !next.state.Committed?
      modifies `journal, `script
      ensures Valid() && journal == if ok then Some(next) else old(journal)
      ensures (ok <==> Last(old(script), 1)) && script == Rest(old(script), 1)
    {
      ok := Durable();
      if ok { journal := Some(next); }
    }

    /** Close the journal as failed and remove the operation's own temporary file. */
    method Reject()
      requires Valid() && journal.Some? && journal.value.state.Mutating? && record.None?
      modifies `journal, `temporary, `script
      ensures Valid() && temporary.None? && journal.Some? && journal.value.state in {J.Mutating, J.FailedBeforeWrite}
      ensures journal.value.state.FailedBeforeWrite? <==> Last(old(script), 1)
    {
      temporary := None;
      var next := Failing(journal.value, "checkpoint was not verified");
      FailingIsLegal(journal.value, "checkpoint was not verified");
      var ok := Advance(next);
    }

    /** What a run needs of its request and of the world: a valid scope and a manifest, and an export that left
        what it claims, which inspection and restoration find alike, and no output in the way. */
    predicate Succeeds(request: Request, exported: Export, file: Option<Package>)
      reads this
    {
      && ValidScope(request.scope) && request.manifest != 0 && output.None? && exported.Claimed? && exported.size != 0
      && file == Some(Package(exported.bytes, exported.size))
      && var report := inspect(Package(exported.bytes, exported.size), request.scope);
         report.Some? && restore(Package(exported.bytes, exported.size), request.scope) == report
    }

    /** The whole run; wherever it stops, the invariant holds, and success means a committed journal with a
        saved receipt whose scope was validated and whose package was inspected and restored.  It succeeds
        exactly when nothing is missing and all seven durable writes last, and saves its receipt exactly when
        the first six do.  When every write lasts, any other run leaves a closed journal, or one in doubt when
        the outcome of the export is unknown. */
    method Create(request: Request, operation: Id, step: Id, exported: Export, file: Option<Package>)
      returns (result: Result<Record, Error>)
      requires Valid() && journal.None?
      modifies this
      ensures Valid()
      ensures result.Ok? ==> journal.Some? && journal.value.state.Committed? && record == Some(result.value)
                             && output == Some(Package(result.value.receipt.checksum, result.value.size))
      ensures !ValidScope(request.scope) ==> result.Err? && journal.None? && output == old(output)
      ensures result.Ok? <==> old(Succeeds(request, exported, file)) && Last(old(script), 7)
      ensures old(record).None? ==> (record.Some? <==> old(Succeeds(request, exported, file)) && Last(old(script), 6))
      ensures old(script) == [] && result.Err? && journal.Some? ==>
                if exported.ExportLost? then journal.value.state.NeedsRecovery?
                    else journal.value.state.FailedBeforeWrite?
      ensures record.Some? ==> RecordOf(record.value, request)
    {
      hide J.Legal, Evidenced, Last, Rest;
      LastMore(script, 4, 3);
      LastMore(script, 4, 2);
      NoneLast(script);
      var valid := Validate(request.scope);
      if !valid { return Err(ScopeInvalid); }
      if request.manifest == 0 { return Err(ManifestRequired); }
      var started := Start(operation, step, request.scope);
      if !started { return Err(LocalFailure); }
      temporary := file;
      if exported.ExportRejected? { Reject(); return Err(Rejected); }
      if exported.ExportLost? {
        DoubtIsLegal(journal.value);
        var ok := Advance(Doubting(journal.value));
        return Err(ExportUnknown);
      }
      var package := Package(exported.bytes, exported.size);
      if temporary != Some(package) || package.size == 0 || inspect(package, request.scope).None?
         || restore(package, request.scope) != inspect(package, request.scope) {
        Reject();
        return Err(Unverified);
      }
      if output.Some? { Reject(); return Err(OutputExists); }
      output, temporary := temporary, None;
      result := Finish(request, package);
    }

    /** From a fresh journal to the durable request. */
    method Start(operation: Id, step: Id, scope: ScopeManifest) returns (ok: bool)
      requires Valid() && journal.None?
      modifies `journal, `script
      ensures Valid() && record.None?
              && (ok ==> journal.Some? && journal.value.state.Mutating?
                         && journal.value.steps[0].expected == SeenScope(scope))
      ensures journal.Some? ==> journal.value.state in {J.Prepared, J.Preflight, J.Checkpointed, J.Mutating}
      ensures (ok <==> Last(old(script), 4)) && (ok ==> script == Rest(old(script), 4))
    {
      hide J.Legal, Evidenced, Last, Rest;
      LastMore(script, 1, 1);
      LastMore(script, 2, 1);
      LastMore(script, 3, 1);
      ok := Durable();
      if !ok { return; }
      journal := Some(J.Journal(operation, operation, J.Prepared,
                                [J.Step(step, SeenScope(scope), J.IntentRecorded, None)]));
      var j := journal.value;
      NextIsLegal(j, j.(state := J.Preflight));
      ok := Advance(j.(state := J.Preflight));
      if !ok { return; }
      NextIsLegal(journal.value, j.(state := J.Checkpointed));
      ok := Advance(j.(state := J.Checkpointed));
      if !ok { return; }
      var begun := j.(state := J.Mutating, steps := [j.steps[0].(state := J.RequestStarted)]);
      NextIsLegal(journal.value, begun);
      ok := Advance(begun);
    }

    /** The receipt, then the commit. */
    method Finish(request: Request, package: Package) returns (result: Result<Record, Error>)
      requires Valid() && journal.Some? && journal.value.state.Mutating? && record.None? && ValidScope(request.scope)
      requires journal.value.steps[0].expected == SeenScope(request.scope)
      requires inspect(package, request.scope).Some?
               && restore(package, request.scope) == inspect(package, request.scope)
      requires output == Some(package)
      modifies this
      ensures Valid() && output == old(output)
      ensures result.Ok? <==> Last(old(script), 3)
      ensures record.Some? <==> Last(old(script), 2)
      ensures result.Ok? ==> journal.Some? && journal.value.state.Committed? && record == Some(result.value)
                             && output == Some(Package(result.value.receipt.checksum, result.value.size))
      ensures record.Some? ==> RecordOf(record.value, request)
    {
      hide J.Legal, Last, Rest;
      LastMore(script, 1, 1);
      LastMore(script, 2, 1);
      var restoration := Restoration(true, request.scope, package.bytes);
      var report := inspect(package, request.scope).value;
      var receipt := Receipt(request.binding, package.bytes, request.scope, report.scheduling,
                             report.mediaVerified == |request.scope.media|, report.schema, restoration);
      var saved := Record(receipt, package.size, request.scope, restoration, true, request.group, request.manifest,
                          request.now);
      var j := journal.value;
      var seen := j.steps[0].(state := J.ObservedSuccess, observed := Some(SeenScope(request.scope)));
      NextIsLegal(j, j.(state := J.Verifying, steps := [seen]));
      var ok := Advance(j.(state := J.Verifying, steps := [seen]));
      if !ok { return Err(LocalFailure); }
      ok := Durable();
      if !ok {
        NextIsLegal(journal.value, journal.value.(state := J.NeedsRecovery));
        ok := Advance(journal.value.(state := J.NeedsRecovery));
        return Err(LocalFailure);
      }
      record := Some(saved);
      var done := journal.value.(state := J.Committed, steps := [seen.(state := J.Verified)]);
      NextIsLegal(journal.value, done);
      ok := Durable();
      if !ok { return Err(LocalFailure); }
      journal := Some(done);
      return Ok(saved);
    }

    /** Close an interrupted journal, never one with a saved receipt.  It succeeds exactly on journals that are
        already closed and on those that stopped between the request and its observation; the store refuses
        the append for any other. */
    method Abandon() returns (result: Result<(), Error>)
      requires Valid()
      modifies `journal, `temporary, `script
      ensures Valid()
      ensures record.Some? ==> result == Err(ReceiptExists) && journal == old(journal)
      ensures result.Ok? ==> journal.Some? && journal.value.state.FailedBeforeWrite?
      ensures old(script) == [] && record.None? && old(journal).Some? ==>
                (result.Ok? <==> old(journal).value.state.FailedBeforeWrite? || Abandonable(old(journal).value))
      ensures result.Err? ==> journal == old(journal)
      ensures old(journal).Some? && record.None? && !old(journal).value.state.FailedBeforeWrite? ==> temporary.None?
    {
      if journal.None? { return Err(JournalRequired); }
      if record.Some? { return Err(ReceiptExists); }
      if journal.value.state.Committed? || journal.value.state.FailedBeforeWrite? { return Ok(()); }
      temporary := None;
      var next := Failing(journal.value, "CHECKPOINT_ABANDONED");
      var accepted := Accepted(journal.value, next);
      AbandonableExactly(journal.value);
      if !accepted { return Err(TransitionRefused); }
      var ok := Advance(next);
      if !ok { return Err(LocalFailure); }
      return Ok(());
    }
  }

  /** The next `k` durable writes last. */
  predicate Last(script: seq<bool>, k: nat) {
    forall i | 0 <= i < k && i < |script| :: script[i]
  }

  function Rest(script: seq<bool>, k: nat): seq<bool> {
    if k <= |script| then script[k..] else []
  }

  lemma LastMore(script: seq<bool>, k: nat, m: nat)
    ensures Last(script, k + m) <==> Last(script, k) && Last(Rest(script, k), m)
    ensures Rest(Rest(script, k), m) == Rest(script, k + m)
  {
    if Last(script, k) && Last(Rest(script, k), m) {
      forall i | 0 <= i < k + m && i < |script| ensures script[i] {
        if i >= k { assert Rest(script, k)[i - k] == script[i]; }
      }
    }
  }

  lemma NoneLast(script: seq<bool>)
    ensures script == [] ==> forall k: nat :: Last(script, k) && Rest(script, k) == []
  {}

  /** The store's own test of an append. */
  predicate Accepted(a: J.Journal, b: J.Journal) {
    J.Legal(a, b)
  }

  function Failing(j: J.Journal, reason: string): J.Journal
    requires |j.steps| == 1
  {
    var step := if j.steps[0].state.ObservedFailure? then j.steps[0]
                else j.steps[0].(state := J.ObservedFailure, observed := Some(SeenRefusal(reason)));
    j.(state := J.FailedBeforeWrite, steps := [step])
  }

  function Doubting(j: J.Journal): J.Journal
    requires |j.steps| == 1
  {
    j.(state := J.NeedsRecovery, steps := [j.steps[0].(state := J.Unknown)])
  }

  /** What an append of a one-step journal needs. */
  predicate OneStep(a: J.Journal, b: J.Journal) {
    && Stage(a) && Stage(b) && a.operation == b.operation && a.approved == b.approved && J.StateMoves(a.state, b.state)
    && !J.Terminal(a.state) && J.StepFollows(a.steps[0], b.steps[0])
  }

  lemma NextIsLegal(a: J.Journal, b: J.Journal)
    requires OneStep(a, b)
    ensures J.Legal(a, b)
  {
    assert b.steps[|a.steps|..] == [];
    assert a.steps[0] in a.steps && b.steps[0] in b.steps;
    assert forall s <- b.steps :: s == b.steps[0];
    assert forall s <- a.steps :: s == a.steps[0];
  }

  lemma FailingIsLegal(j: J.Journal, reason: string)
    requires Stage(j) && j.state.Mutating?
    ensures J.Legal(j, Failing(j, reason)) && Stage(Failing(j, reason))
  {
    assert j.steps[0] in j.steps;
    NextIsLegal(j, Failing(j, reason));
  }

  lemma DoubtIsLegal(j: J.Journal)
    requires Stage(j) && j.state.Mutating?
    ensures J.Legal(j, Doubting(j)) && Stage(Doubting(j))
  {
    assert j.steps[0] in j.steps;
    NextIsLegal(j, Doubting(j));
  }

  /** A journal that stopped before its request, or after its observation, cannot be abandoned. */
  lemma AbandonableExactly(j: J.Journal)
    requires Stage(j) && !J.Terminal(j.state)
    ensures J.Legal(j, Failing(j, "CHECKPOINT_ABANDONED")) <==> Abandonable(j)
    ensures Abandonable(j) ==> Stage(Failing(j, "CHECKPOINT_ABANDONED"))
  {
    var next := Failing(j, "CHECKPOINT_ABANDONED");
    assert j.steps[0] in j.steps && next.steps[0] in next.steps;
    if Abandonable(j) { NextIsLegal(j, next); }
    if J.Legal(j, next) { assert J.StepFollows(j.steps[0], next.steps[0]); }
  }

  /** Two journals the program can leave behind and cannot close: stopped after the second write, and stopped
      between the observation and the receipt. */
  lemma AbandonGap(scope: ScopeManifest)
    ensures var step := J.Step(0, SeenScope(scope), J.IntentRecorded, None);
            var seen := step.(state := J.ObservedSuccess, observed := Some(SeenScope(scope)));
            forall j <- [J.Journal(0, 0, J.Preflight, [step]), J.Journal(0, 0, J.Verifying, [seen])] ::
              Stage(j) && !J.Terminal(j.state) && !J.Legal(j, Failing(j, "CHECKPOINT_ABANDONED"))
  {
    var step := J.Step(0, SeenScope(scope), J.IntentRecorded, None);
    var seen := step.(state := J.ObservedSuccess, observed := Some(SeenScope(scope)));
    AbandonableExactly(J.Journal(0, 0, J.Preflight, [step]));
    AbandonableExactly(J.Journal(0, 0, J.Verifying, [seen]));
  }
}
