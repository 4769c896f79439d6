/** The companion undisturbed: it serves one accepted request from the queue to `verified`. */
module Serving {
  import opened Wrappers
  import opened Anki
  import opened Effects
  import opened Readback
  import opened Ledger
  import opened LedgerLaws
  import opened Companion
  import opened CompanionLaws
  import opened System

  datatype Owned = Owned(token: Uuid, fence: nat)

  function RequestFor(intent: Intent, i: nat, epoch: Uuid, owner: Owned): Request
    requires i < |intent.steps|
  {
    var s := intent.steps[i];
    Request(KeyOf(intent, s), s.body, intent.approved, epoch, owner.token, owner.fence)
  }

  /** Nobody is at work, and the client's owner is the current one of the open session. */
  ghost predicate Calm(c: Companion, intent: Intent, epoch: Uuid, owner: Owned) {
    && c.exec.Idle? && c.exporting.None? && c.session == Some(Session(intent.lineage, epoch))
    && CurrentOwner(c.ledger) == Some(Owner(owner.fence, owner.token, intent.lineage, epoch, intent.approved))
    && (forall k :: !Flying(c.ledger.rows, k)) && c.live == {} && c.callbacks == {}
  }

  /** The effect is accepted and complete, the companion reads it back, and so does the client. */
  ghost predicate Ready(col: Collection, intent: Intent, i: nat) {
    && i < |intent.steps|
    && var s := intent.steps[i];
       && ValidBody(s.body) && !s.body.ExportCheckpoint? && Accepts(col, s.body)
       && var out := Perform(col, s.body);
          && out.done && ReadsBack(out.col, s.body, out.note)
          && ReadStep(out.col, intent.pre, s) == Some(Expected(s.expected))
  }

  /** Why the callback refuses a row it cannot start. */
  function WhyRefused(c: Companion, key: Key): BeforeWrite
    requires key in c.ledger.rows
  {
    if !IsCurrent(c.ledger, c.ledger.rows[key].token, c.ledger.rows[key].fence) then OperatorCancelled
    else if !SessionMatches(c, key) then SessionChanged
    else PreflightRejected
  }

  /** The callback of an accepted row, undisturbed. */
  function ServeLabels(c: Companion, key: Key): seq<Label> {
    if key !in c.callbacks || key !in c.ledger.rows then []
    else if Clears(c, key) then [Start(key), DoEffect, CloseRow(true)]
    else [Refuse(key, WhyRefused(c, key))]
  }

  function Served(c: Companion, r: Request, net: set<Request>, own: set<Id>): Companion {
    var queued := Apply(c, Submit(r, true));
    Interfere(queued, net, own, ServeLabels(queued, r.key))
  }

  // ---------------------------------------------------------------- one label after another

  /** A new request that the ledger accepts. */
  lemma Accepted(c: Companion, r: Request)
    requires Inv(c) && c.exec.Idle? && SubmitCall(c, r).Ok? && r.key !in c.ledger.rows
    ensures var q := Apply(c, Submit(r, true));
            && SubmitCall(c, r).value.1 && Enabled(c, Submit(r, true))
            && q == c.(ledger := q.ledger, live := c.live + {r.key}, callbacks := c.callbacks + {r.key})
            && Inv(q) && StatusIs(q.ledger, r.key, Queued)
            && q.ledger == WithRow(c.ledger, r.key, q.ledger.rows[r.key]) && q.ledger.rows[r.key].body == r.body
            && q.ledger.rows[r.key].token == r.token && q.ledger.rows[r.key].fence == r.fence
            && IsCurrent(q.ledger, r.token, r.fence) && SessionMatches(q, r.key)
            && (Clears(q, r.key) <==> Accepts(c.col, r.body))
  {
    hide Inv, Accepts, Sound;
    SoundIs(c);
    QueueNewSound(c.ledger, r);
    ApplyKeeps(c, Submit(r, true));
  }

  lemma Submitted(c: Companion, intent: Intent, i: nat, epoch: Uuid, owner: Owned)
    requires Inv(c) && Calm(c, intent, epoch, owner) && Ready(c.col, intent, i)
             && KeyOf(intent, intent.steps[i]) !in c.ledger.rows
    ensures var r := RequestFor(intent, i, epoch, owner); var q := Apply(c, Submit(r, true));
            && SubmitCall(c, r).Ok? && SubmitCall(c, r).value.1 && Enabled(c, Submit(r, true))
            && q == c.(ledger := q.ledger, live := {r.key}, callbacks := {r.key})
            && Inv(q) && StatusIs(q.ledger, r.key, Queued) && Clears(q, r.key)
            && q.ledger == WithRow(c.ledger, r.key, q.ledger.rows[r.key]) && q.ledger.rows[r.key].body == r.body
            && q.ledger.rows[r.key].token == owner.token && q.ledger.rows[r.key].fence == owner.fence
  {
    hide Inv, Accepts, Sound, Perform, ReadStep, ReadsBack;
    var r := RequestFor(intent, i, epoch, owner);
    assert Inv(c) ==> Sound(c.ledger) by { SoundIs(c); }
    assert forall k <- c.ledger.rows :: !Flying(c.ledger.rows, k);
    QueueNewSound(c.ledger, r);
    ApplyKeeps(c, Submit(r, true));
  }

  lemma SoundIs(c: Companion)
    requires Inv(c)
    ensures Sound(c.ledger)
  {}

  /** The current owner depends on the owner tables only. */
  lemma SameOwner(a: Ledger, b: Ledger)
    requires a.owners == b.owners && a.released == b.released
    ensures CurrentOwner(a) == CurrentOwner(b) && Newest(a) == Newest(b)
  {}

  lemma Commenced(q: Companion, key: Key)
    requires Inv(q) && q.exec.Idle? && key in q.callbacks && StatusIs(q.ledger, key, Queued) && Clears(q, key)
    ensures var p := Apply(q, Start(key));
            && Enabled(q, Start(key)) && Inv(p) && p.exec == Prepared(key)
            && p == q.(ledger := p.ledger, exec := Prepared(key), callbacks := q.callbacks - {key})
            && StatusIs(p.ledger, key, Running) && p.ledger == WithRow(q.ledger, key, p.ledger.rows[key])
            && p.ledger.rows[key] == q.ledger.rows[key].(events := p.ledger.rows[key].events)
  {
    hide Accepts, Sound;
    StartLedger(q, key);
    StartKeeps(q, Start(key));
  }

  lemma Carried(p: Companion, key: Key)
    requires Inv(p) && p.exec == Prepared(key) && key in p.ledger.rows && !p.ledger.rows[key].body.ExportCheckpoint?
    ensures var body := p.ledger.rows[key].body; var e := Apply(p, DoEffect);
            && Accepts(p.col, body) && Enabled(p, DoEffect) && Inv(e)
            && var out := Perform(p.col, body);
               && e == p.(col := out.col, log := e.log, exec := Performed(key, out.done, out.note))
               && |e.log| == |p.log| + 1 && e.log[..|p.log|] == p.log && e.log[|p.log|].key == key
               && e.log[|p.log|].body == body
  {
    hide Accepts, Sound, Perform, Passes;
    assert Clears(p, key) && CanPerform(p) by { PreparedClears(p, key); }
    EffectKeeps(p, DoEffect);
  }

  lemma PreparedClears(p: Companion, key: Key)
    requires Inv(p) && p.exec == Prepared(key)
    ensures key in p.ledger.rows && Clears(p, key) && CanPerform(p)
  {
    hide Accepts, Recorded;
    FlyingIs(p, key, Running);
  }

  /** A row the callback cannot start is closed before any write. */
  lemma Declined(q: Companion, key: Key)
    requires Inv(q) && q.exec.Idle? && key in q.callbacks && StatusIs(q.ledger, key, Queued) && !Clears(q, key)
    ensures var l := Refuse(key, WhyRefused(q, key)); var d := Apply(q, l);
            && Enabled(q, l) && Inv(d)
            && d == q.(ledger := d.ledger, live := q.live - {key}, callbacks := q.callbacks - {key}, exec := Idle)
            && StatusIs(d.ledger, key, FailedBeforeWrite(WhyRefused(q, key)))
  {
    hide Accepts, Sound, Recorded;
    RefuseKeeps(q, Refuse(key, WhyRefused(q, key)));
  }

  /** An effect that was cut short or is not read back leaves its row in doubt. */
  lemma LeftInDoubt(e: Companion, key: Key)
    requires Inv(e) && e.exec.Performed? && e.exec.key == key && key in e.ledger.rows
    requires !(e.exec.done && ReadsBack(e.col, e.ledger.rows[key].body, e.exec.note))
    ensures var d := Apply(e, CloseRow(true));
            && Enabled(e, CloseRow(true)) && Inv(d)
            && d == e.(ledger := d.ledger, live := e.live - {key}, callbacks := e.callbacks - {key}, exec := Idle)
            && StatusIs(d.ledger, key, Unknown(ObservationIncomplete))
  {
    hide Accepts, Sound, ReadsBack;
    CloseRowIs(e, true);
    CloseRowKeeps(e, CloseRow(true));
    RunningCloses(e.ledger, key, ClosingState(e));
  }

  lemma Concluded(e: Companion, key: Key, note: NoteId)
    requires Inv(e) && e.exec == Performed(key, true, note) && key in e.ledger.rows
    requires ReadsBack(e.col, e.ledger.rows[key].body, note)
    ensures var d := Apply(e, CloseRow(true));
            && Enabled(e, CloseRow(true)) && Inv(d)
            && d == e.(ledger := d.ledger, live := e.live - {key}, callbacks := e.callbacks - {key}, exec := Idle)
            && key in d.ledger.rows && Status(d.ledger.rows[key]).Verified?
            && d.ledger == WithRow(e.ledger, key, d.ledger.rows[key])
  {
    hide Accepts, Sound, ReadsBack;
    CloseRowIs(e, true);
    CloseRowKeeps(e, CloseRow(true));
    assert e.ledger.rows[key] == e.ledger.rows[e.exec.key];
  }

  // ---------------------------------------------------------------- the whole service

  lemma InterfereThree(c: Companion, net: set<Request>, own: set<Id>, a: Label, b: Label, d: Label)
    requires !a.Submit? && !b.Submit? && !d.Submit?
    ensures Interfere(c, net, own, [a, b, d]) == Apply(Apply(Apply(c, a), b), d)
  {
    hide Apply;
    assert [a, b, d][1..] == [b, d] && [b, d][1..] == [d] && [d][1..] == [];
    var x, y, z := Apply(c, a), Apply(Apply(c, a), b), Apply(Apply(Apply(c, a), b), d);
    assert Interfere(z, net, own, []) == z;
    assert Interfere(y, net, own, [d]) == z;
    assert Interfere(x, net, own, [b, d]) == z;
  }

  lemma InterfereOnce(c: Companion, net: set<Request>, own: set<Id>, l: Label)
    requires !l.Submit?
    ensures Interfere(c, net, own, [l]) == Apply(c, l)
  {
    hide Apply;
    assert [l][1..] == [];
    assert Interfere(Apply(c, l), net, own, []) == Apply(c, l);
  }

  /** Whatever it asks for, an undisturbed request the ledger accepts is settled: refused before any write when its
      preflight does, and otherwise made once, and verified exactly when it is complete and read back. */
  lemma ServedAny(c: Companion, net: set<Request>, own: set<Id>, r: Request)
    requires Inv(c) && c.exec.Idle? && SubmitCall(c, r).Ok? && r.key !in c.ledger.rows && !r.body.ExportCheckpoint?
    ensures var d := Served(c, r, net, own);
            && Inv(d) && d.exec.Idle? && d.session == c.session && r.key in d.ledger.rows
            && if !Accepts(c.col, r.body)
               then Status(d.ledger.rows[r.key]) == FailedBeforeWrite(PreflightRejected) && d.col == c.col
                    && d.log == c.log
               else var out := Perform(c.col, r.body);
                    && d.col == out.col && |d.log| == |c.log| + 1 && c.log <= d.log && d.log[|c.log|].key == r.key
                    && if out.done && ReadsBack(out.col, r.body, out.note) then Status(d.ledger.rows[r.key]).Verified?
                       else Status(d.ledger.rows[r.key]) == Unknown(ObservationIncomplete)
  {
    hide Inv, Accepts, Perform, ReadsBack, Enabled, Next, Clears;
    Accepted(c, r);
    var q := Apply(c, Submit(r, true));
    if !Accepts(c.col, r.body) {
      Declined(q, r.key);
      InterfereOnce(q, net, own, Refuse(r.key, WhyRefused(q, r.key)));
      return;
    }
    Commenced(q, r.key);
    var p := Apply(q, Start(r.key));
    Carried(p, r.key);
    var e := Apply(p, DoEffect);
    if e.exec.done && ReadsBack(e.col, r.body, e.exec.note) {
      Concluded(e, r.key, e.exec.note);
    } else {
      LeftInDoubt(e, r.key);
    }
    InterfereThree(q, net, own, Start(r.key), DoEffect, CloseRow(true));
  }

  /** An undisturbed request for a step that is ready takes effect once, is verified, and leaves the
      companion calm. */
  lemma ServedCalm(c: Companion, net: set<Request>, own: set<Id>, intent: Intent, i: nat, epoch: Uuid, owner: Owned)
    requires Inv(c) && Calm(c, intent, epoch, owner) && Ready(c.col, intent, i)
             && KeyOf(intent, intent.steps[i]) !in c.ledger.rows
    ensures var r := RequestFor(intent, i, epoch, owner); var d := Served(c, r, net, own);
            && SubmitCall(c, r).Ok? && Enabled(c, Submit(r, true))
            && Inv(d) && Calm(d, intent, epoch, owner)
            && d.col == Perform(c.col, r.body).col
            && |d.log| == |c.log| + 1 && c.log <= d.log && d.log[|c.log|].key == r.key && d.log[|c.log|].body == r.body
            && r.key in d.ledger.rows && Status(d.ledger.rows[r.key]).Verified?
            && d.ledger == WithRow(c.ledger, r.key, d.ledger.rows[r.key])
  {
    hide Inv, Accepts, Perform, ReadStep, ReadsBack, Enabled, Next, Clears;
    var r := RequestFor(intent, i, epoch, owner);
    Submitted(c, intent, i, epoch, owner);
    var q := Apply(c, Submit(r, true));
    Commenced(q, r.key);
    var p := Apply(q, Start(r.key));
    Carried(p, r.key);
    var e := Apply(p, DoEffect);
    Concluded(e, r.key, e.exec.note);
    var d := Apply(e, CloseRow(true));
    InterfereThree(q, net, own, Start(r.key), DoEffect, CloseRow(true));
    assert d.ledger.owners == c.ledger.owners && d.ledger.released == c.ledger.released;
    SameOwner(c.ledger, d.ledger);
    forall k ensures !Flying(d.ledger.rows, k) { assert !Flying(c.ledger.rows, k); }
  }

  // ---------------------------------------------------------------- a whole intent

  /** The first `n` steps have had their effect, each seen as expected, and every later one is ready: its
      precondition shows, and its effect will show its expectation. */
  ghost predicate OnTrack(col: Collection, intent: Intent, n: nat)
    requires n <= |intent.steps|
    decreases |intent.steps| - n
  {
    && (n > 0 ==> ReadStep(col, intent.pre, intent.steps[n - 1]) == Some(Expected(intent.steps[n - 1].expected)))
    && (n < |intent.steps| ==>
          && ReadStep(col, intent.pre, intent.steps[n]) == Some(Unchanged)
          && Ready(col, intent, n)
          && OnTrack(Perform(col, intent.steps[n].body).col, intent, n + 1))
  }

  /** The collection after the complete effects of `k` steps from `n`. */
  function After(col: Collection, intent: Intent, n: nat, k: nat): Collection
    requires n + k <= |intent.steps|
  {
    if k == 0 then col
    else
      var c, body := After(col, intent, n, k - 1), intent.steps[n + k - 1].body;
      if Accepts(c, body) then Perform(c, body).col else c
  }

  /** A track from the start leads through every later point. */
  lemma {:induction false} TrackedAfter(col: Collection, intent: Intent, k: nat)
    requires k <= |intent.steps| && OnTrack(col, intent, 0)
    ensures OnTrack(After(col, intent, 0, k), intent, k)
  {
    hide Accepts, Perform, ReadStep, ReadsBack;
    if k > 0 { TrackedAfter(col, intent, k - 1); }
  }

  lemma ReadyAccepts(col: Collection, intent: Intent, i: nat)
    requires Ready(col, intent, i)
    ensures i < |intent.steps| && Accepts(col, intent.steps[i].body)
  {}

  /** The effect of one step, made once more. */
  ghost predicate Took(c: Companion, d: Companion, intent: Intent, i: nat) {
    && i < |intent.steps| && Accepts(c.col, intent.steps[i].body) && d.col == Perform(c.col, intent.steps[i].body).col
    && |d.log| == |c.log| + 1 && c.log <= d.log && d.log[|c.log|].key == KeyOf(intent, intent.steps[i])
  }

  /** `k` more effects since `c`, one for each step from `n`. */
  ghost predicate Executed(c: Companion, d: Companion, intent: Intent, n: nat, k: nat) {
    && n + k <= |intent.steps|
    && |d.log| == |c.log| + k && c.log <= d.log && d.col == After(c.col, intent, n, k)
    && forall m | 0 <= m < k :: EntryFor(c, d, intent, n, m)
  }

  ghost predicate EntryFor(c: Companion, d: Companion, intent: Intent, n: nat, m: nat)
    requires n + m < |intent.steps| && |c.log| + m < |d.log|
  {
    d.log[|c.log| + m].key == KeyOf(intent, intent.steps[n + m])
  }

  lemma ExecutedOneMore(c: Companion, d: Companion, e: Companion, intent: Intent, n: nat, k: nat)
    requires Executed(c, d, intent, n, k) && Took(d, e, intent, n + k)
    ensures Executed(c, e, intent, n, k + 1)
  {
    hide Accepts, Perform;
    forall m | 0 <= m < k + 1 ensures EntryFor(c, e, intent, n, m) {
      if m < k { assert EntryFor(c, d, intent, n, m) && e.log[|c.log| + m] == d.log[|c.log| + m]; }
    }
  }

  lemma NoneExecuted(c: Companion, intent: Intent, n: nat)
    ensures n <= |intent.steps| ==> Executed(c, c, intent, n, 0)
  {}
}
