/** The sliding-window budget of provider calls: a log of start times, read before each call and compacted
    now and then. */
module CallBudget {
  import opened Wrappers

  /** The times after `since`. */
  function Since(log: seq<nat>, since: nat): seq<nat> {
    if log == [] then []
    else Since(log[..|log| - 1], since) + (if log[|log| - 1] > since then [log[|log| - 1]] else [])
  }

  /** The times in the half-open window of `window` seconds after `s`. */
  function InWindow(log: seq<nat>, s: nat, window: nat): nat {
    if log == [] then 0
    else InWindow(log[..|log| - 1], s, window) + (if s < log[|log| - 1] <= s + window then 1 else 0)
  }

  function Cutoff(now: nat, window: nat): nat {
    if now > window then now - window else 0
  }

  function Min(times: seq<nat>): nat
    requires times != []
  {
    if |times| == 1 then times[0]
    else if times[|times| - 1] < Min(times[..|times| - 1]) then times[|times| - 1] else Min(times[..|times| - 1])
  }

  predicate Spent(log: seq<nat>, calls: nat, window: nat, now: nat) {
    |Since(log, Cutoff(now, window))| >= calls
  }

  // ---------------------------------------------------------------- facts about logs

  lemma {:induction false} SinceAppends(log: seq<nat>, more: seq<nat>, since: nat)
    ensures Since(log + more, since) == Since(log, since) + Since(more, since)
    decreases |more|
  {
    if more == [] {
      assert log + more == log;
    } else {
      assert (log + more)[..|log + more| - 1] == log + more[..|more| - 1];
      SinceAppends(log, more[..|more| - 1], since);
    }
  }

  lemma {:induction false} SinceSince(log: seq<nat>, floor: nat, since: nat)
    requires floor <= since
    ensures Since(Since(log, floor), since) == Since(log, since)
    decreases |log|
  {
    if log != [] {
      var head, last := log[..|log| - 1], log[|log| - 1];
      SinceSince(head, floor, since);
      SinceAppends(Since(head, floor), if last > floor then [last] else [], since);
      assert Since([last], since) == if last > since then [last] else [];
    }
  }

  lemma {:induction false} SinceShrinks(log: seq<nat>, a: nat, b: nat)
    requires a <= b
    ensures |Since(log, b)| <= |Since(log, a)|
  {
    if log != [] { SinceShrinks(log[..|log| - 1], a, b); }
  }

  lemma {:induction false} WindowIsRecent(log: seq<nat>, s: nat, window: nat)
    ensures InWindow(log, s, window) <= |Since(log, s)|
  {
    if log != [] { WindowIsRecent(log[..|log| - 1], s, window); }
  }

  // ---------------------------------------------------------------- the window bound

  /** No half-open window of `window` seconds holds more than `calls` calls. */
  ghost predicate Bounded(log: seq<nat>, calls: nat, window: nat) {
    forall s: nat :: InWindow(log, s, window) <= calls
  }

  /** A call admitted at `now` and stamped no earlier keeps every window within the budget. */
  lemma AdmittedIsBounded(log: seq<nat>, calls: nat, window: nat, now: nat, stamp: nat)
    requires Bounded(log, calls, window) && !Spent(log, calls, window, now) && now <= stamp
    ensures Bounded(log + [stamp], calls, window)
  {
    forall s: nat ensures InWindow(log + [stamp], s, window) <= calls {
      assert (log + [stamp])[..|log|] == log;
      if s < stamp <= s + window {
        WindowIsRecent(log, s, window);
        SinceShrinks(log, Cutoff(now, window), s);
      } else {
        assert InWindow(log, s, window) <= calls;
      }
    }
  }

  // ---------------------------------------------------------------- the first free instant

  lemma {:induction false} MinIsLeast(times: seq<nat>)
    requires times != []
    ensures Min(times) in times && forall t <- times :: Min(times) <= t
  {
    if |times| > 1 {
      var rest := times[..|times| - 1];
      MinIsLeast(rest);
      assert times == rest + [times[|times| - 1]];
    }
  }

  lemma {:induction false} SinceIsAfter(log: seq<nat>, since: nat)
    ensures forall t <- Since(log, since) :: t > since
  {
    if log != [] { SinceIsAfter(log[..|log| - 1], since); }
  }

  /** A later cutoff below every recent time changes nothing. */
  lemma {:induction false} SameSince(log: seq<nat>, a: nat, b: nat)
    requires a <= b && forall t <- Since(log, a) :: t > b
    ensures Since(log, b) == Since(log, a)
  {
    if log != [] {
      var head, last := log[..|log| - 1], log[|log| - 1];
      assert forall t <- Since(head, a) :: t in Since(log, a);
      assert last > a ==> last in Since(log, a);
      SameSince(head, a, b);
    }
  }

  /** A cutoff at one of the recent times drops at least that one. */
  lemma {:induction false} DropsOne(log: seq<nat>, a: nat, m: nat)
    requires a <= m && m in Since(log, a)
    ensures |Since(log, m)| < |Since(log, a)|
    decreases |log|
  {
    var head, last := log[..|log| - 1], log[|log| - 1];
    SinceShrinks(head, a, m);
    if m in Since(head, a) { DropsOne(head, a, m); } else { assert m == last; }
  }

  /** With exactly the budget in the window, every instant before `until` is refused and `until` is not. */
  lemma UntilIsFirst(log: seq<nat>, calls: nat, window: nat, now: nat)
    requires calls > 0 && |Since(log, Cutoff(now, window))| == calls
    ensures var until := Min(Since(log, Cutoff(now, window))) + window;
            && (forall t: nat | now <= t < until :: Spent(log, calls, window, t))
            && !Spent(log, calls, window, until)
  {
    var a := Cutoff(now, window);
    var recent := Since(log, a);
    MinIsLeast(recent);
    SinceIsAfter(log, a);
    var m := Min(recent);
    forall t: nat | now <= t < m + window ensures Spent(log, calls, window, t) { SameSince(log, a, Cutoff(t, window)); }
    DropsOne(log, a, m);
    assert Cutoff(m + window, window) == m;
  }

  // ---------------------------------------------------------------- the log

  class CallLog {
    const calls: nat
    const window: nat
    var lines: seq<nat>
    /** Every call ever made, and the latest cutoff of a compaction. */
    ghost var history: seq<nat>
    ghost var floor: nat

    /** From `floor` on the compacted log answers as the whole history does. */
    ghost predicate Valid()
      reads this
    {
      calls > 0 && Bounded(history, calls, window) && forall x: nat | x >= floor :: Since(lines, x) == Since(history, x)
    }

    constructor (calls: nat, window: nat)
      requires calls > 0
      ensures Valid() && history == [] && floor == 0 && this.calls == calls && this.window == window
    {
      this.calls, this.window, lines, history, floor := calls, window, [], [], 0;
    }

    method CallsSince(since: nat) returns (recent: seq<nat>)
      ensures recent == Since(lines, since)
    {
      recent := [];
      for i := 0 to |lines|
        invariant recent == Since(lines[..i], since)
      {
        assert lines[..i + 1][..i] == lines[..i];
        if lines[i] > since { recent := recent + [lines[i]]; }
      }
      assert lines[..|lines|] == lines;
    }

    /** When the budget of the window is spent, the instant it frees again. */
    method BudgetSpent(now: nat) returns (until: Option<nat>)
      requires Valid() && floor <= Cutoff(now, window)
      ensures until.Some? <==> Spent(history, calls, window, now)
      ensures until.Some? ==> until == Some(Min(Since(history, Cutoff(now, window))) + window)
    {
      var recent := CallsSince(Cutoff(now, window));
      if |recent| < calls { return None; }
      var least := recent[0];
      for i := 1 to |recent|
        invariant least == Min(recent[..i])
      {
        assert recent[..i + 1][..i] == recent[..i];
        if recent[i] < least { least := recent[i]; }
      }
      assert recent[..|recent|] == recent;
      return Some(least + window);
    }

    /** A log of four budgets is cut down to the window at `now`. */
    method Compact(now: nat)
      requires calls > 0 && floor <= Cutoff(now, window)
      requires forall x: nat | x >= floor :: Since(lines, x) == Since(history, x)
      modifies `lines, `floor
      ensures old(floor) <= floor <= Cutoff(now, window)
      ensures forall x: nat | x >= floor :: Since(lines, x) == Since(history, x)
      ensures |Since(history, Cutoff(now, window))| < calls ==> |lines| < 4 * calls
    {
      if |lines| >= 4 * calls {
        var keep := CallsSince(Cutoff(now, window));
        forall x: nat | x >= Cutoff(now, window) ensures Since(keep, x) == Since(history, x) {
          SinceSince(lines, Cutoff(now, window), x);
        }
        lines, floor := keep, Cutoff(now, window);
      }
    }

    /** Record one call at `stamp`. */
    method CountCall(now: nat, stamp: nat)
      requires calls > 0 && floor <= Cutoff(now, window)
      requires forall x: nat | x >= floor :: Since(lines, x) == Since(history, x)
      modifies this
      ensures history == old(history) + [stamp] && old(floor) <= floor <= Cutoff(now, window)
      ensures forall x: nat | x >= floor :: Since(lines, x) == Since(history, x)
      ensures |Since(old(history), Cutoff(now, window))| < calls ==> |lines| <= 4 * calls
    {
      Compact(now);
      forall x: nat ensures Since(lines + [stamp], x) == Since(lines, x) + Since([stamp], x)
                    ensures Since(history + [stamp], x) == Since(history, x) + Since([stamp], x)
      {
        SinceAppends(lines, [stamp], x);
        SinceAppends(history, [stamp], x);
      }
      hide Since;
      lines, history := lines + [stamp], history + [stamp];
    }

    /** One call to a provider under a clock read three times in order: the budget test, the compaction, the stamp. */
    method Generate(tested: nat, compacted: nat, stamp: nat) returns (until: Option<nat>)
      requires Valid() && floor <= Cutoff(tested, window) && tested <= compacted <= stamp
      modifies this
      ensures Valid() && old(floor) <= floor <= Cutoff(compacted, window)
      ensures until.Some? <==> Spent(old(history), calls, window, tested)
      ensures history == if until.Some? then old(history) else old(history) + [stamp]
      ensures |old(lines)| <= 4 * calls ==> |lines| <= 4 * calls
    {
      until := BudgetSpent(tested);
      if until.Some? { return; }
      SinceShrinks(history, Cutoff(tested, window), Cutoff(compacted, window));
      AdmittedIsBounded(history, calls, window, tested, stamp);
      CountCall(compacted, stamp);
    }

    /** Any serialized calls under a clock that does not go back: compaction never changes a decision, no window
        ever holds more than the budget, and the log never more than four. */
    method Calls(clock: seq<(nat, nat, nat)>) returns (admitted: seq<bool>)
      requires Valid() && floor == 0
      requires forall i | 0 <= i < |clock| :: clock[i].0 <= clock[i].1 <= clock[i].2
      requires forall i, j | 0 <= i < j < |clock| :: clock[i].2 <= clock[j].0
      modifies this
      ensures Valid() && |admitted| == |clock| && Bounded(history, calls, window)
      ensures history == old(history) + Admitted(old(history), clock, calls, window).0
      ensures admitted == Admitted(old(history), clock, calls, window).1
      ensures |old(lines)| <= 4 * calls ==> |lines| <= 4 * calls
    {
      hide Spent, Bounded, Since, Admitted;
      admitted := [];
      NoneAdmitted(old(history), clock, calls, window);
      for i := 0 to |clock|
        invariant Valid() && |admitted| == i
        invariant forall k | i <= k < |clock| :: floor <= Cutoff(clock[k].0, window)
        invariant history == old(history) + Admitted(old(history), clock[..i], calls, window).0
        invariant admitted == Admitted(old(history), clock[..i], calls, window).1
        invariant |old(lines)| <= 4 * calls ==> |lines| <= 4 * calls
      {
        OneMoreAdmitted(old(history), clock, i, calls, window);
        var until := Generate(clock[i].0, clock[i].1, clock[i].2);
        admitted := admitted + [until.None?];
      }
      assert clock[..|clock|] == clock;
    }
  }

  /** The decisions of a log that is never compacted: the stamps it admits, and each answer. */
  function Admitted(history: seq<nat>, clock: seq<(nat, nat, nat)>, calls: nat, window: nat): (seq<nat>, seq<bool>) {
    if clock == [] then ([], [])
    else
      var (stamps, answers) := Admitted(history, clock[..|clock| - 1], calls, window);
      var (tested, _, stamp) := clock[|clock| - 1];
      if Spent(history + stamps, calls, window, tested) then (stamps, answers + [false])
          else (stamps + [stamp], answers + [true])
  }

  lemma NoneAdmitted(history: seq<nat>, clock: seq<(nat, nat, nat)>, calls: nat, window: nat)
    ensures Admitted(history, clock[..0], calls, window) == ([], [])
  {}

  lemma OneMoreAdmitted(history: seq<nat>, clock: seq<(nat, nat, nat)>, i: nat, calls: nat, window: nat)
    requires i < |clock|
    ensures var (stamps, answers) := Admitted(history, clock[..i], calls, window);
            var spent := Spent(history + stamps, calls, window, clock[i].0);
            && Admitted(history, clock[..i + 1], calls, window).0 == (if spent then stamps else stamps + [clock[i].2])
            && Admitted(history, clock[..i + 1], calls, window).1 == answers + [!spent]
  {
    assert clock[..i + 1][..i] == clock[..i];
  }
}
