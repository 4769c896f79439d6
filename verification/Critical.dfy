/** The critical-section protocol between the worker that holds the collection executor slot and the
    callback it posts to the main thread, with a wait that may time out. */
module Critical {

  /** The worker waits for `done`; after a timeout it looks at `started` under the lock, and either abandons
      the callback and frees the slot, or waits on. */
  datatype Worker = Waiting | TimedOut | Patient | Returned

  /** The posted callback: not yet run by the event loop, inside the function, or over. */
  datatype Callback = Posted | Inside | Over

  datatype State = State(started: bool, abandoned: bool, done: bool, worker: Worker, callback: Callback, runs: nat)

  /** `Enter` and `Decide` are the two lock-protected steps; the others touch no shared flag but `done`. */
  datatype Event = Enter | Leave | Timeout | Decide | Wake

  function Initial(): State {
    State(false, false, false, Waiting, Posted, 0)
  }

  function Next(s: State, e: Event): State {
    match e
    case Enter =>
      if s.callback != Posted then s
      else if s.abandoned then s.(callback := Over)
      else s.(started := true, callback := Inside, runs := s.runs + 1)
    case Leave => if s.callback == Inside then s.(done := true, callback := Over) else s
    case Timeout => if s.worker == Waiting && !s.done then s.(worker := TimedOut) else s
    case Decide =>
      if s.worker != TimedOut then s
      else if !s.started then s.(abandoned := true, worker := Returned)
      else s.(worker := Patient)
    case Wake => if s.worker in {Waiting, Patient} && s.done then s.(worker := Returned) else s
  }

  function Run(s: State, events: seq<Event>): State
    decreases |events|
  {
    if events == [] then s else Run(Next(s, events[0]), events[1..])
  }

  predicate SlotHeld(s: State) {
    s.worker != Returned
  }

  ghost predicate Valid(s: State) {
    && s.runs == (if s.started then 1 else 0)
    && (s.callback == Inside ==> s.started && !s.done && SlotHeld(s))
    && (s.callback == Posted ==> !s.started && !s.done)
    && (s.callback == Over ==> s.abandoned || (s.started && s.done))
    && !(s.abandoned && s.started)
    && (s.abandoned ==> s.worker == Returned) && (s.worker == Returned ==> s.abandoned || s.done)
    && (s.done ==> s.started) && (s.worker == Patient ==> s.started)
  }

  lemma {:induction false} RunValid(s: State, events: seq<Event>)
    requires Valid(s)
    ensures Valid(Run(s, events))
    ensures s.abandoned ==> Run(s, events).abandoned && Run(s, events).runs == s.runs
    ensures s.worker == Returned ==> Run(s, events).runs == s.runs
    decreases |events|
  {
    if events != [] {
      assert Valid(Next(s, events[0]));
      RunValid(Next(s, events[0]), events[1..]);
    }
  }

  /** In every interleaving the function runs at most once, it runs only while the worker holds the executor
      slot, and once the worker returned, abandoned or not, it never runs again. */
  lemma CriticalSection(events: seq<Event>, more: seq<Event>)
    ensures var s := Run(Initial(), events); var t := Run(s, more);
            && t.runs <= 1
            && (s.callback == Inside ==> SlotHeld(s))
            && (s.abandoned ==> t.runs == 0)
            && (!SlotHeld(s) ==> t.runs == s.runs && t.callback != Inside)
  {
    RunValid(Initial(), events);
    RunValid(Run(Initial(), events), more);
  }

  /** A started function is waited for: the worker can return only after it ended. */
  lemma StartedIsAwaited(events: seq<Event>)
    ensures var s := Run(Initial(), events); s.started && !SlotHeld(s) ==> s.done && s.callback == Over
  {
    RunValid(Initial(), events);
  }

  /** The shared flags and the two program counters in place. */
  class Section {
    var started: bool
    var abandoned: bool
    var done: bool
    var worker: Worker
    var callback: Callback
    ghost var runs: nat

    ghost function View(): State
      reads this
    {
      State(started, abandoned, done, worker, callback, runs)
    }

    constructor ()
      ensures View() == Initial()
    {
      started, abandoned, done, worker, callback, runs := false, false, false, Waiting, Posted, 0;
    }

    /** The callback up to the start of the function; the result says whether it runs it. */
    method OnMain() returns (entered: bool)
      modifies this
      ensures View() == Next(old(View()), Enter) && (entered <==> runs > old(runs))
    {
      entered := callback == Posted && !abandoned;
      if entered {
        started, callback, runs := true, Inside, runs + 1;
      } else if callback == Posted {
        callback := Over;
      }
    }

    method FunctionEnds()
      modifies this
      ensures View() == Next(old(View()), Leave)
    {
      if callback == Inside { done, callback := true, Over; }
    }

    /** The worker after its bounded wait. */
    method AfterWait(timedOut: bool)
      modifies this
      ensures View() == Next(old(View()), if timedOut then Timeout else Wake)
    {
      if timedOut {
        if worker == Waiting && !done { worker := TimedOut; }
      } else if (worker == Waiting || worker == Patient) && done {
        worker := Returned;
      }
    }

    method DecideUnderLock()
      modifies this
      ensures View() == Next(old(View()), Decide)
    {
      if worker == TimedOut {
        if !started { abandoned, worker := true, Returned; } else { worker := Patient; }
      }
    }

    /** Any schedule of the two threads. */
    method Interleave(schedule: seq<Event>)
      modifies this
      ensures View() == Run(old(View()), schedule)
      ensures old(Valid(View())) ==> runs <= 1
    {
      ghost var before := View();
      for i := 0 to |schedule|
        invariant Run(View(), schedule[i..]) == Run(before, schedule)
      {
        assert schedule[i..][0] == schedule[i] && schedule[i..][1..] == schedule[i + 1..];
        match schedule[i] {
          case Enter => var entered := OnMain();
          case Leave => FunctionEnds();
          case Timeout => AfterWait(true);
          case Decide => DecideUnderLock();
          case Wake => AfterWait(false);
        }
      }
      if Valid(before) { RunValid(before, schedule); }
    }
  }
}
