/** The foreground exchange worker: lifecycle events and worker steps in any interleaving.

    The worker holds the condition's lock except while an exchange runs, so its two critical
    sections, starting an exchange and ending it, are the steps.  `shownFrom` and `lastStart` are
    history variables: the generation a visible result came from, and when the last exchange began.
 */
module Delivery {
  import opened Options

  datatype Settings = Settings(cooldown: real, maxBackoff: real, maxRetries: nat)

  predicate ValidSettings(k: Settings) {
    0.0 < k.cooldown <= k.maxBackoff && k.maxRetries <= 5
  }

  datatype Outcome = Exchanged(more: bool) | Transient(code: nat) | Permanent(code: nat)

  datatype Running = Running(generation: nat, cancelled: bool)

  datatype Worker = Worker(
    online: bool, foreground: bool, pending: bool, closed: bool, generation: nat, attempts: nat, failures: nat,
    next: real, running: Option<Running>, shown: Option<Outcome>,
    shownFrom: Option<nat>, lastStart: Option<real>)

  datatype Step =
    | Update(online: Option<bool>, foreground: Option<bool>)
    | RequestSync
    | Close
    | Start(now: real)
    | End(now: real, outcome: Outcome)

  function Or(v: Option<bool>, default: bool): bool { if v.Some? then v.value else default }

  function Cancelled(r: Option<Running>): Option<Running> {
    if r.Some? then Some(r.value.(cancelled := true)) else None
  }

  predicate Changes(w: Worker, online: Option<bool>, foreground: Option<bool>) {
    Or(online, w.online) != w.online || Or(foreground, w.foreground) != w.foreground
  }

  function Updated(w: Worker, online: Option<bool>, foreground: Option<bool>): Worker {
    if w.closed || !Changes(w, online, foreground) then w
    else w.(online := Or(online, w.online), foreground := Or(foreground, w.foreground),
            generation := w.generation + 1, pending := true, shown := None, running := Cancelled(w.running))
  }

  function Requested(w: Worker): Worker {
    if w.closed then w else w.(pending := true)
  }

  function Closed(w: Worker): Worker {
    w.(closed := true, pending := false, generation := w.generation + 1, shown := None, running := Cancelled(w.running))
  }

  predicate CanStart(w: Worker, now: real) {
    !w.closed && w.running.None? && w.pending && w.online && w.foreground && w.next <= now
  }

  function Started(w: Worker, now: real): Worker {
    w.(pending := false, running := Some(Running(w.generation, false)), attempts := w.attempts + 1,
       lastStart := Some(now))
  }

  predicate Stale(w: Worker)
    requires w.running.Some?
  {
    w.running.value.generation != w.generation || w.running.value.cancelled
  }

  predicate Retries(k: Settings, outcome: Outcome, failures: nat) {
    (outcome.Transient? && failures <= k.maxRetries) || (outcome.Exchanged? && outcome.more)
  }

  function FailuresAfter(failures: nat, outcome: Outcome): nat {
    if outcome.Exchanged? then 0 else if failures + 1 <= 16 then failures + 1 else 16
  }

  function Backoff(k: Settings, failures: nat): real {
    var d := Scaled(k.cooldown, failures);
    if d <= k.maxBackoff then d else k.maxBackoff
  }

  /** The cooldown, doubled for each failure after the first. */
  function Scaled(cooldown: real, failures: nat): real {
    if failures <= 1 then cooldown else 2.0 * Scaled(cooldown, failures - 1)
  }

  function Finished(k: Settings, w: Worker, now: real, outcome: Outcome): Worker
    requires w.running.Some?
  {
    var v := w.(running := None);
    var u := if Stale(w) then v
             else
               var f := FailuresAfter(w.failures, outcome);
               v.(shown := Some(outcome), shownFrom := Some(w.running.value.generation), failures := f,
                  pending := w.pending || Retries(k, outcome, f));
    u.(next := now + Backoff(k, u.failures))
  }

  ghost predicate Next(k: Settings, w: Worker, s: Step, v: Worker) {
    match s
    case Update(online, foreground) => v == Updated(w, online, foreground)
    case RequestSync => v == Requested(w)
    case Close => v == Closed(w)
    case Start(now) => CanStart(w, now) && v == Started(w, now)
    case End(now, outcome) =>
      w.running.Some? && (w.lastStart.Some? ==> w.lastStart.value <= now) && v == Finished(k, w, now, outcome)
  }

  ghost predicate Init(w: Worker) {
    && !w.online && !w.foreground && !w.pending && !w.closed && w.generation == 0 && w.failures == 0
    && w.running.None? && w.shown.None? && w.lastStart.None?
  }

  ghost predicate Trace(k: Settings, workers: seq<Worker>, steps: seq<Step>) {
    && ValidSettings(k)
    && |workers| == |steps| + 1
    && forall i | 0 <= i < |steps| :: Next(k, workers[i], steps[i], workers[i + 1])
  }

  ghost predicate Inv(k: Settings, w: Worker) {
    && (w.shown.Some? ==> w.shownFrom == Some(w.generation))
    && (w.closed ==> !w.pending && w.shown.None? && (w.running.Some? ==> Stale(w)))
    && (w.running.Some? ==> w.running.value.generation <= w.generation && w.lastStart.Some?)
    && (w.running.None? && w.lastStart.Some? ==> w.lastStart.value + k.cooldown <= w.next)
  }

  lemma {:induction false} ScaledAtLeast(cooldown: real, failures: nat)
    requires cooldown > 0.0
    ensures Scaled(cooldown, failures) >= cooldown
  {
    if failures > 1 {
      ScaledAtLeast(cooldown, failures - 1);
    }
  }

  lemma StepKeeps(k: Settings, w: Worker, s: Step, v: Worker)
    requires ValidSettings(k) && Inv(k, w) && Next(k, w, s, v)
    ensures Inv(k, v)
  {
    if s.End? {
      ScaledAtLeast(k.cooldown, v.failures);
    }
  }

  lemma {:induction false} TraceKeeps(k: Settings, workers: seq<Worker>, steps: seq<Step>, n: nat)
    requires Trace(k, workers, steps) && Init(workers[0]) && n < |workers|
    ensures Inv(k, workers[n])
  {
    if n > 0 {
      TraceKeeps(k, workers, steps, n - 1);
      StepKeeps(k, workers[n - 1], steps[n - 1], workers[n]);
    }
  }

  /** A visible result or error always comes from an exchange of the current generation. */
  lemma VisibleIsCurrent(k: Settings, workers: seq<Worker>, steps: seq<Step>, n: nat)
    requires Trace(k, workers, steps) && Init(workers[0]) && n < |workers| && workers[n].shown.Some?
    ensures workers[n].shownFrom == Some(workers[n].generation) && !workers[n].closed
  {
    TraceKeeps(k, workers, steps, n);
  }

  /** The exchange started by step `i` is the one running up to step `j`. */
  ghost predicate Runs(steps: seq<Step>, i: nat, j: nat) {
    && i < j <= |steps| && steps[i].Start?
    && forall m | i < m < j :: !steps[m].Start? && !steps[m].End?
  }

  /** The generation of a running exchange is the one at its start. */
  lemma {:induction false} RunningSince(k: Settings, workers: seq<Worker>, steps: seq<Step>, n: nat) returns (i: nat)
    requires Trace(k, workers, steps) && Init(workers[0]) && n < |workers| && workers[n].running.Some?
    ensures Runs(steps, i, n) && workers[n].running.value.generation == workers[i].generation
  {
    hide Next;
    assert Next(k, workers[n - 1], steps[n - 1], workers[n]);
    RunningStep(k, workers[n - 1], steps[n - 1], workers[n]);
    if steps[n - 1].Start? {
      i := n - 1;
    } else {
      i := RunningSince(k, workers, steps, n - 1);
    }
  }

  lemma RunningStep(k: Settings, w: Worker, s: Step, v: Worker)
    requires Next(k, w, s, v) && v.running.Some?
    ensures if s.Start? then v.running.value.generation == w.generation
            else !s.End? && w.running.Some? && v.running.value.generation == w.running.value.generation
  {
  }

  /** Only an exchange that is not stale puts a result there, and only within its generation. */
  lemma ShownStep(k: Settings, w: Worker, s: Step, v: Worker)
    requires Next(k, w, s, v) && v.shown.Some?
    ensures v.generation == w.generation
    ensures if s.End? && w.running.Some? && !Stale(w)
            then v.shown == Some(s.outcome) && w.running.value.generation == w.generation
            else v.shown == w.shown
  {
  }

  /** In terms of the run alone: what is visible is the outcome of an earlier exchange, and no lifecycle change
      has come since that exchange started. */
  lemma {:induction false} VisibleWasExchanged(k: Settings, workers: seq<Worker>, steps: seq<Step>, n: nat)
      returns (i: nat, j: nat)
    requires Trace(k, workers, steps) && Init(workers[0]) && n < |workers| && workers[n].shown.Some?
    ensures Runs(steps, i, j) && j < n && steps[j].End? && workers[n].shown == Some(steps[j].outcome)
    ensures forall m | i <= m <= n :: workers[m].generation == workers[n].generation
  {
    hide Next;
    assert Next(k, workers[n - 1], steps[n - 1], workers[n]);
    ShownStep(k, workers[n - 1], steps[n - 1], workers[n]);
    if steps[n - 1].End? && workers[n - 1].running.Some? && !Stale(workers[n - 1]) {
      i := RunningSince(k, workers, steps, n - 1);
      j := n - 1;
      GenerationsRise(k, workers, steps, i, n - 1);
    } else {
      i, j := VisibleWasExchanged(k, workers, steps, n - 1);
    }
  }

  lemma {:induction false} GenerationsRise(k: Settings, workers: seq<Worker>, steps: seq<Step>, i: nat, j: nat)
    requires Trace(k, workers, steps) && i <= j < |workers|
    ensures forall m | i <= m <= j :: workers[i].generation <= workers[m].generation <= workers[j].generation
  {
    if i < j {
      assert Next(k, workers[j - 1], steps[j - 1], workers[j]);
      GenerationsRise(k, workers, steps, i, j - 1);
    }
  }

  /** Consecutive exchanges start at least one cooldown apart. */
  lemma StartsAreSpaced(k: Settings, workers: seq<Worker>, steps: seq<Step>, n: nat)
    requires Trace(k, workers, steps) && Init(workers[0]) && n < |steps| && steps[n].Start?
    ensures workers[n].lastStart.Some? ==> workers[n].lastStart.value + k.cooldown <= steps[n].now
    ensures workers[n + 1].lastStart == Some(steps[n].now)
  {
    TraceKeeps(k, workers, steps, n);
    assert Next(k, workers[n], steps[n], workers[n + 1]);
  }

  /** An event the worker took note of: a lifecycle change or a request, while open. */
  ghost predicate Noted(w: Worker, s: Step) {
    !w.closed && (s.RequestSync? || (s.Update? && Changes(w, s.online, s.foreground)))
  }

  /** An event is never lost, whether or not an exchange is running: until the worker is closed, it
      stays pending up to the start of an exchange that comes after it. */
  lemma {:induction false} EventsAreNotLost(k: Settings, workers: seq<Worker>, steps: seq<Step>, i: nat, j: nat)
    requires Trace(k, workers, steps) && i < |steps| && i < j < |workers| && Noted(workers[i], steps[i])
    requires forall n | i < n < j :: !steps[n].Start? && !steps[n].Close?
    ensures workers[j].pending && !workers[j].closed
  {
    assert Next(k, workers[j - 1], steps[j - 1], workers[j]);
    if j > i + 1 {
      EventsAreNotLost(k, workers, steps, i, j - 1);
    }
  }

  /** Each further failure doubles the wait, up to the limit. */
  lemma BackoffDoubles(k: Settings, failures: nat)
    requires ValidSettings(k) && failures > 0
    ensures Backoff(k, 1) == Backoff(k, 0) == k.cooldown
    ensures Backoff(k, failures + 1) ==
            if 2.0 * Backoff(k, failures) <= k.maxBackoff then 2.0 * Backoff(k, failures) else k.maxBackoff
  {
    ScaledAtLeast(k.cooldown, failures);
  }

  /** The wait after a failure: one cooldown after the first, twice the last wait after the next, up to the limit.
      Failures are counted up to sixteen. */
  ghost function Wait(k: Settings, before: nat): real {
    if before == 0 then k.cooldown
    else if before >= 16 then Backoff(k, 16)
    else if 2.0 * Backoff(k, before) <= k.maxBackoff then 2.0 * Backoff(k, before) else k.maxBackoff
  }

  function Counted(before: nat): nat { if before < 16 then before + 1 else 16 }

  /** In every run, an exchange of the current generation is recorded as it ended.  More to come, or a transient
      failure while retries are left, leaves work pending after the wait that is due; nothing else does. */
  lemma EndedIsFollowedUp(k: Settings, workers: seq<Worker>, steps: seq<Step>, n: nat)
    requires Trace(k, workers, steps) && n < |steps| && steps[n].End? && workers[n].running.Some?
    requires !Stale(workers[n])
    ensures var w, v, now, outcome := workers[n], workers[n + 1], steps[n].now, steps[n].outcome;
      && v.shown == Some(outcome) && v.running.None?
      && match outcome
         case Exchanged(more) =>
           v.failures == 0 && v.next == now + k.cooldown && (v.pending <==> w.pending || more)
         case Transient(_) =>
           && v.failures == Counted(w.failures) && v.next == now + Wait(k, w.failures)
           && (v.pending <==> w.pending || w.failures < k.maxRetries)
         case Permanent(_) =>
           v.failures == Counted(w.failures) && v.next == now + Wait(k, w.failures) && (v.pending <==> w.pending)
  {
    hide Scaled;
    assert Next(k, workers[n], steps[n], workers[n + 1]);
    BackoffDoubles(k, 1);
    if workers[n].failures > 0 {
      BackoffDoubles(k, workers[n].failures);
    }
  }

  /** The outcome of an exchange that a change overtook is dropped; what the change made pending stays so. */
  lemma StaleIsDropped(k: Settings, workers: seq<Worker>, steps: seq<Step>, n: nat)
    requires Trace(k, workers, steps) && n < |steps| && steps[n].End? && workers[n].running.Some? && Stale(workers[n])
    ensures var w, v := workers[n], workers[n + 1];
      && v.shown == w.shown && v.failures == w.failures && v.pending == w.pending && v.running.None?
      && v.next == steps[n].now + Backoff(k, w.failures)
  {
    assert Next(k, workers[n], steps[n], workers[n + 1]);
  }

  /** Pending work stays pending until an exchange starts or the worker is closed. */
  lemma {:induction false} PendingStays(k: Settings, workers: seq<Worker>, steps: seq<Step>, i: nat, j: nat)
    requires Trace(k, workers, steps) && i <= j < |workers| && workers[i].pending && !workers[i].closed
    requires forall n | i <= n < j :: !steps[n].Start? && !steps[n].Close?
    ensures workers[j].pending && !workers[j].closed
  {
    if i < j {
      PendingStays(k, workers, steps, i, j - 1);
      assert Next(k, workers[j - 1], steps[j - 1], workers[j]);
    }
  }

  /** In every run, a transient failure with retries left is tried again: as long as nothing starts or closes, the
      next exchange can start at any time after the wait at which the worker is online and in the foreground. */
  lemma TransientIsRetried(k: Settings, workers: seq<Worker>, steps: seq<Step>, n: nat, j: nat, now: real)
    requires Trace(k, workers, steps) && n < j < |workers|
    requires steps[n].End? && steps[n].outcome.Transient? && workers[n].running.Some? && !Stale(workers[n])
    requires !workers[n].closed && workers[n].failures < k.maxRetries
    requires forall i | n < i < j :: !steps[i].Start? && !steps[i].Close?
    requires workers[j].online && workers[j].foreground && steps[n].now + Wait(k, workers[n].failures) <= now
    ensures Next(k, workers[j], Start(now), Started(workers[j], now))
  {
    hide Scaled, Wait;
    EndedIsFollowedUp(k, workers, steps, n);
    assert Next(k, workers[n], steps[n], workers[n + 1]);
    PendingStays(k, workers, steps, n + 1, j);
    NoneStarts(k, workers, steps, n + 1, j);
  }

  lemma {:induction false} NoneStarts(k: Settings, workers: seq<Worker>, steps: seq<Step>, i: nat, j: nat)
    requires Trace(k, workers, steps) && i <= j < |workers| && workers[i].running.None?
    requires forall n | i <= n < j :: !steps[n].Start?
    ensures workers[j].running.None? && workers[j].next == workers[i].next
  {
    if i < j {
      NoneStarts(k, workers, steps, i, j - 1);
      assert Next(k, workers[j - 1], steps[j - 1], workers[j]);
    }
  }

  function Starts(steps: seq<Step>): nat {
    if steps == [] then 0 else Starts(steps[..|steps| - 1]) + if steps[|steps| - 1].Start? then 1 else 0
  }

  /** No event happens and every exchange that ends has failed. */
  ghost predicate OnlyFailures(steps: seq<Step>) {
    forall i | 0 <= i < |steps| :: steps[i].Start? || (steps[i].End? && !steps[i].outcome.Exchanged?)
  }

  function Left(k: Settings, failures: nat): nat {
    if failures <= k.maxRetries then k.maxRetries - failures else 0
  }

  /** How many more exchanges can start when nothing happens but failures. */
  function Budget(k: Settings, w: Worker): nat {
    if w.running.None? || Stale(w) then (if w.pending then 1 + Left(k, w.failures) else 0)
    else if w.pending then 1 + Left(k, w.failures + 1)
    else Left(k, w.failures)
  }

  lemma BudgetShrinks(k: Settings, w: Worker, s: Step, v: Worker)
    requires ValidSettings(k) && Next(k, w, s, v) && (s.Start? || (s.End? && !s.outcome.Exchanged?))
    ensures Budget(k, v) + (if s.Start? then 1 else 0) <= Budget(k, w)
  {
  }

  /** With no further events, a run of failing exchanges stops: at most one more than the retry
      limit ever start. */
  lemma {:induction false} FailuresStop(k: Settings, workers: seq<Worker>, steps: seq<Step>)
    requires Trace(k, workers, steps) && OnlyFailures(steps)
    ensures Starts(steps) + Budget(k, workers[|steps|]) <= Budget(k, workers[0]) <= k.maxRetries + 1
    decreases |steps|
  {
    if steps != [] {
      var n := |steps| - 1;
      FailuresStop(k, workers[..n + 1], steps[..n]);
      BudgetShrinks(k, workers[n], steps[n], workers[n + 1]);
    }
  }

  class DeliveryController {
    const settings: Settings
    var online: bool
    var foreground: bool
    var pending: bool
    var closed: bool
    var generation: nat
    var attempts: nat
    var failures: nat
    var next: real
    var running: Option<Running>
    var shown: Option<Outcome>
    ghost var shownFrom: Option<nat>
    ghost var lastStart: Option<real>

    ghost function View(): Worker
      reads this
    {
      Worker(online, foreground, pending, closed, generation, attempts, failures, next,
             running, shown, shownFrom, lastStart)
    }

    ghost predicate Valid()
      reads this
    {
      ValidSettings(settings) && Inv(settings, View())
    }

    constructor (settings: Settings)
      requires ValidSettings(settings)
      ensures this.settings == settings && Init(View()) && Valid()
    {
      this.settings := settings;
      online, foreground, pending, closed, generation, attempts, failures := false, false, false, false, 0, 0, 0;
      next, running, shown, shownFrom, lastStart := 0.0, None, None, None, None;
    }

    method Update(nowOnline: Option<bool>, nowForeground: Option<bool>) returns (changed: bool)
      requires Valid()
      modifies this
      ensures Valid() && View() == Updated(old(View()), nowOnline, nowForeground)
      ensures changed == (!old(closed) && Changes(old(View()), nowOnline, nowForeground))
    {
      StepKeeps(settings, View(), Step.Update(nowOnline, nowForeground), Updated(View(), nowOnline, nowForeground));
      if closed {
        return false;
      }
      changed := false;
      if nowOnline.Some? && nowOnline.value != online {
        online, changed := nowOnline.value, true;
      }
      if nowForeground.Some? && nowForeground.value != foreground {
        foreground, changed := nowForeground.value, true;
      }
      if changed {
        generation, pending, shown := generation + 1, true, None;
        if running.Some? {
          running := Some(running.value.(cancelled := true));
        }
      }
    }

    method RequestSync() returns (noted: bool)
      requires Valid()
      modifies this
      ensures Valid() && View() == Requested(old(View())) && noted == !old(closed)
    {
      StepKeeps(settings, View(), Step.RequestSync, Requested(View()));
      if closed {
        return false;
      }
      pending := true;
      return true;
    }

    method Close()
      requires Valid()
      modifies this
      ensures Valid() && View() == Closed(old(View()))
    {
      StepKeeps(settings, View(), Step.Close, Closed(View()));
      closed, pending, generation, shown := true, false, generation + 1, None;
      if running.Some? {
        running := Some(running.value.(cancelled := true));
      }
    }

    /** The worker's first critical section: the wait is over, take the pending work. */
    method Start(now: real) returns (started: bool)
      requires Valid()
      modifies this
      ensures Valid() && started == CanStart(old(View()), now)
      ensures View() == if started then Started(old(View()), now) else old(View())
    {
      started := !closed && running.None? && pending && online && foreground && next <= now;
      if started {
        StepKeeps(settings, View(), Step.Start(now), Started(View(), now));
        pending, running, attempts, lastStart := false, Some(Running(generation, false)), attempts + 1, Some(now);
      }
    }

    /** The second: record the result unless it is stale, decide on a retry, and back off. */
    method End(now: real, outcome: Outcome)
      requires Valid() && running.Some? && lastStart.Some? && lastStart.value <= now
      modifies this
      ensures Valid() && View() == Finished(settings, old(View()), now, outcome)
    {
      StepKeeps(settings, View(), Step.End(now, outcome), Finished(settings, View(), now, outcome));
      var ran := running.value;
      running := None;
      if !(ran.generation != generation || ran.cancelled) {
        shown, shownFrom, failures := Some(outcome), Some(ran.generation), FailuresAfter(failures, outcome);
        if outcome.Transient? && failures <= settings.maxRetries {
          pending := true;
        } else if outcome.Exchanged? && outcome.more {
          pending := true;
        }
      }
      next := now + Backoff(settings, failures);
    }
  }
}
