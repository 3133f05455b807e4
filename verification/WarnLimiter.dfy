/**
 The drop warning limiter: threads record drops, and a compare-and-swap loop on the time of the last warning lets one
 of them warn. Times are milliseconds since the limiter was made.
 */
module WarnLimiter {
  const WARN_INTERVAL_MS: nat := 5_000

  function Elapsed(now: nat, last: nat): nat { if last <= now then now - last else 0 }

  // ---- One thread, with what the others do to the shared word in between ----

  class LossyMetrics {
    var lastWarnMs: nat
    var droppedTotal: nat

    constructor ()
      ensures lastWarnMs == 0 && droppedTotal == 0
    {
      lastWarnMs, droppedTotal := 0, 0;
    }

    /** Just before the i-th compare-and-swap other threads move the word to `others[i]`, if that is a warning of
        theirs. Afterwards a warning lies less than an interval before `now`, given by this thread or by another one;
        this thread warns at most once, and only if the word was an interval old when it did. */
    method RecordDrop(now: nat, others: seq<nat>) returns (warned: bool, failed: nat)
      modifies this
      ensures droppedTotal == old(droppedTotal) + 1
      ensures old(lastWarnMs) <= lastWarnMs && now < lastWarnMs + WARN_INTERVAL_MS
      ensures warned ==> lastWarnMs == now && old(lastWarnMs) + WARN_INTERVAL_MS <= now
      ensures !warned && others == [] ==> lastWarnMs == old(lastWarnMs)
      ensures now < old(lastWarnMs) + WARN_INTERVAL_MS ==> !warned && failed == 0 && lastWarnMs == old(lastWarnMs)
      ensures failed * WARN_INTERVAL_MS <= lastWarnMs - old(lastWarnMs)
    {
      droppedTotal := droppedTotal + 1;
      var last := lastWarnMs;
      warned, failed := false, 0;
      var i := 0;
      while Elapsed(now, last) >= WARN_INTERVAL_MS
        invariant old(lastWarnMs) <= last == lastWarnMs && 0 <= i && failed <= i
        invariant failed * WARN_INTERVAL_MS <= last - old(lastWarnMs)
        invariant droppedTotal == old(droppedTotal) + 1
        invariant now < old(lastWarnMs) + WARN_INTERVAL_MS ==> last == old(lastWarnMs)
        invariant others == [] ==> last == old(lastWarnMs)
        decreases Elapsed(now, last)
      {
        if i < |others| && lastWarnMs + WARN_INTERVAL_MS <= others[i] {
          lastWarnMs := others[i];
        }
        i := i + 1;
        if lastWarnMs == last {
          lastWarnMs := now;
          warned := true;
          break;
        }
        failed := failed + 1;
        last := lastWarnMs;
      }
    }
  }

  // ---- Any number of threads ----

  datatype Thread =
    | Idle
    | Counted
    | Timed(now: nat)
    | Trying(now: nat, last: nat, failed: nat)

  datatype Limiter = Limiter(
    threads: map<nat, Thread>,
    clock: nat,
    lastWarnMs: nat,
    droppedTotal: nat,
    warnings: seq<nat>,      // history: stamps of the warnings given
    windows: seq<nat>,       // history: counts taken by the reporter
    drops: nat,              // history: calls that have counted
    finished: set<nat>)      // history: times read by calls that have returned

  datatype Action =
    | Tick
    | Count(thread: nat)
    | ReadClock(thread: nat)
    | LoadLast(thread: nat)
    | CompareExchange(thread: nat)
    | Return(thread: nat)
    | ReportWindow

  function Of(s: Limiter, t: nat): Thread {
    if t in s.threads then s.threads[t] else Idle
  }

  predicate Enabled(s: Limiter, a: Action) {
    match a
    case Tick => true
    case Count(t) => Of(s, t).Idle?
    case ReadClock(t) => Of(s, t).Counted?
    case LoadLast(t) => Of(s, t).Timed?
    case CompareExchange(t) => Of(s, t).Trying? && Elapsed(Of(s, t).now, Of(s, t).last) >= WARN_INTERVAL_MS
    case Return(t) => Of(s, t).Trying? && Elapsed(Of(s, t).now, Of(s, t).last) < WARN_INTERVAL_MS
    case ReportWindow => true
  }

  function Do(s: Limiter, a: Action): Limiter
    requires Enabled(s, a)
  {
    match a
    case Tick => s.(clock := s.clock + 1)
    case Count(t) => s.(threads := s.threads[t := Counted], droppedTotal := s.droppedTotal + 1, drops := s.drops + 1)
    case ReadClock(t) => s.(threads := s.threads[t := Timed(s.clock)])
    case LoadLast(t) => s.(threads := s.threads[t := Trying(Of(s, t).now, s.lastWarnMs, 0)])
    case CompareExchange(t) =>
      var Trying(now, last, failed) := Of(s, t);
      if s.lastWarnMs == last
      then s.(threads := s.threads[t := Idle], lastWarnMs := now, warnings := s.warnings + [now],
              finished := s.finished + {now})
      else s.(threads := s.threads[t := Trying(now, s.lastWarnMs, failed + 1)])
    case Return(t) => s.(threads := s.threads[t := Idle], finished := s.finished + {Of(s, t).now})
    case ReportWindow => s.(windows := s.windows + [s.droppedTotal], droppedTotal := 0)
  }

  predicate IsRun(s: Limiter, actions: seq<Action>)
    decreases |actions|
  {
    actions == [] || (Enabled(s, actions[0]) && IsRun(Do(s, actions[0]), actions[1..]))
  }

  function After(s: Limiter, actions: seq<Action>): Limiter
    requires IsRun(s, actions)
    decreases |actions|
  {
    if actions == [] then s else After(Do(s, actions[0]), actions[1..])
  }

  const START := Limiter(map[], 0, 0, 0, [], [], 0, {})

  function Sum(s: seq<nat>): nat {
    if s == [] then 0 else Sum(s[..|s| - 1]) + s[|s| - 1]
  }

  /** The word's values so far, the initial zero included. */
  function Values(s: Limiter): seq<nat> { [0] + s.warnings }

  ghost predicate Spaced(values: seq<nat>) {
    forall i, j :: 0 <= i < j < |values| ==> values[i] + WARN_INTERVAL_MS * (j - i) <= values[j]
  }

  ghost predicate ThreadOk(s: Limiter, t: Thread) {
    match t
    case Timed(now) => now <= s.clock
    case Trying(now, last, failed) => now <= s.clock && last in Values(s) && failed * WARN_INTERVAL_MS <= last
    case _ => true
  }

  ghost predicate Inv(s: Limiter) {
    && Spaced(Values(s))
    && s.lastWarnMs == Values(s)[|s.warnings|] <= s.clock
    && (forall t :: t in s.threads ==> ThreadOk(s, s.threads[t]))
    && s.drops == Sum(s.windows) + s.droppedTotal
    && (forall now :: now in s.finished ==> now < s.lastWarnMs + WARN_INTERVAL_MS)
  }

  /** A value read earlier that is no longer current lies at least one interval behind. */
  lemma StaleIsBehind(s: Limiter, last: nat)
    requires Inv(s) && last in Values(s)
    ensures last == s.lastWarnMs || last + WARN_INTERVAL_MS <= s.lastWarnMs
  {
    var i :| 0 <= i < |Values(s)| && Values(s)[i] == last;
    assert i < |s.warnings| ==> Values(s)[i] + WARN_INTERVAL_MS * (|s.warnings| - i) <= Values(s)[|s.warnings|];
  }

  lemma ExchangeKeeps(s: Limiter, t: nat)
    requires Inv(s) && Enabled(s, CompareExchange(t))
    ensures Inv(Do(s, CompareExchange(t)))
  {
    var next := Do(s, CompareExchange(t));
    var Trying(now, last, failed) := Of(s, t);
    assert ThreadOk(s, s.threads[t]);
    StaleIsBehind(s, last);
    if s.lastWarnMs == last {
      var n := |s.warnings|;
      assert Values(next) == Values(s) + [now];
      forall i | 0 <= i <= n ensures Values(next)[i] + WARN_INTERVAL_MS * (n + 1 - i) <= now {
        assert i < n ==> Values(s)[i] + WARN_INTERVAL_MS * (n - i) <= Values(s)[n];
      }
      forall u | u in next.threads && u != t ensures ThreadOk(next, next.threads[u]) {
        assert ThreadOk(s, s.threads[u]);
      }
    } else {
      assert s.lastWarnMs in Values(s);
    }
  }

  lemma StepKeeps(s: Limiter, a: Action)
    requires Inv(s) && Enabled(s, a)
    ensures Inv(Do(s, a))
  {
    match a
    case CompareExchange(t) => ExchangeKeeps(s, t);
    case Return(t) => StaleIsBehind(s, Of(s, t).last);
    case LoadLast(t) => assert s.lastWarnMs in Values(s);
    case ReportWindow => assert (s.windows + [s.droppedTotal])[..|s.windows|] == s.windows;
    case _ =>
  }

  lemma {:induction false} RunKeeps(s: Limiter, actions: seq<Action>)
    requires Inv(s) && IsRun(s, actions)
    ensures Inv(After(s, actions))
    decreases |actions|
  {
    if actions != [] {
      StepKeeps(s, actions[0]);
      RunKeeps(Do(s, actions[0]), actions[1..]);
    }
  }

  /** Warnings are at least an interval apart, so at most one per interval of the clock is given; no drop is lost
      between the windows and the counter; a call fails at most once per interval of its own time; and after a call
      that read the clock at `now` some warning is less than an interval older, unless the first interval is not
      over. */
  ghost predicate Limited(s: Limiter) {
    && (forall i :: 0 < i < |s.warnings| ==> s.warnings[i - 1] + WARN_INTERVAL_MS <= s.warnings[i])
    && |s.warnings| * WARN_INTERVAL_MS <= s.lastWarnMs <= s.clock
    && s.drops == Sum(s.windows) + s.droppedTotal
    && (forall t :: t in s.threads && s.threads[t].Trying? ==>
          s.threads[t].failed * WARN_INTERVAL_MS <= s.threads[t].last <= s.clock)
    && (forall now :: now in s.finished ==>
          now < WARN_INTERVAL_MS || exists w :: w in s.warnings && now < w + WARN_INTERVAL_MS)
  }

  lemma InvLimits(s: Limiter)
    requires Inv(s)
    ensures Limited(s)
  {
    forall i | 0 < i < |s.warnings| ensures s.warnings[i - 1] + WARN_INTERVAL_MS <= s.warnings[i] {
      assert Values(s)[i] == s.warnings[i - 1] && Values(s)[i + 1] == s.warnings[i];
    }
    assert Values(s)[0] == 0 && |Values(s)| == |s.warnings| + 1;
    assert s.warnings != [] ==> s.lastWarnMs in s.warnings;
    forall t | t in s.threads && s.threads[t].Trying?
      ensures s.threads[t].failed * WARN_INTERVAL_MS <= s.threads[t].last <= s.clock
    {
      assert ThreadOk(s, s.threads[t]);
      StaleIsBehind(s, s.threads[t].last);
    }
  }

  /** The limiter keeps its promises under every interleaving of the threads inside it. */
  lemma WarningsAreLimited(actions: seq<Action>)
    requires IsRun(START, actions)
    ensures Limited(After(START, actions))
  {
    RunKeeps(START, actions);
    InvLimits(After(START, actions));
  }

  /** Each failed exchange leaves the loop closer to its end. */
  lemma FailureIsProgress(s: Limiter, t: nat)
    requires Inv(s) && Enabled(s, CompareExchange(t)) && Of(s, t).last != s.lastWarnMs
    ensures var next := Do(s, CompareExchange(t));
            Of(next, t).Trying? && Elapsed(Of(next, t).now, Of(next, t).last) < Elapsed(Of(s, t).now, Of(s, t).last)
  {
    assert ThreadOk(s, s.threads[t]);
    StaleIsBehind(s, Of(s, t).last);
  }
}
