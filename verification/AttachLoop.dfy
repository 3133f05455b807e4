/**
 The loop of one attach task, run against a script of what its environment answers in each round.
 The events it causes are recorded in order.
 */
module AttachLoop {
  import opened Wrappers
  import opened CursorService

  const MAX_REOPEN_START_RETRIES: nat := 5
  const MAX_BACKOFF_MS: nat := 30_000
  const U64_MAX: nat := 0xFFFF_FFFF_FFFF_FFFF
  const REOPEN_BACKOFF_MS: nat := 250

  function Pow2(n: nat): nat { if n == 0 then 1 else 2 * Pow2(n - 1) }

  function Min(a: nat, b: nat): nat { if a < b then a else b }

  /** The longest delay before retry number `attempt`, saturating like 64-bit arithmetic. */
  function BackoffCap(base: nat, attempt: nat): nat {
    Min(Min(base * Pow2(Min(attempt, 8)), U64_MAX), MAX_BACKOFF_MS)
  }

  /** `roll` is the random draw. */
  function FullJitterBackoff(base: nat, attempt: nat, roll: nat): (delay: nat)
    ensures delay <= BackoffCap(base, attempt)
    ensures roll <= BackoffCap(base, attempt) ==> delay == roll
  {
    Drawn(roll, BackoffCap(base, attempt))
  }

  /** A draw from zero to the cap. */
  function Drawn(roll: nat, cap: nat): (delay: nat)
    ensures delay <= cap && (roll <= cap ==> delay == roll)
  {
    if cap == 0 then 0 else roll % (cap + 1)
  }

  datatype Round = Round(
    cancelledAtTop: bool,
    permit: bool,             // a permit is free (follow), or one is eventually granted (no follow)
    opens: bool,
    muxOpen: bool,
    end: Option<StreamEnd>,   // None when the sender went away without a word
    cancelledAfterFailure: bool,
    roll: nat,
    cancelledInBackoff: bool)

  datatype Event =
    | Requested(reopen: bool, target: Option<int>)
    | PermitTaken
    | PermitDropped
    | Opened
    | OpenFailed
    | Added
    | AwaitedEnd(end: Option<StreamEnd>)
    | Slept(ms: nat)
    | LimitReported

  // ---- What a script of rounds makes an attach task do ----

  /** Only the end of the file opens the stream again. */
  predicate Reopens(reconnect: bool, round: Round) {
    reconnect && round.muxOpen && round.end.Some? && round.end.value.Eof?
  }

  predicate Retries(reconnect: bool, round: Round, reopen: bool, failures: nat) {
    && reopen && reconnect && failures < MAX_REOPEN_START_RETRIES
    && !round.cancelledAfterFailure && !round.cancelledInBackoff
  }

  function AfterOpen(round: Round): seq<Event> {
    [Opened] + if round.muxOpen then [Added, PermitDropped, AwaitedEnd(round.end)] else [PermitDropped]
  }

  function AfterFailure(reconnect: bool, round: Round, reopen: bool, failures: nat): seq<Event> {
    [OpenFailed, PermitDropped]
    + if Retries(reconnect, round, reopen, failures)
      then [Slept(FullJitterBackoff(REOPEN_BACKOFF_MS, failures, round.roll))] else []
  }

  function AfterPermit(follow: bool, reconnect: bool, round: Round, rest: seq<Round>, reopen: bool, failures: nat)
    : seq<Event>
    decreases |rest|, 1
  {
    if round.opens then
      AfterOpen(round)
      + (if Reopens(reconnect, round)
         then TraceFrom(follow, reconnect, rest, true, 0, round.end.value.lastLineTs) else [])
    else
      AfterFailure(reconnect, round, reopen, failures)
      + (if Retries(reconnect, round, reopen, failures)
         then TraceFrom(follow, reconnect, rest, true, failures + 1, None) else [])
  }

  function TraceFrom(follow: bool, reconnect: bool, rounds: seq<Round>, reopen: bool, failures: nat,
                     target: Option<int>): seq<Event>
    decreases |rounds|, 0
  {
    if rounds == [] || rounds[0].cancelledAtTop then []
    else if rounds[0].permit then
      [Requested(reopen, target), PermitTaken]
      + AfterPermit(follow, reconnect, rounds[0], rounds[1..], reopen, failures)
    else [Requested(reopen, target)] + if follow then [LimitReported] else []
  }

  function TraceOf(follow: bool, reconnect: bool, rounds: seq<Round>): seq<Event> {
    TraceFrom(follow, reconnect, rounds, false, 0, None)
  }

  // ---- Bounds ----

  /** Permits held, failures and backoff since the last successful open, and whether the attach task ever waited for its
      stream or slept while it held a permit. */
  datatype Tally = Tally(held: int, failures: nat, slept: nat, clean: bool)

  function Count(t: Tally, e: Event): Tally {
    match e
    case PermitTaken => t.(held := t.held + 1)
    case PermitDropped => t.(held := t.held - 1)
    case Opened => t.(failures := 0, slept := 0)
    case OpenFailed => t.(failures := t.failures + 1)
    case Slept(ms) => t.(slept := t.slept + ms, clean := t.clean && t.held == 0)
    case AwaitedEnd(_) => t.(clean := t.clean && t.held == 0)
    case _ => t
  }

  function TallyOf(trace: seq<Event>): Tally {
    if trace == [] then Tally(0, 0, 0, true) else Count(TallyOf(trace[..|trace| - 1]), trace[|trace| - 1])
  }

  predicate WithinBounds(t: Tally) {
    t.failures <= MAX_REOPEN_START_RETRIES + 1 && t.slept <= 7750 && 0 <= t.held <= 1 && t.clean
  }

  /** Every prefix stays within the bounds. */
  ghost predicate Bounded(trace: seq<Event>) {
    forall n: nat :: n <= |trace| ==> WithinBounds(TallyOf(trace[..n]))
  }

  /** A request is a reopen exactly when it is not the first one; then it follows the end of a stream or a backoff;
      and it waits for the cursor of the stream that has just ended, if it directly follows one. */
  predicate RequestOk(trace: seq<Event>, i: nat)
    requires i < |trace| && trace[i].Requested?
  {
    && trace[i].reopen == (i > 0)
    && (i > 0 ==> trace[i - 1].AwaitedEnd? || trace[i - 1].Slept?)
    && trace[i].target == if i > 0 && trace[i - 1].AwaitedEnd? && trace[i - 1].end.Some? && trace[i - 1].end.value.Eof?
                          then trace[i - 1].end.value.lastLineTs else None
  }

  ghost predicate Legal(trace: seq<Event>) {
    && Bounded(trace)
    && (forall i: nat :: i < |trace| && trace[i].Requested? ==> RequestOk(trace, i))
    && LimitReported !in trace
  }

  lemma Extend(trace: seq<Event>, e: Event)
    requires Legal(trace) && e != LimitReported
    requires e.Requested? ==> RequestOk(trace + [e], |trace|)
    requires WithinBounds(Count(TallyOf(trace), e))
    ensures Legal(trace + [e]) && TallyOf(trace + [e]) == Count(TallyOf(trace), e)
  {
    BoundsExtend(trace, e);
    RequestsExtend(trace, e);
  }

  lemma BoundsExtend(trace: seq<Event>, e: Event)
    requires Bounded(trace) && WithinBounds(Count(TallyOf(trace), e))
    ensures Bounded(trace + [e]) && TallyOf(trace + [e]) == Count(TallyOf(trace), e)
  {
    var longer := trace + [e];
    assert longer[..|longer| - 1] == trace;
    forall n: nat | n <= |longer| ensures WithinBounds(TallyOf(longer[..n])) {
      if n <= |trace| {
        assert longer[..n] == trace[..n];
      } else {
        assert longer[..n] == longer;
      }
    }
  }

  lemma RequestsExtend(trace: seq<Event>, e: Event)
    requires forall i: nat :: i < |trace| && trace[i].Requested? ==> RequestOk(trace, i)
    ensures forall i: nat :: i < |trace| && trace[i].Requested? ==> RequestOk(trace + [e], i)
  {
    forall i: nat | i < |trace| && trace[i].Requested? ensures RequestOk(trace + [e], i) {
      assert RequestOk(trace, i);
    }
  }

  /** A trace between two rounds, with the loop's variables. */
  ghost predicate AtHead(trace: seq<Event>, reopen: bool, failures: nat, target: Option<int>) {
    && Legal(trace)
    && TallyOf(trace).held == 0 && TallyOf(trace).clean
    && TallyOf(trace).failures == failures <= MAX_REOPEN_START_RETRIES
    && TallyOf(trace).slept <= BackoffBefore(failures)
    && reopen == (trace != [])
    && (trace != [] ==> |trace| > 4 && trace[2] != OpenFailed)
    && RequestOk(trace + [Requested(reopen, target)], |trace|)
  }

  /** A trace an attach task may end with: within bounds, no permit held, and a failed first open ends it. */
  ghost predicate AtReturn(trace: seq<Event>) {
    && Bounded(trace)
    && (forall i: nat :: i < |trace| && trace[i].Requested? ==> RequestOk(trace, i))
    && TallyOf(trace).held == 0
    && (|trace| > 2 && trace[2] == OpenFailed ==> |trace| == 4)
  }

  /** The most that can have been slept before retry `n` is over. */
  function BackoffBefore(n: nat): nat {
    if n == 0 then 0 else BackoffBefore(n - 1) + BackoffCap(REOPEN_BACKOFF_MS, n - 1)
  }

  lemma BackoffTable()
    ensures BackoffBefore(1) == 250 && BackoffBefore(2) == 750 && BackoffBefore(3) == 1750
    ensures BackoffBefore(4) == 3750 && BackoffBefore(5) == 7750
  {
    assert Pow2(1) == 2 && Pow2(2) == 4 && Pow2(3) == 8 && Pow2(4) == 16;
    assert BackoffCap(250, 0) == 250 && BackoffCap(250, 1) == 500 && BackoffCap(250, 2) == 1000;
    assert BackoffCap(250, 3) == 2000 && BackoffCap(250, 4) == 4000;
  }

  /** The cap doubles with each attempt until it is 30 seconds, and does not grow after the eighth. */
  lemma BackoffIsCapped(base: nat, attempt: nat)
    ensures BackoffCap(base, attempt) <= 30_000
    ensures attempt <= 8 ==> BackoffCap(base, attempt) == Min(base * Pow2(attempt), 30_000)
    ensures attempt > 8 ==> BackoffCap(base, attempt) == BackoffCap(base, 8)
  {
  }

  lemma BackoffWithin(n: nat)
    requires n <= MAX_REOPEN_START_RETRIES
    ensures BackoffBefore(n) <= 7750
  {
    BackoffTable();
  }

  lemma AddedBounded(before: seq<Event>, end: Option<StreamEnd>)
    requires Legal(before) && TallyOf(before).held == 1 && TallyOf(before).clean
    ensures var after := before + [Added] + [PermitDropped] + [AwaitedEnd(end)];
            Legal(after) && TallyOf(after) == TallyOf(before).(held := 0)
  {
    assert before[..|before|] == before;
    Extend(before, Added);
    var t1 := before + [Added];
    Extend(t1, PermitDropped);
    Extend(t1 + [PermitDropped], AwaitedEnd(end));
  }

  lemma OpenBounded(before: seq<Event>, reconnect: bool, round: Round)
    requires Legal(before) && TallyOf(before).held == 1 && TallyOf(before).clean
    requires |before| >= 2 && (|before| > 2 ==> |before| > 4 && before[2] != OpenFailed)
    ensures AtReturn(before + AfterOpen(round))
    ensures Reopens(reconnect, round) ==> AtHead(before + AfterOpen(round), true, 0, round.end.value.lastLineTs)
  {
    var after := before + AfterOpen(round);
    OpenLegal(before, round);
    assert after[2] != OpenFailed by { assert |before| == 2 ==> after[2] == Opened; }
    if Reopens(reconnect, round) { EndIsHead(after, round.end.value.lastLineTs); }
  }

  lemma OpenLegal(before: seq<Event>, round: Round)
    requires Legal(before) && TallyOf(before).held == 1 && TallyOf(before).clean
    ensures var after := before + AfterOpen(round);
            && Legal(after) && TallyOf(after) == Tally(0, 0, 0, true)
            && (round.muxOpen ==> after[|after| - 1] == AwaitedEnd(round.end))
  {
    assert before[..|before|] == before;
    Extend(before, Opened);
    var t1 := before + [Opened];
    if round.muxOpen {
      AddedBounded(t1, round.end);
      assert before + AfterOpen(round) == t1 + [Added] + [PermitDropped] + [AwaitedEnd(round.end)];
    } else {
      Extend(t1, PermitDropped);
      assert before + AfterOpen(round) == t1 + [PermitDropped];
    }
  }

  lemma EndIsHead(trace: seq<Event>, last: Option<int>)
    requires Legal(trace) && TallyOf(trace) == Tally(0, 0, 0, true) && |trace| > 4 && trace[2] != OpenFailed
    requires trace[|trace| - 1] == AwaitedEnd(Some(Eof(last)))
    ensures AtHead(trace, true, 0, last)
  {
    var asked := trace + [Requested(true, last)];
    assert asked[|trace| - 1] == trace[|trace| - 1] && asked[|trace|] == Requested(true, last);
  }

  lemma FailureBounded(before: seq<Event>, reconnect: bool, round: Round, reopen: bool, failures: nat)
    requires Legal(before) && TallyOf(before).held == 1 && TallyOf(before).clean
    requires TallyOf(before).failures == failures <= MAX_REOPEN_START_RETRIES
    requires TallyOf(before).slept <= BackoffBefore(failures)
    requires |before| >= 2 && (if reopen then |before| > 4 && before[2] != OpenFailed else |before| == 2)
    ensures var after := before + AfterFailure(reconnect, round, reopen, failures);
            if Retries(reconnect, round, reopen, failures) then AtHead(after, true, failures + 1, None)
            else AtReturn(after)
  {
    var after := before + AfterFailure(reconnect, round, reopen, failures);
    var failed := before + [OpenFailed] + [PermitDropped];
    FailureLegal(before, failures);
    if Retries(reconnect, round, reopen, failures) {
      var delay := FullJitterBackoff(REOPEN_BACKOFF_MS, failures, round.roll);
      assert after == failed + [Slept(delay)];
      SleepIsHead(failed, failures, delay);
    } else {
      assert after == failed;
    }
  }

  lemma FailureLegal(before: seq<Event>, failures: nat)
    requires Legal(before) && TallyOf(before).held == 1 && TallyOf(before).clean
    requires TallyOf(before).failures == failures <= MAX_REOPEN_START_RETRIES
    requires TallyOf(before).slept <= BackoffBefore(failures)
    ensures var after := before + [OpenFailed] + [PermitDropped];
            Legal(after) && TallyOf(after) == Tally(0, failures + 1, TallyOf(before).slept, true)
  {
    BackoffWithin(failures);
    Extend(before, OpenFailed);
    Extend(before + [OpenFailed], PermitDropped);
  }

  lemma SleepIsHead(failed: seq<Event>, failures: nat, delay: nat)
    requires Legal(failed) && failures < MAX_REOPEN_START_RETRIES && delay <= BackoffCap(REOPEN_BACKOFF_MS, failures)
    requires TallyOf(failed).held == 0 && TallyOf(failed).failures == failures + 1 && TallyOf(failed).clean
    requires TallyOf(failed).slept <= BackoffBefore(failures) && |failed| > 4 && failed[2] != OpenFailed
    ensures AtHead(failed + [Slept(delay)], true, failures + 1, None)
  {
    BackoffWithin(failures + 1);
    Extend(failed, Slept(delay));
    var asked := failed + [Slept(delay)] + [Requested(true, None)];
    assert asked[|failed|] == Slept(delay) && asked[|failed| + 1] == Requested(true, None);
  }

  lemma RequestBounded(before: seq<Event>, reopen: bool, failures: nat, target: Option<int>)
    requires AtHead(before, reopen, failures, target)
    ensures var asked := before + [Requested(reopen, target)];
            && AtReturn(asked) && AtReturn(asked + [LimitReported]) && Legal(asked + [PermitTaken])
            && TallyOf(asked + [PermitTaken]) == TallyOf(before).(held := 1)
  {
    var asked := before + [Requested(reopen, target)];
    BackoffWithin(failures);
    Extend(before, Requested(reopen, target));
    Extend(asked, PermitTaken);
    LimitEnds(asked);
  }

  lemma AskedFirst(before: seq<Event>, follow: bool, reconnect: bool, rounds: seq<Round>, reopen: bool, failures: nat,
                   target: Option<int>)
    requires rounds != [] && !rounds[0].cancelledAtTop
    ensures var asked := before + [Requested(reopen, target)];
            before + TraceFrom(follow, reconnect, rounds, reopen, failures, target)
            == if rounds[0].permit
               then asked + [PermitTaken] + AfterPermit(follow, reconnect, rounds[0], rounds[1..], reopen, failures)
               else if follow then asked + [LimitReported] else asked
  {
    if rounds[0].permit {
      Prepended(before, Requested(reopen, target), PermitTaken,
                AfterPermit(follow, reconnect, rounds[0], rounds[1..], reopen, failures));
    } else if follow {
      Prepended(before, Requested(reopen, target), LimitReported, []);
      assert before + [Requested(reopen, target)] + [LimitReported] + []
        == before + [Requested(reopen, target)] + [LimitReported];
    }
  }

  lemma Prepended(before: seq<Event>, x: Event, y: Event, later: seq<Event>)
    ensures before + ([x, y] + later) == before + [x] + [y] + later
  {
  }

  lemma {:induction false} HeadReturns(before: seq<Event>, follow: bool, reconnect: bool, rounds: seq<Round>,
                                       reopen: bool, failures: nat, target: Option<int>)
    requires AtHead(before, reopen, failures, target)
    ensures AtReturn(before + TraceFrom(follow, reconnect, rounds, reopen, failures, target))
    decreases |rounds|, 0
  {
    if rounds == [] || rounds[0].cancelledAtTop {
      assert before + TraceFrom(follow, reconnect, rounds, reopen, failures, target) == before;
    } else {
      var asked := before + [Requested(reopen, target)];
      RequestBounded(before, reopen, failures, target);
      AskedFirst(before, follow, reconnect, rounds, reopen, failures, target);
      if rounds[0].permit {
        RoundReturns(asked + [PermitTaken], follow, reconnect, rounds[0], rounds[1..], reopen, failures);
      }
    }
  }

  lemma AfterOpenThen(before: seq<Event>, follow: bool, reconnect: bool, round: Round, rest: seq<Round>, reopen: bool,
                      failures: nat)
    requires round.opens
    ensures var after := before + AfterOpen(round);
            before + AfterPermit(follow, reconnect, round, rest, reopen, failures)
            == if Reopens(reconnect, round)
               then after + TraceFrom(follow, reconnect, rest, true, 0, round.end.value.lastLineTs) else after
  {
  }

  lemma AfterFailureThen(before: seq<Event>, follow: bool, reconnect: bool, round: Round, rest: seq<Round>,
                         reopen: bool, failures: nat)
    requires !round.opens
    ensures var after := before + AfterFailure(reconnect, round, reopen, failures);
            before + AfterPermit(follow, reconnect, round, rest, reopen, failures)
            == if Retries(reconnect, round, reopen, failures)
               then after + TraceFrom(follow, reconnect, rest, true, failures + 1, None) else after
  {
  }

  lemma {:induction false} RoundReturns(before: seq<Event>, follow: bool, reconnect: bool, round: Round,
                                        rest: seq<Round>, reopen: bool, failures: nat)
    requires Legal(before) && TallyOf(before).held == 1 && TallyOf(before).clean
    requires TallyOf(before).failures == failures <= MAX_REOPEN_START_RETRIES
    requires TallyOf(before).slept <= BackoffBefore(failures)
    requires |before| >= 2 && (if reopen then |before| > 4 && before[2] != OpenFailed else |before| == 2)
    ensures AtReturn(before + AfterPermit(follow, reconnect, round, rest, reopen, failures))
    decreases |rest|, 1
  {
    if round.opens {
      OpenBounded(before, reconnect, round);
      AfterOpenThen(before, follow, reconnect, round, rest, reopen, failures);
      if Reopens(reconnect, round) {
        HeadReturns(before + AfterOpen(round), follow, reconnect, rest, true, 0, round.end.value.lastLineTs);
      }
    } else {
      FailureBounded(before, reconnect, round, reopen, failures);
      AfterFailureThen(before, follow, reconnect, round, rest, reopen, failures);
      if Retries(reconnect, round, reopen, failures) {
        HeadReturns(before + AfterFailure(reconnect, round, reopen, failures), follow, reconnect, rest, true,
                    failures + 1, None);
      }
    }
  }

  /** Whatever the script, the whole trace stays within the bounds. */
  lemma TraceIsBounded(follow: bool, reconnect: bool, rounds: seq<Round>)
    ensures AtReturn(TraceOf(follow, reconnect, rounds))
  {
    assert [] + TraceOf(follow, reconnect, rounds) == TraceOf(follow, reconnect, rounds);
    HeadReturns([], follow, reconnect, rounds, false, 0, None);
  }

  /** A round that finds the token cancelled is the end, as if the script ended there; any other begins with its
      request. */
  lemma {:induction false} CancelledRoundEnds(follow: bool, reconnect: bool, rounds: seq<Round>, i: nat, reopen: bool,
                                              failures: nat, target: Option<int>)
    requires i < |rounds|
    ensures var trace := TraceFrom(follow, reconnect, rounds, reopen, failures, target);
            && (rounds[i].cancelledAtTop ==>
                  trace == TraceFrom(follow, reconnect, rounds[..i], reopen, failures, target))
            && (i == 0 && !rounds[0].cancelledAtTop ==> trace != [] && trace[0] == Requested(reopen, target))
    decreases |rounds|
  {
    if i > 0 && rounds[i].cancelledAtTop && !rounds[0].cancelledAtTop && rounds[0].permit {
      var round, rest := rounds[0], rounds[1..];
      assert rounds[..i][1..] == rest[..i - 1];
      if round.opens {
        if Reopens(reconnect, round) {
          CancelledRoundEnds(follow, reconnect, rest, i - 1, true, 0, round.end.value.lastLineTs);
        }
      } else if Retries(reconnect, round, reopen, failures) {
        CancelledRoundEnds(follow, reconnect, rest, i - 1, true, failures + 1, None);
      }
    }
  }

  /** Without cursors there is one round. */
  lemma OneRoundWithoutCursors(follow: bool, rounds: seq<Round>)
    ensures |TraceOf(follow, false, rounds)| <= 6
  {
    if rounds != [] && !rounds[0].cancelledAtTop && rounds[0].permit {
      assert |AfterPermit(follow, false, rounds[0], rounds[1..], false, 0)| <= 4;
    }
  }

  /** The limit is reported only by a following task that really found no permit. */
  lemma {:induction false} LimitNeedsRefusal(follow: bool, reconnect: bool, rounds: seq<Round>, reopen: bool,
                                             failures: nat, target: Option<int>)
    requires LimitReported in TraceFrom(follow, reconnect, rounds, reopen, failures, target)
    ensures follow && exists i :: 0 <= i < |rounds| && !rounds[i].permit
    decreases |rounds|
  {
    var round, rest := rounds[0], rounds[1..];
    if round.permit {
      if round.opens {
        LimitNeedsRefusal(follow, reconnect, rest, true, 0, round.end.value.lastLineTs);
      } else {
        LimitNeedsRefusal(follow, reconnect, rest, true, failures + 1, None);
      }
      var i :| 0 <= i < |rest| && !rest[i].permit;
      assert !rounds[i + 1].permit;
    }
  }

  function Failures(trace: seq<Event>): nat {
    multiset(trace)[OpenFailed]
  }

  /** An open that fails, with nothing that stops the attach task. */
  predicate JustFails(round: Round) {
    && !round.cancelledAtTop && round.permit && !round.opens
    && !round.cancelledAfterFailure && !round.cancelledInBackoff
  }

  /** The failed opens of a script of failing reopens. */
  function FailuresFrom(follow: bool, rounds: seq<Round>, failures: nat, target: Option<int>): nat {
    Failures(TraceFrom(follow, true, rounds, true, failures, target))
  }

  lemma {:induction false} FailingReopens(follow: bool, rounds: seq<Round>, failures: nat, target: Option<int>)
    requires failures <= MAX_REOPEN_START_RETRIES < |rounds| + failures
    requires forall i :: 0 <= i < |rounds| ==> JustFails(rounds[i])
    ensures FailuresFrom(follow, rounds, failures, target) == MAX_REOPEN_START_RETRIES - failures + 1
    decreases |rounds|
  {
    if failures < MAX_REOPEN_START_RETRIES {
      var rest := rounds[1..];
      var later := FailuresFrom(follow, rest, failures + 1, None);
      assert later == MAX_REOPEN_START_RETRIES - failures by {
        forall i | 0 <= i < |rest| ensures JustFails(rest[i]) { assert rest[i] == rounds[i + 1]; }
        FailingReopens(follow, rest, failures + 1, None);
      }
      assert JustFails(rounds[0]) && FailuresFrom(follow, rounds, failures, target) == 1 + later by {
        AnotherFailure(follow, rounds, failures, target);
      }
    } else {
      LastFailure(follow, rounds, failures, target);
    }
  }

  lemma AnotherFailure(follow: bool, rounds: seq<Round>, failures: nat, target: Option<int>)
    requires rounds != [] && JustFails(rounds[0]) && failures < MAX_REOPEN_START_RETRIES
    ensures FailuresFrom(follow, rounds, failures, target) == 1 + FailuresFrom(follow, rounds[1..], failures + 1, None)
  {
    var round, rest := rounds[0], rounds[1..];
    FailuresAdd([Requested(true, target), PermitTaken], AfterPermit(follow, true, round, rest, true, failures));
    FailsOnce(round, target, failures);
    FailuresAdd(AfterFailure(true, round, true, failures), TraceFrom(follow, true, rest, true, failures + 1, None));
  }

  lemma LastFailure(follow: bool, rounds: seq<Round>, failures: nat, target: Option<int>)
    requires rounds != [] && JustFails(rounds[0]) && failures == MAX_REOPEN_START_RETRIES
    ensures FailuresFrom(follow, rounds, failures, target) == 1
  {
    var round, rest := rounds[0], rounds[1..];
    FailuresAdd([Requested(true, target), PermitTaken], AfterPermit(follow, true, round, rest, true, failures));
    FailsOnce(round, target, failures);
    FailuresAdd(AfterFailure(true, round, true, failures), []);
  }

  lemma FailuresAdd(a: seq<Event>, b: seq<Event>)
    ensures Failures(a + b) == Failures(a) + Failures(b)
  {
  }

  lemma FailsOnce(round: Round, target: Option<int>, failures: nat)
    ensures Failures([Requested(true, target), PermitTaken]) == 0
    ensures Failures(AfterFailure(true, round, true, failures)) == 1
  {
  }

  /** A stream that is opened and comes to the end of its file. */
  predicate EndsOfFile(round: Round) {
    !round.cancelledAtTop && round.permit && round.opens && Reopens(true, round)
  }

  /** When every open after any number of streams fails, exactly six are tried: a stream that opens clears the count. */
  lemma {:induction false} SixFailuresEnd(follow: bool, streams: seq<Round>, rounds: seq<Round>, reopen: bool,
                                          failures: nat, target: Option<int>)
    requires streams != [] && forall i :: 0 <= i < |streams| ==> EndsOfFile(streams[i])
    requires |rounds| > MAX_REOPEN_START_RETRIES && forall i :: 0 <= i < |rounds| ==> JustFails(rounds[i])
    ensures Failures(TraceFrom(follow, true, streams + rounds, reopen, failures, target)) == 6
    decreases |streams|
  {
    var last := streams[0].end.value.lastLineTs;
    var all, later := streams + rounds, FailuresFrom(follow, (streams + rounds)[1..], 0, last);
    assert later == 6 by {
      if |streams| == 1 {
        assert all[1..] == rounds;
        FailingReopens(follow, rounds, 0, last);
      } else {
        assert all[1..] == streams[1..] + rounds;
        SixFailuresEnd(follow, streams[1..], rounds, true, 0, last);
      }
    }
    StreamFirst(follow, all, reopen, failures, target);
  }

  lemma StreamFirst(follow: bool, rounds: seq<Round>, reopen: bool, failures: nat, target: Option<int>)
    requires rounds != [] && EndsOfFile(rounds[0])
    ensures var last := rounds[0].end.value.lastLineTs;
            Failures(TraceFrom(follow, true, rounds, reopen, failures, target))
            == FailuresFrom(follow, rounds[1..], 0, last)
  {
    var first, rest := rounds[0], rounds[1..];
    FailuresAdd([Requested(reopen, target), PermitTaken], AfterPermit(follow, true, first, rest, reopen, failures));
    FailuresAdd(AfterOpen(first), TraceFrom(follow, true, rest, true, 0, first.end.value.lastLineTs));
    NothingFails(first, reopen, target);
  }

  lemma NothingFails(first: Round, reopen: bool, target: Option<int>)
    ensures Failures([Requested(reopen, target), PermitTaken]) == 0 && Failures(AfterOpen(first)) == 0
  {
  }

  // ---- The loop ----

  /** The part of a round after a successful open. */
  method TrackStream(reconnect: bool, round: Round, before: seq<Event>)
    returns (trace: seq<Event>, more: bool, target: Option<int>)
    ensures trace == before + AfterOpen(round)
    ensures more <==> reconnect && round.muxOpen && round.end.Some? && round.end.value.Eof?
    ensures more ==> target == round.end.value.lastLineTs
  {
    target := None;
    trace := before + [Opened];
    if !round.muxOpen {
      return trace + [PermitDropped], false, target;
    }
    trace := trace + [Added];
    trace := trace + [PermitDropped];
    trace := trace + [AwaitedEnd(round.end)];
    more := round.end.Some? && round.end.value.Eof? && reconnect;
    if more {
      target := round.end.value.lastLineTs;
    }
  }

  /** The part of a round after a failed open. */
  method RetryOrGiveUp(retry: bool, round: Round, before: seq<Event>, failed: nat)
    returns (trace: seq<Event>, more: bool, failures: nat)
    ensures trace == before + AfterFailure(true, round, retry, failed)
    ensures more <==> retry && failed < MAX_REOPEN_START_RETRIES
                      && !round.cancelledAfterFailure && !round.cancelledInBackoff
    ensures more ==> failures == failed + 1
  {
    failures := failed;
    trace := before + [OpenFailed];
    trace := trace + [PermitDropped];
    more := false;
    if retry && !round.cancelledAfterFailure && failures < MAX_REOPEN_START_RETRIES {
      failures := failures + 1;
      var delay := FullJitterBackoff(REOPEN_BACKOFF_MS, failures - 1, round.roll);
      if !round.cancelledInBackoff {
        trace := trace + [Slept(delay)];
        more := true;
      }
    }
  }

  /** The part of a round up to the permit. */
  method RequestPermit(follow: bool, round: Round, before: seq<Event>, reopen: bool, target: Option<int>)
    returns (trace: seq<Event>, granted: bool)
    ensures granted == round.permit
    ensures trace == before + [Requested(reopen, target)]
                     + if granted then [PermitTaken] else if follow then [LimitReported] else []
  {
    trace := before + [Requested(reopen, target)];
    granted := round.permit;
    if granted {
      trace := trace + [PermitTaken];
    } else if follow {
      trace := trace + [LimitReported];
    }
  }

  /** One round of the loop, with its variables; `rest` are the rounds to come. */
  method OneRound(follow: bool, reconnect: bool, round: Round, ghost rest: seq<Round>, before: seq<Event>,
                  wasReopen: bool, failed: nat, wanted: Option<int>)
    returns (trace: seq<Event>, more: bool, reopen: bool, failures: nat, target: Option<int>)
    requires wasReopen ==> reconnect
    ensures more && reopen ==> reconnect
    ensures if round.cancelledAtTop then trace == before && !more else before + [Requested(wasReopen, wanted)] <= trace
    ensures trace + (if more then TraceFrom(follow, reconnect, rest, reopen, failures, target) else [])
         == before + TraceFrom(follow, reconnect, [round] + rest, wasReopen, failed, wanted)
  {
    assert ([round] + rest)[1..] == rest;
    trace, more, reopen, failures, target := before, false, wasReopen, failed, None;
    if round.cancelledAtTop { return; }
    AskedFirst(before, follow, reconnect, [round] + rest, wasReopen, failed, wanted);
    var granted;
    trace, granted := RequestPermit(follow, round, before, wasReopen, wanted);
    if !granted { return; }
    if round.opens {
      AfterOpenThen(trace, follow, reconnect, round, rest, wasReopen, failed);
      failures := 0;
      trace, more, target := TrackStream(reconnect, round, trace);
      reopen := true;
    } else {
      AfterFailureThen(trace, follow, reconnect, round, rest, wasReopen, failed);
      trace, more, failures := RetryOrGiveUp(wasReopen && reconnect, round, trace, failed);
    }
  }

  /** What has been done, and what the rounds from number `i` on add to it, is the whole trace. */
  ghost predicate Leads(follow: bool, reconnect: bool, rounds: seq<Round>, i: nat, trace: seq<Event>, more: bool,
                        reopen: bool, failures: nat, target: Option<int>)
    requires i <= |rounds|
  {
    trace + (if more then TraceFrom(follow, reconnect, rounds[i..], reopen, failures, target) else [])
    == TraceOf(follow, reconnect, rounds)
  }

  lemma LeadsFromStart(follow: bool, reconnect: bool, rounds: seq<Round>)
    ensures Leads(follow, reconnect, rounds, 0, [], true, false, 0, None)
  {
    var whole := TraceOf(follow, reconnect, rounds);
    assert rounds[0..] == rounds && [] + whole == whole;
  }

  lemma LeadsToEnd(follow: bool, reconnect: bool, rounds: seq<Round>, i: nat, trace: seq<Event>, more: bool,
                   reopen: bool, failures: nat, target: Option<int>)
    requires i <= |rounds| && Leads(follow, reconnect, rounds, i, trace, more, reopen, failures, target)
    requires i == |rounds| || !more
    ensures trace == TraceOf(follow, reconnect, rounds)
  {
    assert (more ==> rounds[i..] == []) && trace + [] == trace;
  }

  /** `follow` is the follow mode, `reconnect` whether cursors are tracked. */
  method AttachPodLogStream(follow: bool, reconnect: bool, rounds: seq<Round>) returns (trace: seq<Event>)
    ensures trace == TraceOf(follow, reconnect, rounds)
    ensures AtReturn(trace)
    ensures LimitReported in trace ==> follow && exists i :: 0 <= i < |rounds| && !rounds[i].permit
    ensures !reconnect ==> |trace| <= 6
  {
    var more, reopen, failures, target, i := true, false, 0, None, 0;
    trace := [];
    LeadsFromStart(follow, reconnect, rounds);
    while i < |rounds| && more
      invariant 0 <= i <= |rounds| && (more && reopen ==> reconnect)
      invariant Leads(follow, reconnect, rounds, i, trace, more, reopen, failures, target)
      decreases |rounds| - i
    {
      assert rounds[i..] == [rounds[i]] + rounds[i + 1..];
      trace, more, reopen, failures, target := OneRound(follow, reconnect, rounds[i], rounds[i + 1..], trace, reopen,
                                                        failures, target);
      i := i + 1;
    }
    LeadsToEnd(follow, reconnect, rounds, i, trace, more, reopen, failures, target);
    TraceResults(follow, reconnect, rounds);
  }

  lemma TraceResults(follow: bool, reconnect: bool, rounds: seq<Round>)
    ensures var trace := TraceOf(follow, reconnect, rounds);
            && AtReturn(trace)
            && (LimitReported in trace ==> follow && exists i :: 0 <= i < |rounds| && !rounds[i].permit)
            && (!reconnect ==> |trace| <= 6)
  {
    TraceIsBounded(follow, reconnect, rounds);
    if LimitReported in TraceOf(follow, reconnect, rounds) {
      LimitNeedsRefusal(follow, reconnect, rounds, false, 0, None);
    }
    if !reconnect { OneRoundWithoutCursors(follow, rounds); }
  }

  lemma LimitEnds(trace: seq<Event>)
    requires Legal(trace)
    ensures Bounded(trace + [LimitReported]) && TallyOf(trace + [LimitReported]) == TallyOf(trace)
    ensures forall i: nat :: i < |trace| && trace[i].Requested? ==> RequestOk(trace + [LimitReported], i)
  {
    assert trace[..|trace|] == trace;
    BoundsExtend(trace, LimitReported);
    RequestsExtend(trace, LimitReported);
  }
}
