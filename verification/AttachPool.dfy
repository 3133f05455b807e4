/**
 All attach tasks of a run and the run's own wait, step by step: the permits that bound concurrent opens, and the
 handshake by which a task that finds no permit ends a follow run with an error.
 */
module AttachPool {
  import opened Wrappers
  import opened AttachLoop

  datatype Task =
    | AtTop(reopen: bool, failures: nat)
    | Refused                          // found no permit, has not yet notified the run
    | Notified                         // has notified, has not yet cancelled the root token
    | Opening(reopen: bool, failures: nat)
    | Adding
    | Awaiting
    | BackingOff(failures: nat)
    | Returned

  /** The run waits on two arms polled in turn: the limit channel first, then the root token. */
  datatype Wait = PollLimit | PollCancelled | Left

  datatype Cause = Limit | Run | Other

  datatype Pool = Pool(
    follow: bool,
    cap: nat,
    free: nat,
    tasks: map<nat, Task>,
    message: bool,              // the limit channel (capacity one) holds a message
    cancelled: bool,            // the root token
    cause: Option<Cause>,       // who cancelled it first
    wait: Wait,
    limitHit: bool,
    refused: bool,              // history: some task found no permit
    notifiedSincePoll: bool)    // history: a message was sent since the limit channel was last polled

  datatype Action =
    | Spawn(task: nat)
    | TakePermit(task: nat)
    | FindNone(task: nat)
    | Notify(task: nat)
    | CancelRoot(task: nat)
    | SeeCancelled(task: nat)
    | OpenOk(task: nat)
    | OpenErr(task: nat, retry: bool)
    | MuxTakes(task: nat, open: bool)
    | StreamEnds(task: nat, reconnect: bool)
    | Wake(task: nat)
    | OtherCancel
    | RunPollsLimit
    | RunPollsCancelled

  predicate OfTask(a: Action) {
    !a.OtherCancel? && !a.RunPollsLimit? && !a.RunPollsCancelled?
  }

  /** What a task's own state asks of its next step. */
  predicate CanStep(k: Task, a: Action)
    requires OfTask(a) && !a.Spawn?
  {
    match a
    case TakePermit(_) => k.AtTop?
    case FindNone(_) => k.AtTop?
    case Notify(_) => k.Refused?
    case CancelRoot(_) => k.Notified?
    case SeeCancelled(_) => k.AtTop? || k.Awaiting? || k.BackingOff?
    case OpenOk(_) => k.Opening?
    case OpenErr(_, retry) => k.Opening? && (retry ==> k.reopen && k.failures < MAX_REOPEN_START_RETRIES)
    case MuxTakes(_, _) => k.Adding?
    case StreamEnds(_, _) => k.Awaiting?
    case Wake(_) => k.BackingOff?
  }

  function TaskAfter(k: Task, a: Action): Task
    requires OfTask(a) && !a.Spawn? && CanStep(k, a)
  {
    match a
    case TakePermit(_) => Opening(k.reopen, k.failures)
    case FindNone(_) => Refused
    case Notify(_) => Notified
    case CancelRoot(_) => Returned
    case SeeCancelled(_) => Returned
    case OpenOk(_) => Adding
    case OpenErr(_, retry) => if retry then BackingOff(k.failures + 1) else Returned
    case MuxTakes(_, open) => if open then Awaiting else Returned
    case StreamEnds(_, reconnect) => if reconnect then AtTop(true, 0) else Returned
    case Wake(_) => AtTop(true, k.failures)
  }

  predicate Enabled(s: Pool, a: Action) {
    if OfTask(a) then
      if a.Spawn? then a.task !in s.tasks
      else && a.task in s.tasks && CanStep(s.tasks[a.task], a)
           && (a.TakePermit? ==> s.free > 0)
           && (a.FindNone? ==> s.follow && s.free == 0)
    else
      && (a.RunPollsLimit? ==> s.follow && s.wait == PollLimit)
      && (a.RunPollsCancelled? ==> s.follow && s.wait == PollCancelled)
  }

  function Cancel(s: Pool, cause: Cause): Pool {
    s.(cancelled := true, cause := if s.cancelled then s.cause else Some(cause))
  }

  /** The effect of a task's step on what it shares. */
  function Shared(s: Pool, a: Action): Pool
    requires OfTask(a)
  {
    match a
    case TakePermit(_) => if s.free > 0 then s.(free := s.free - 1) else s
    case FindNone(_) => s.(refused := true)
    // A full or closed channel is ignored.
    case Notify(_) => if s.wait == Left then s else s.(message := true, notifiedSincePoll := true)
    case CancelRoot(_) => Cancel(s, Limit)
    case OpenErr(_, _) => s.(free := s.free + 1)
    case MuxTakes(_, _) => s.(free := s.free + 1)
    case _ => s
  }

  function Do(s: Pool, a: Action): Pool
    requires Enabled(s, a)
  {
    if OfTask(a) then
      Shared(s, a).(tasks := s.tasks[a.task := if a.Spawn? then AtTop(false, 0) else TaskAfter(s.tasks[a.task], a)])
    else match a
    case RunPollsLimit =>
      if s.message then Cancel(s, Run).(message := false, limitHit := true, wait := Left, notifiedSincePoll := false)
      else s.(wait := PollCancelled, notifiedSincePoll := false)
    case RunPollsCancelled => s.(wait := if s.cancelled then Left else PollLimit)
    case _ => Cancel(s, Other)
  }

  predicate IsRun(s: Pool, actions: seq<Action>)
    decreases |actions|
  {
    actions == [] || (Enabled(s, actions[0]) && IsRun(Do(s, actions[0]), actions[1..]))
  }

  function After(s: Pool, actions: seq<Action>): Pool
    requires IsRun(s, actions)
    decreases |actions|
  {
    if actions == [] then s else After(Do(s, actions[0]), actions[1..])
  }

  /** A run starts with at least one permit, whatever limit was asked for. */
  function Start(follow: bool, maxLogRequests: nat): Pool {
    var cap := if maxLogRequests > 1 then maxLogRequests else 1;
    Pool(follow, cap, cap, map[], false, false, None, PollLimit, false, false, false)
  }

  predicate Holds(k: Task) {
    k.Opening? || k.Adding?
  }

  function Holders(tasks: map<nat, Task>): set<nat> {
    set t | t in tasks && Holds(tasks[t])
  }

  ghost predicate PermitsInv(s: Pool) {
    |Holders(s.tasks)| + s.free == s.cap
  }

  /** A task that tries to open has at most five failed reopens behind it, and none before its first success. */
  predicate FailuresOk(k: Task) {
    match k
    case AtTop(reopen, failures) => failures <= MAX_REOPEN_START_RETRIES && (failures > 0 ==> reopen)
    case Opening(reopen, failures) => failures <= MAX_REOPEN_START_RETRIES && (failures > 0 ==> reopen)
    case BackingOff(failures) => failures <= MAX_REOPEN_START_RETRIES
    case _ => true
  }

  ghost predicate FailuresInv(s: Pool) {
    forall t :: t in s.tasks ==> FailuresOk(s.tasks[t])
  }

  /** Until the run leaves its wait, a message is there as soon as a refused task has notified. */
  ghost predicate HandshakeInv(s: Pool) {
    && (s.cancelled <==> s.cause.Some?)
    && (s.message || s.limitHit || (exists t :: t in s.tasks && (s.tasks[t].Refused? || s.tasks[t].Notified?)) ==>
          s.refused)
    && (s.wait != Left ==>
          && !s.limitHit
          && (s.cause == Some(Limit) || (exists t :: t in s.tasks && s.tasks[t].Notified?) ==> s.message))
    && (s.wait == PollCancelled ==> s.message == s.notifiedSincePoll)
    && (s.wait == Left ==> (s.limitHit ==> !s.notifiedSincePoll))
    && (s.wait == Left && s.cause == Some(Limit) && !s.limitHit ==> s.notifiedSincePoll || !s.follow)
    && (s.wait == Left ==> s.cancelled)
    && (!s.follow ==> s.wait == PollLimit && !s.refused)
  }

  lemma HoldersAfter(tasks: map<nat, Task>, t: nat, k: Task)
    ensures |Holders(tasks[t := k])| + (if t in tasks && Holds(tasks[t]) then 1 else 0)
            == |Holders(tasks)| + (if Holds(k) then 1 else 0)
  {
    assert Holders(tasks[t := k]) == if Holds(k) then Holders(tasks) + {t} else Holders(tasks) - {t};
    assert t in Holders(tasks) <==> t in tasks && Holds(tasks[t]);
  }

  lemma StepKeepsPermits(s: Pool, a: Action)
    requires PermitsInv(s) && Enabled(s, a)
    ensures PermitsInv(Do(s, a)) && Do(s, a).cap == s.cap
  {
    if OfTask(a) {
      HoldersAfter(s.tasks, a.task, if a.Spawn? then AtTop(false, 0) else TaskAfter(s.tasks[a.task], a));
    }
  }

  lemma StepKeepsFailures(s: Pool, a: Action)
    requires FailuresInv(s) && Enabled(s, a)
    ensures FailuresInv(Do(s, a))
  {
  }

  /** How many more steps a task can take before it opens a stream or returns. */
  function Patience(k: Task): nat {
    match k
    case AtTop(_, failures) => if failures <= 5 then 3 * (5 - failures) + 4 else 0
    case Opening(_, failures) => if failures <= 5 then 3 * (5 - failures) + 3 else 0
    case BackingOff(failures) => if failures <= 5 then 3 * (5 - failures) + 5 else 0
    case Refused => 2
    case Notified => 1
    case _ => 0
  }

  /** Between two successful opens every step of a task brings it closer to giving up. */
  lemma PatienceRunsOut(k: Task, a: Action)
    requires FailuresOk(k) && OfTask(a) && !a.Spawn? && CanStep(k, a)
    requires !k.Awaiting? && !k.Adding?
    ensures Patience(TaskAfter(k, a)) < Patience(k)
  {
  }

  lemma StepKeepsHandshake(s: Pool, a: Action)
    requires HandshakeInv(s) && Enabled(s, a)
    ensures HandshakeInv(Do(s, a))
  {
    if OfTask(a) { TaskKeepsHandshake(s, a); }
  }

  lemma TaskKeepsHandshake(s: Pool, a: Action)
    requires HandshakeInv(s) && Enabled(s, a) && OfTask(a)
    ensures HandshakeInv(Do(s, a))
  {
    var next := Do(s, a);
    if exists t :: t in next.tasks && (next.tasks[t].Refused? || next.tasks[t].Notified?) {
      var t :| t in next.tasks && (next.tasks[t].Refused? || next.tasks[t].Notified?);
      assert t in s.tasks ==> next.tasks[t] == s.tasks[t] || a.FindNone? || a.Notify?;
    }
  }

  /** Over all tasks and all runs, permits held and free add up to the limit. Only tasks that are opening a stream or
      handing it over hold one. */
  lemma {:induction false} PermitsAddUp(s: Pool, actions: seq<Action>)
    requires PermitsInv(s) && FailuresInv(s) && IsRun(s, actions)
    ensures PermitsInv(After(s, actions)) && After(s, actions).cap == s.cap && FailuresInv(After(s, actions))
    decreases |actions|
  {
    if actions != [] {
      StepKeepsPermits(s, actions[0]);
      StepKeepsFailures(s, actions[0]);
      PermitsAddUp(Do(s, actions[0]), actions[1..]);
    }
  }

  /** So in every state of a run at most the limit's permits are held, one at least being there for a limit of zero. */
  lemma PermitsOfARun(follow: bool, maxLogRequests: nat, actions: seq<Action>)
    requires IsRun(Start(follow, maxLogRequests), actions)
    ensures var s := After(Start(follow, maxLogRequests), actions);
            && |Holders(s.tasks)| + s.free == (if maxLogRequests > 1 then maxLogRequests else 1) == s.cap
            && FailuresInv(s)
  {
    var s := Start(follow, maxLogRequests);
    assert Holders(s.tasks) == {};
    PermitsAddUp(s, actions);
  }

  /** So a task in a follow run is refused exactly when all permits are held, and else it can have one. */
  lemma RefusedWhenAllAreHeld(s: Pool, t: nat)
    requires PermitsInv(s) && s.follow && t in s.tasks && s.tasks[t].AtTop?
    ensures Enabled(s, FindNone(t)) <==> |Holders(s.tasks)| == s.cap
    ensures Enabled(s, TakePermit(t)) <==> |Holders(s.tasks)| < s.cap
  {
  }

  lemma {:induction false} HandshakeKept(s: Pool, actions: seq<Action>)
    requires HandshakeInv(s) && IsRun(s, actions)
    ensures HandshakeInv(After(s, actions))
    decreases |actions|
  {
    if actions != [] {
      StepKeepsHandshake(s, actions[0]);
      HandshakeKept(Do(s, actions[0]), actions[1..]);
    }
  }

  datatype RunResult = PipelineFailed | LimitReached | ExitTriggered | Done

  /** What the run reports, in its order of precedence. */
  function Report(pipelineFailed: bool, limitHit: bool, triggered: bool): RunResult {
    if pipelineFailed then PipelineFailed
    else if limitHit then LimitReached
    else if triggered then ExitTriggered
    else Done
  }

  /** If a refused task is the first to cancel a follow run, the run reports the limit exactly when no message was sent
      between its last look at the limit channel and its look at the token. The limit is reported only if some task
      really found no permit, and a failed pipeline takes precedence. */
  lemma LimitReportedUnlessRaced(maxLogRequests: nat, actions: seq<Action>, pipelineFailed: bool, triggered: bool)
    requires IsRun(Start(true, maxLogRequests), actions)
    requires After(Start(true, maxLogRequests), actions).wait == Left
    ensures var s := After(Start(true, maxLogRequests), actions);
            var report := Report(pipelineFailed, s.limitHit, triggered);
            && (s.cause == Some(Limit) && !pipelineFailed ==>
                  (report == LimitReached <==> !s.notifiedSincePoll))
            && (report == LimitReached ==> s.refused)
            && (report == PipelineFailed <==> pipelineFailed)
            && (report == LimitReached <==> s.limitHit && !pipelineFailed)
            && (report == ExitTriggered <==> triggered && !s.limitHit && !pipelineFailed)
  {
    HandshakeKept(Start(true, maxLogRequests), actions);
  }

  ghost predicate CanReach(s: Pool, t: Pool) {
    exists actions :: IsRun(s, actions) && After(s, actions) == t
  }

  lemma Here(s: Pool)
    ensures CanReach(s, s)
  {
    assert IsRun(s, []) && After(s, []) == s;
  }

  lemma StepFirst(s: Pool, a: Action, t: Pool)
    requires Enabled(s, a) && CanReach(Do(s, a), t)
    ensures CanReach(s, t)
  {
    var rest :| IsRun(Do(s, a), rest) && After(Do(s, a), rest) == t;
    assert ([a] + rest)[1..] == rest;
    assert IsRun(s, [a] + rest) && After(s, [a] + rest) == t;
  }

  /** The race itself: with one permit, a second stream is refused, cancels the run first, and no limit is reported. */
  lemma LimitCanGoUnreported()
    ensures exists t :: CanReach(Start(true, 1), t)
              && t.wait == Left && t.cause == Some(Limit) && t.refused && Report(false, t.limitHit, false) == Done
  {
    var s0 := Start(true, 1);
    var s1 := Do(s0, Spawn(0));
    var s2 := Do(s1, TakePermit(0));
    var s3 := Do(s2, Spawn(1));
    var s4 := Do(s3, FindNone(1));
    RefusedTaskRaces(s4);
    var t :| CanReach(s4, t) && t.wait == Left && t.cause == Some(Limit) && t.refused && !t.limitHit;
    StepFirst(s3, FindNone(1), t);
    StepFirst(s2, Spawn(1), t);
    StepFirst(s1, TakePermit(0), t);
    StepFirst(s0, Spawn(0), t);
  }

  lemma RefusedTaskRaces(s: Pool)
    requires 1 in s.tasks && s.tasks[1] == Refused && s.refused
    requires s.follow && !s.message && !s.cancelled && s.wait == PollLimit && !s.limitHit
    ensures exists t :: CanReach(s, t) && t.wait == Left && t.cause == Some(Limit) && t.refused && !t.limitHit
  {
    var s5 := Do(s, RunPollsLimit);
    var s6 := Do(s5, Notify(1));
    var s7 := Do(s6, CancelRoot(1));
    var s8 := Do(s7, RunPollsCancelled);
    Here(s8);
    StepFirst(s7, RunPollsCancelled, s8);
    StepFirst(s6, CancelRoot(1), s8);
    StepFirst(s5, Notify(1), s8);
    StepFirst(s, RunPollsLimit, s8);
  }

  // ---- The loop of one attach task is a task of the pool ----

  /** The steps of task `t` that leave these events. */
  function StepsOf(t: nat, trace: seq<Event>): seq<Action>
    decreases |trace|
  {
    if trace == [] then []
    else
      var rest := trace[1..];
      var first :=
        match trace[0]
        case PermitTaken => [TakePermit(t)]
        case Opened => [OpenOk(t), MuxTakes(t, rest != [] && rest[0] == Added)]
        case OpenFailed => [OpenErr(t, |rest| > 1 && rest[1].Slept?)]
        case AwaitedEnd(_) => [StreamEnds(t, rest != [])]
        case Slept(_) => [Wake(t)]
        case LimitReported => [FindNone(t), Notify(t), CancelRoot(t)]
        case _ => [];
      first + StepsOf(t, rest)
  }

  predicate IsPath(k: Task, steps: seq<Action>)
    decreases |steps|
  {
    steps == [] || (OfTask(steps[0]) && !steps[0].Spawn? && CanStep(k, steps[0])
                    && IsPath(TaskAfter(k, steps[0]), steps[1..]))
  }

  lemma OneStep(k: Task, a: Action, later: seq<Action>)
    requires OfTask(a) && !a.Spawn? && CanStep(k, a) && IsPath(TaskAfter(k, a), later)
    ensures IsPath(k, [a] + later)
  {
    assert ([a] + later)[1..] == later;
  }

  lemma AddedSteps(t: nat, end: Event, later: seq<Event>)
    requires end.AwaitedEnd?
    ensures StepsOf(t, [Opened, Added, PermitDropped, end] + later)
         == [OpenOk(t)] + ([MuxTakes(t, true)] + ([StreamEnds(t, later != [])] + StepsOf(t, later)))
  {
    var trace := [Opened, Added, PermitDropped, end] + later;
    assert trace[1..][1..][1..][1..] == later;
    assert StepsOf(t, trace[1..][1..][1..]) == [StreamEnds(t, later != [])] + StepsOf(t, later);
    assert StepsOf(t, trace[1..]) == [StreamEnds(t, later != [])] + StepsOf(t, later);
  }

  lemma OpenedPath(t: nat, round: Round, later: seq<Event>, reopen: bool, failures: nat)
    requires later != [] ==> round.muxOpen && IsPath(AtTop(true, 0), StepsOf(t, later))
    ensures IsPath(Opening(reopen, failures), StepsOf(t, AfterOpen(round) + later))
  {
    var trace := AfterOpen(round) + later;
    if round.muxOpen {
      var end, steps := StreamEnds(t, later != []), StepsOf(t, later);
      AddedSteps(t, AwaitedEnd(round.end), later);
      assert trace == [Opened, Added, PermitDropped, AwaitedEnd(round.end)] + later;
      OneStep(Awaiting, end, steps);
      OneStep(Adding, MuxTakes(t, true), [end] + steps);
      OneStep(Opening(reopen, failures), OpenOk(t), [MuxTakes(t, true)] + ([end] + steps));
    } else {
      assert trace[1..][1..] == [] && StepsOf(t, trace[1..]) == [];
      OneStep(Adding, MuxTakes(t, false), []);
      OneStep(Opening(reopen, failures), OpenOk(t), [MuxTakes(t, false)] + []);
      assert StepsOf(t, trace) == [OpenOk(t)] + ([MuxTakes(t, false)] + []);
    }
  }

  lemma FailedPath(t: nat, reconnect: bool, round: Round, later: seq<Event>, reopen: bool, failures: nat)
    requires if Retries(reconnect, round, reopen, failures) then IsPath(AtTop(true, failures + 1), StepsOf(t, later))
             else later == []
    ensures IsPath(Opening(reopen, failures), StepsOf(t, AfterFailure(reconnect, round, reopen, failures) + later))
  {
    var trace, steps := AfterFailure(reconnect, round, reopen, failures) + later, StepsOf(t, later);
    var again := Retries(reconnect, round, reopen, failures);
    if again {
      assert trace[1..][1..][1..] == later;
      assert StepsOf(t, trace[1..][1..]) == [Wake(t)] + steps;
      assert StepsOf(t, trace[1..]) == [Wake(t)] + steps;
      OneStep(BackingOff(failures + 1), Wake(t), steps);
      OneStep(Opening(reopen, failures), OpenErr(t, true), [Wake(t)] + steps);
    } else {
      assert trace[1..][1..] == [] && StepsOf(t, trace[1..]) == [];
      OneStep(Opening(reopen, failures), OpenErr(t, false), []);
    }
  }

  /** Whatever the script, the loop takes only steps that a task of the pool takes from the same state. */
  lemma {:induction false} LoopIsATask(t: nat, follow: bool, reconnect: bool, rounds: seq<Round>, reopen: bool,
                                       failures: nat, target: Option<int>)
    ensures IsPath(AtTop(reopen, failures), StepsOf(t, TraceFrom(follow, reconnect, rounds, reopen, failures, target)))
    decreases |rounds|
  {
    if rounds != [] && !rounds[0].cancelledAtTop {
      var round, rest := rounds[0], rounds[1..];
      var trace := TraceFrom(follow, reconnect, rounds, reopen, failures, target);
      if round.permit {
        var after := AfterPermit(follow, reconnect, round, rest, reopen, failures);
        if round.opens {
          var later := if Reopens(reconnect, round)
                       then TraceFrom(follow, reconnect, rest, true, 0, round.end.value.lastLineTs) else [];
          if later != [] { LoopIsATask(t, follow, reconnect, rest, true, 0, round.end.value.lastLineTs); }
          OpenedPath(t, round, later, reopen, failures);
        } else {
          var again := Retries(reconnect, round, reopen, failures);
          if again { LoopIsATask(t, follow, reconnect, rest, true, failures + 1, None); }
          var later := if again then TraceFrom(follow, reconnect, rest, true, failures + 1, None) else [];
          FailedPath(t, reconnect, round, later, reopen, failures);
        }
        assert trace[1..][1..] == after;
        assert StepsOf(t, trace) == StepsOf(t, trace[1..]) == [TakePermit(t)] + StepsOf(t, after);
        OneStep(AtTop(reopen, failures), TakePermit(t), StepsOf(t, after));
      } else {
        RefusedPath(t, follow, trace, reopen, failures, target);
      }
    }
  }

  lemma RefusedPath(t: nat, follow: bool, trace: seq<Event>, reopen: bool, failures: nat, target: Option<int>)
    requires trace == [Requested(reopen, target)] + if follow then [LimitReported] else []
    ensures IsPath(AtTop(reopen, failures), StepsOf(t, trace))
  {
    if follow {
      assert trace[1..] == [LimitReported] && trace[1..][1..] == [];
      assert StepsOf(t, trace[1..][1..]) == [];
      assert StepsOf(t, trace[1..]) == [FindNone(t), Notify(t), CancelRoot(t)];
      OneStep(Notified, CancelRoot(t), []);
      OneStep(Refused, Notify(t), [CancelRoot(t)]);
      OneStep(AtTop(reopen, failures), FindNone(t), [Notify(t), CancelRoot(t)]);
      assert [CancelRoot(t)] + [] == [CancelRoot(t)] && [Notify(t)] + [CancelRoot(t)] == [Notify(t), CancelRoot(t)];
      assert StepsOf(t, trace) == [FindNone(t)] + [Notify(t), CancelRoot(t)];
    } else {
      assert trace[1..] == [];
    }
  }
}
