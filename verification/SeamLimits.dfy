/**
 Where the seam fails after all: for each way to lose a line the exact condition, and a run from the start of a
 registration that meets it.
 */
module SeamLimits {
  import opened Wrappers
  import opened CursorRequest
  import opened CursorService
  import opened Seam

  /** Some careful run leads from `s` to `t`. */
  ghost predicate CanReach(r: Registration, s: State, t: State) {
    exists actions :: IsRun(r, s, actions) && Careful(r, s, actions) && After(r, s, actions) == t
  }

  lemma Here(r: Registration, s: State)
    ensures CanReach(r, s, s)
  {
    assert IsRun(r, s, []) && Careful(r, s, []) && After(r, s, []) == s;
  }

  lemma StepFirst(r: Registration, s: State, a: Action, t: State)
    requires Enabled(r, s, a) && !Harmful(r, s, a)
    requires CanReach(r, Do(r, s, a), t)
    ensures CanReach(r, s, t)
  {
    var rest :| IsRun(r, Do(r, s, a), rest) && Careful(r, Do(r, s, a), rest) && After(r, Do(r, s, a), rest) == t;
    var actions := [a] + rest;
    assert actions[1..] == rest;
    assert IsRun(r, s, actions) && Careful(r, s, actions) && After(r, s, actions) == t;
  }

  lemma {:induction false} RunThen(r: Registration, s: State, actions: seq<Action>, t: State)
    requires IsRun(r, s, actions) && Careful(r, s, actions) && CanReach(r, After(r, s, actions), t)
    ensures CanReach(r, s, t)
    decreases |actions|
  {
    if actions != [] {
      RunThen(r, Do(r, s, actions[0]), actions[1..], t);
      StepFirst(r, s, actions[0], t);
    }
  }

  lemma Onwards(r: Registration, s: State, t: State, u: State)
    requires CanReach(r, s, t) && CanReach(r, t, u)
    ensures CanReach(r, s, u)
  {
    var actions :| IsRun(r, s, actions) && Careful(r, s, actions) && After(r, s, actions) == t;
    RunThen(r, s, actions, u);
  }

  lemma StepLast(r: Registration, s: State, t: State, a: Action)
    requires CanReach(r, s, t) && Enabled(r, t, a) && !Harmful(r, t, a)
    ensures CanReach(r, s, Do(r, t, a))
  {
    Here(r, Do(r, t, a));
    StepFirst(r, t, a, Do(r, t, a));
    Onwards(r, s, t, Do(r, t, a));
  }

  ghost predicate CanGap(r: Registration, s: State) {
    exists t :: CanReach(r, s, t) && !NoGap(t)
  }

  lemma GapLater(r: Registration, s: State, t: State)
    requires CanReach(r, s, t) && CanGap(r, t)
    ensures CanGap(r, s)
  {
    var u :| CanReach(r, t, u) && !NoGap(u);
    Onwards(r, s, t, u);
  }

  lemma GapAfter(r: Registration, s: State, a: Action)
    requires Enabled(r, s, a) && !Harmful(r, s, a) && CanGap(r, Do(r, s, a))
    ensures CanGap(r, s)
  {
    var u :| CanReach(r, Do(r, s, a), u) && !NoGap(u);
    StepFirst(r, s, a, u);
  }

  lemma NoGapEver(r: Registration, s: State)
    requires Inv(r, s) && FirstRequestOnce(s)
    ensures forall t :: CanReach(r, s, t) ==> NoGap(t)
  {
    forall t | CanReach(r, s, t) ensures NoGap(t) {
      var actions :| IsRun(r, s, actions) && Careful(r, s, actions) && After(r, s, actions) == t;
      RunKeeps(r, s, actions);
    }
  }

  /** The start of a registration of which nothing is known. */
  function Fresh(log: seq<Option<int>>, clock: int): State {
    State(log, clock, Requesting(false, None, 0), [], map[], {}, None, {}, false)
  }

  // ---- A stream that starts too late ----

  lemma AppendInOrder(log: seq<Option<int>>, stamp: int, clock: int)
    requires InOrder(log, clock) && 0 <= clock && LastStamp(log) <= stamp <= clock
    ensures InOrder(log + [Some(stamp)], clock)
  {
    LastStampIsLast(log, clock);
    var longer := log + [Some(stamp)];
    forall i: nat | Dated(longer, i) && i < |log| ensures Dated(log, i) && Stamp(longer, i) == Stamp(log, i) {}
  }

  /** The first dated line from `pos` on that was not handed over. */
  function Missing(log: seq<Option<int>>, handed: set<nat>, pos: nat): (i: nat)
    ensures i <= |log| && (i < |log| ==> pos <= i && Dated(log, i) && i !in handed)
    ensures forall j: nat :: pos <= j < i && Dated(log, j) ==> j in handed
    decreases |log| - pos
  {
    if pos >= |log| then |log|
    else if Dated(log, pos) && pos !in handed then pos
    else Missing(log, handed, pos + 1)
  }

  /** An open stream that starts after every line up to which nothing is missing passes over a line. */
  lemma PassedOver(r: Registration, s: State)
    requires Bounded(r, s) && s.first.Some? && s.phase.Streaming? && s.phase.since.Some? && s.phase.pos <= |s.log|
    requires s.phase.since.value <= r.tt.max
    requires forall k: nat :: Anchor(s, k) ==> Stamp(s.log, k) < s.phase.since.value
    ensures CanGap(r, s)
  {
    var last := LastStamp(s.log);
    LastStampIsLast(s.log, s.clock);
    var s1 := Do(r, s, Tick(r.tt.max));
    AppendInOrder(s1.log, last, s1.clock);
    var s2 := Do(r, s1, Append(Some(last)));
    MissingIsEarly(r, s, s2.log);
    NextLinePasses(r, s2, Missing(s2.log, s.handed, s.first.value));
    GapAfter(r, s1, Append(Some(last)));
    GapAfter(r, s, Tick(r.tt.max));
  }

  lemma NextLinePasses(r: Registration, s: State, j: nat)
    requires 0 <= s.clock == r.tt.max && InOrder(s.log, s.clock)
    requires s.phase.Streaming? && s.phase.since.Some? && s.phase.pos <= |s.log| && s.phase.since.value <= r.tt.max
    requires s.first.Some? && s.first.value <= j && j !in s.handed && Before(s.log, j, s.phase.since)
    ensures CanGap(r, s)
  {
    var n := |s.log|;
    LastStampIsLast(s.log, s.clock);
    AppendInOrder(s.log, r.tt.max, s.clock);
    var s1 := Do(r, s, Append(Some(r.tt.max)));
    assert Dated(s1.log, n) && !Before(s1.log, n, s.phase.since);
    assert Dated(s1.log, j) && Stamp(s1.log, j) == Stamp(s.log, j);
    PassesLine(r, s1, j);
    GapAfter(r, s, Append(Some(r.tt.max)));
  }

  /** A missing line lies before the start of the stream, and the stream gives another one. */
  lemma PassesLine(r: Registration, s: State, j: nat)
    requires InOrder(s.log, s.clock) && s.phase.Streaming? && s.phase.since.Some? && s.phase.pos <= |s.log|
    requires s.first.Some? && s.first.value <= j && j !in s.handed && Before(s.log, j, s.phase.since)
    requires NextOffered(s.log, s.phase.since, s.phase.pos) < |s.log|
    ensures CanGap(r, s)
  {
    var m := NextOffered(s.log, s.phase.since, s.phase.pos);
    var t := Do(r, s, Deliver(m));
    assert Stamp(s.log, j) < Stamp(s.log, m) && j < m;
    assert !NoGap(t) by { assert j !in t.handed && m in t.handed && t.first.value <= j; }
    Here(r, t);
    GapAfter(r, s, Deliver(m));
  }

  lemma MissingIsEarly(r: Registration, s: State, log: seq<Option<int>>)
    requires Bounded(r, s) && s.first.Some? && s.phase.Streaming? && s.phase.since.Some?
    requires forall k: nat :: Anchor(s, k) ==> Stamp(s.log, k) < s.phase.since.value
    requires log == s.log + [Some(LastStamp(s.log))]
    ensures var j := Missing(log, s.handed, s.first.value);
            j < |log| && Stamp(log, j) < s.phase.since.value
  {
    var n, j, since := |s.log|, Missing(log, s.handed, s.first.value), s.phase.since.value;
    assert Dated(log, n) && n !in s.handed && s.first.value <= n;
    assert Anchor(s, s.first.value);
    forall i: nat | i < n ensures Dated(log, i) == Dated(s.log, i) {}
    if j < n {
      assert Anchor(s, j);
    } else {
      LastStampIsLast(s.log, s.clock);
      if LastStamp(s.log) > 0 {
        var l: nat :| Dated(s.log, l) && Stamp(s.log, l) == LastStamp(s.log);
        assert Anchor(s, l);
      }
    }
  }

  // ---- The processor catches up ----

  lemma {:induction false} ApplyTo(r: Registration, s: State, i: nat)
    requires i < |s.queue| && s.queue[i].key == r.key
    ensures exists store: Store :: r.key in store && store[r.key] == s.queue[i].timestamp
              && CanReach(r, s, s.(store := store, queue := s.queue[i + 1..]))
    decreases i
  {
    var next := Do(r, s, ApplyUpdate);
    if i == 0 {
      Here(r, next);
      StepFirst(r, s, ApplyUpdate, next);
      var store := next.store;
      assert next == s.(store := store, queue := s.queue[i + 1..]);
      assert r.key in store && store[r.key] == s.queue[i].timestamp;
    } else {
      ApplyTo(r, next, i - 1);
      var store :| r.key in store && store[r.key] == s.queue[i].timestamp
        && CanReach(r, next, next.(store := store, queue := next.queue[i..]));
      assert next.queue[i..] == s.queue[i + 1..];
      StepFirst(r, s, ApplyUpdate, s.(store := store, queue := s.queue[i + 1..]));
    }
  }

  lemma ApplyUntil(r: Registration, s: State, v: int)
    requires Cursor(r, s, v)
    ensures exists store: Store, queue :: r.key in store && store[r.key] == v
              && CanReach(r, s, s.(store := store, queue := queue))
  {
    if r.key in s.store && s.store[r.key] == v {
      Here(r, s);
      assert s == s.(store := s.store, queue := s.queue);
    } else {
      var i :| 0 <= i < |s.queue| && s.queue[i] == CursorUpdate(r.key, v);
      ApplyTo(r, s, i);
    }
  }

  lemma ApplyUntilFollowed(r: Registration, s: State, a: int, b: int)
    requires Follows(r, s, a, b)
    ensures exists store: Store, queue :: r.key in store && store[r.key] == a && CursorUpdate(r.key, b) in queue
              && CanReach(r, s, s.(store := store, queue := queue))
  {
    if r.key in s.store && s.store[r.key] == a && CursorUpdate(r.key, b) in s.queue {
      Here(r, s);
      var store, queue := s.store, s.queue;
      assert s == s.(store := store, queue := queue);
    } else {
      var i, j :| 0 <= i < j < |s.queue|
        && s.queue[i] == CursorUpdate(r.key, a) && s.queue[j] == CursorUpdate(r.key, b);
      ApplyThenFollowed(r, s, i, j, b);
    }
  }

  lemma ApplyThenFollowed(r: Registration, s: State, i: nat, j: nat, b: int)
    requires i < j < |s.queue| && s.queue[i].key == r.key && s.queue[j] == CursorUpdate(r.key, b)
    ensures exists store: Store, queue :: r.key in store && store[r.key] == s.queue[i].timestamp
              && CursorUpdate(r.key, b) in queue && CanReach(r, s, s.(store := store, queue := queue))
  {
    ApplyTo(r, s, i);
    var store: Store :| r.key in store && store[r.key] == s.queue[i].timestamp
      && CanReach(r, s, s.(store := store, queue := s.queue[i + 1..]));
    var queue := s.queue[i + 1..];
    assert queue[j - i - 1] == s.queue[j];
    assert CursorUpdate(r.key, b) in queue;
  }

  // ---- The flush wait ----

  function Checks(n: nat): seq<Action> {
    seq(n, _ => FlushCheck)
  }

  /** As long as the store stays below the target the wait goes on, and the sixteenth look ends it. */
  lemma {:induction false} WaitGoesOn(r: Registration, s: State, target: int, n: nat)
    requires s.phase.Requesting? && s.phase.reopen && s.phase.target == Some(target) && s.phase.tries + n <= 16
    requires s.phase.tries < 16 && (r.key in s.store ==> s.store[r.key] < target)
    ensures IsRun(r, s, Checks(n))
    ensures After(r, s, Checks(n)).phase
         == if s.phase.tries + n < 16 then Requesting(true, Some(target), s.phase.tries + n)
            else Requesting(true, None, 0)
    decreases n
  {
    if n > 0 {
      var next := Do(r, s, FlushCheck);
      assert Checks(n)[1..] == Checks(n - 1);
      if s.phase.tries == 15 {
        assert Checks(n - 1) == [];
      } else {
        WaitGoesOn(r, next, target, n - 1);
      }
    }
  }

  /** When a stream ends, the wait is for the stamp of its last line: it is over at the first look that finds it
      stored, after sixteen that do not, and not before; only then is a request built. */
  lemma WaitsForLastLine(r: Registration, s: State, i: nat, n: nat)
    requires Enabled(r, s, Deliver(i)) && n <= 16
    ensures var last, ended := StampGiven(s, i), Do(r, Do(r, s, Deliver(i)), StreamEnds);
            if r.key in s.store && last <= s.store[r.key]
            then Do(r, ended, FlushCheck).phase == Requesting(true, None, 0) && !Enabled(r, ended, BuildRequest)
            else && IsRun(r, ended, Checks(n))
                 && (Enabled(r, After(r, ended, Checks(n)), BuildRequest) <==> n == 16)
  {
    var last, ended := StampGiven(s, i), Do(r, Do(r, s, Deliver(i)), StreamEnds);
    if !(r.key in s.store && last <= s.store[r.key]) { WaitGoesOn(r, ended, last, n); }
  }

  // ---- On to the next reopen ----

  /** The flush wait is still within its tries. */
  predicate TriesLeft(s: State) {
    s.phase.Requesting? ==> s.phase.tries < CURSOR_FLUSH_RETRIES && (s.phase.target.None? ==> s.phase.tries == 0)
  }

  lemma {:induction false} FlushEnds(r: Registration, s: State)
    requires s.phase.Requesting? && s.phase.reopen && TriesLeft(s)
    ensures CanReach(r, s, s.(phase := Requesting(true, None, 0)))
    decreases s.phase.target.Some?, CURSOR_FLUSH_RETRIES - s.phase.tries
  {
    var reopening := s.(phase := Requesting(true, None, 0));
    if s.phase.target.None? {
      Here(r, s);
    } else {
      var next := Do(r, s, FlushCheck);
      FlushEnds(r, next);
      StepFirst(r, s, FlushCheck, reopening);
    }
  }

  /** Whatever a registration is doing, its stream may break without another line, and then it is opened again. */
  lemma ReachesReopen(r: Registration, s: State)
    requires !s.phase.Stopped? && TriesLeft(s)
    ensures CanReach(r, s, s.(phase := Requesting(true, None, 0)))
  {
    match s.phase
    case Requesting(true, _, _) => FlushEnds(r, s);
    case Requesting(false, _, _) =>
      FirstBreaks(r, s);
    case Opening(_, _) => OpeningBreaks(r, s);
    case Streaming(_, _, _, _, _) => StreamBreaks(r, s);
  }

  lemma StreamBreaks(r: Registration, s: State)
    requires s.phase.Streaming?
    ensures CanReach(r, s, s.(phase := Requesting(true, None, 0)))
  {
    FlushEnds(r, Do(r, s, StreamEnds));
    StepFirst(r, s, StreamEnds, s.(phase := Requesting(true, None, 0)));
  }

  lemma OpeningBreaks(r: Registration, s: State)
    requires s.phase.Opening?
    ensures CanReach(r, s, s.(phase := Requesting(true, None, 0)))
  {
    StreamBreaks(r, Do(r, s, OpenOk));
    StepFirst(r, s, OpenOk, s.(phase := Requesting(true, None, 0)));
  }

  lemma FirstBreaks(r: Registration, s: State)
    requires s.phase.Requesting? && !s.phase.reopen
    ensures CanReach(r, s, s.(phase := Requesting(true, None, 0)))
  {
    OpeningBreaks(r, Do(r, s, BuildRequest));
    StepFirst(r, s, BuildRequest, s.(phase := Requesting(true, None, 0)));
  }

  /** After the first line: a cursor from which the overlap does not lead back makes a reopen start too late. */
  lemma CursorGaps(r: Registration, s: State, v: int)
    requires Bounded(r, s) && s.first.Some? && !s.phase.Stopped? && TriesLeft(s)
    requires Cursor(r, s, v) && 0 <= v && v - OVERLAP <= r.tt.max && !Near(s, v, OVERLAP)
    ensures CanGap(r, s)
  {
    var s1 := s.(phase := Requesting(true, None, 0));
    ReachesReopen(r, s);
    ApplyUntil(r, s1, v);
    var store: Store, queue :| r.key in store && store[r.key] == v
      && CanReach(r, s1, s1.(store := store, queue := queue));
    var s2 := s1.(store := store, queue := queue);
    forall k: nat | Anchor(s2, k) ensures Stamp(s2.log, k) < v - OVERLAP { assert Anchor(s, k); }
    StoredCursorGaps(r, s2, v);
    GapLater(r, s1, s2);
    GapLater(r, s, s1);
  }

  lemma StoredCursorGaps(r: Registration, s: State, v: int)
    requires Bounded(r, s) && s.first.Some? && s.phase == Requesting(true, None, 0)
    requires r.key in s.store && s.store[r.key] == v && 0 <= v && v - OVERLAP <= r.tt.max
    requires forall k: nat :: Anchor(s, k) ==> Stamp(s.log, k) < v - OVERLAP
    ensures CanGap(r, s)
  {
    var s1 := Do(r, s, BuildRequest);
    CursorRequestResumesOneSecondBack(r.tt, r.base, v);
    var s2 := Do(r, s1, OpenOk);
    forall k: nat | Anchor(s2, k) ensures Stamp(s2.log, k) < v - OVERLAP { assert Anchor(s, k); }
    PassedOver(r, s2);
    GapAfter(r, s1, OpenOk);
    GapAfter(r, s, BuildRequest);
  }

  // ---- Cursors left behind by an earlier registration ----

  /** Nothing has been handed over yet. */
  ghost predicate Untouched(r: Registration, s: State) {
    && r.tt.Lawful() && 0 <= s.clock <= r.tt.max && InOrder(s.log, s.clock)
    && s.handed == {} && s.first == None && TriesLeft(s)
    && (s.phase.Streaming? ==> s.phase.pos <= |s.log|)
  }

  ghost predicate Writable(r: Registration, v: int) {
    0 <= v && v - OVERLAP <= r.tt.max
  }

  lemma StreamGaps(r: Registration, s: State, v: int)
    requires Untouched(r, s) && s.phase.Streaming? && Cursor(r, s, v) && Writable(r, v)
    requires Floor(s.log, s.phase.since, s.phase.pos) + OVERLAP < v
    ensures CanGap(r, s)
  {
    LastStampIsLast(s.log, s.clock);
    FloorIsLate(s.log, s.phase.since, s.phase.pos, s.clock);
    var x := NextStamp(s.log, s.phase.since);
    var s1 := Do(r, s, Tick(r.tt.max));
    AppendInOrder(s1.log, x, s1.clock);
    var s2 := Do(r, s1, Append(Some(x)));
    FirstLineGaps(r, s, s2, v);
    GapAfter(r, s1, Append(Some(x)));
    GapAfter(r, s, Tick(r.tt.max));
  }

  lemma FirstLineGaps(r: Registration, s: State, t: State, v: int)
    requires Untouched(r, s) && Untouched(r, t) && t.clock == r.tt.max && s.phase.Streaming? && t.phase == s.phase
    requires t.log == s.log + [Some(NextStamp(s.log, s.phase.since))]
    requires Cursor(r, t, v) && Writable(r, v) && Floor(s.log, s.phase.since, s.phase.pos) + OVERLAP < v
    ensures CanGap(r, t)
  {
    var n, since := |s.log|, s.phase.since;
    var i := NextOffered(t.log, since, s.phase.pos);
    assert Dated(t.log, n) && !Before(t.log, n, since);
    var t1 := Do(r, t, Deliver(i));
    FirstDelivered(r, t, v, i);
    FloorIsLate(s.log, since, s.phase.pos, s.clock);
    AnchorsAtFloor(s, t1, i);
    DeliveredGaps(r, t1, v, Floor(s.log, since, s.phase.pos));
    GapAfter(r, t, Deliver(i));
  }

  lemma FirstDelivered(r: Registration, t: State, v: int, i: nat)
    requires Untouched(r, t) && t.phase.Streaming? && Cursor(r, t, v)
    requires i == NextOffered(t.log, t.phase.since, t.phase.pos) < |t.log|
    ensures Enabled(r, t, Deliver(i))
    ensures var t1 := Do(r, t, Deliver(i));
            && Bounded(r, t1) && t1.phase.Streaming? && Cursor(r, t1, v)
            && t1.log == t.log && t1.handed == {i} && t1.first == Some(i)
  {
    var t1 := Do(r, t, Deliver(i));
    forall j | 0 <= j < |t.queue| ensures t1.queue[j] == t.queue[j] {}
  }

  lemma DeliveredGaps(r: Registration, s: State, v: int, floor: int)
    requires Bounded(r, s) && s.first.Some? && s.phase.Streaming? && Cursor(r, s, v) && Writable(r, v)
    requires 0 <= floor && floor + OVERLAP < v && forall k: nat :: Anchor(s, k) ==> Stamp(s.log, k) <= floor
    ensures CanGap(r, s)
  {
    CursorGaps(r, s, v);
  }

  /** With only the first line handed over, nothing is missing up to the second one. */
  lemma AnchorsAtFloor(s: State, t: State, i: nat)
    requires s.phase.Streaming? && s.phase.pos <= |s.log|
    requires t.log == s.log + [Some(NextStamp(s.log, s.phase.since))]
    requires InOrder(t.log, t.clock) && InOrder(s.log, t.clock) && 0 <= t.clock
    requires i == NextOffered(t.log, s.phase.since, s.phase.pos) < |t.log|
    requires t.handed == {i} && t.first == Some(i)
    ensures forall k: nat :: Anchor(t, k) ==> Stamp(t.log, k) <= Floor(s.log, s.phase.since, s.phase.pos)
  {
    var since, pos := s.phase.since, s.phase.pos;
    var x := NextStamp(s.log, since);
    var second := NextOffered(s.log, since, NextOffered(s.log, since, pos) + 1);
    OfferedAppended(s.log, Some(x), since, pos);
    assert Dated(t.log, |s.log|) && Stamp(t.log, |s.log|) == x;
    forall k: nat | Anchor(t, k) ensures Stamp(t.log, k) <= Floor(s.log, since, pos) {
      if second < |s.log| {
        assert Dated(t.log, second) && Stamp(t.log, second) == Stamp(s.log, second) && second !in t.handed;
        assert k <= second;
      }
    }
  }

  /** A request that brings the first line, with its second line too early for `v`. */
  lemma RequestGaps(r: Registration, s: State, v: int)
    requires Untouched(r, s) && s.phase.Opening? && Cursor(r, s, v) && Writable(r, v)
    requires RequestFloor(s, s.phase.request) + OVERLAP < v
    ensures CanGap(r, s)
  {
    StreamGaps(r, Do(r, s, OpenOk), v);
    GapAfter(r, s, OpenOk);
  }

  lemma BaseGaps(r: Registration, s: State, v: int)
    requires Untouched(r, s) && !s.phase.Stopped? && Cursor(r, s, v) && Writable(r, v)
    requires r.key !in s.store || (s.phase.Requesting? && !s.phase.reopen)
    requires RequestFloor(s, r.base) + OVERLAP < v
    ensures CanGap(r, s)
  {
    if s.phase.Requesting? && !s.phase.reopen {
      RequestGaps(r, Do(r, s, BuildRequest), v);
      GapAfter(r, s, BuildRequest);
    } else {
      // The stream breaks before its first line, and the base request is sent again.
      var s1 := s.(phase := Requesting(true, None, 0));
      ReachesReopen(r, s);
      RequestGaps(r, Do(r, s1, BuildRequest), v);
      GapAfter(r, s1, BuildRequest);
      GapLater(r, s, s1);
    }
  }

  lemma WaitingGaps(r: Registration, s: State, v: int)
    requires Untouched(r, s) && !s.phase.Stopped? && Cursor(r, s, v) && Writable(r, v) && !Waits(r, s, v)
    ensures CanGap(r, s)
  {
    if s.phase.Opening? && RequestFloor(s, s.phase.request) + OVERLAP < v {
      RequestGaps(r, s, v);
    } else if s.phase.Streaming? && Floor(s.log, s.phase.since, s.phase.pos) + OVERLAP < v {
      StreamGaps(r, s, v);
    } else {
      BaseGaps(r, s, v);
    }
  }

  /** The stream breaks before its first line, and the reopen starts at the earlier cursor. */
  lemma FollowedGaps(r: Registration, s: State, a: int, b: int)
    requires Untouched(r, s) && !s.phase.Stopped? && Follows(r, s, a, b) && Writable(r, a) && Writable(r, b)
    requires Floor(s.log, Some(a - OVERLAP), 0) + OVERLAP < b
    ensures CanGap(r, s)
  {
    var s1 := s.(phase := Requesting(true, None, 0));
    ReachesReopen(r, s);
    assert Follows(r, s1, a, b);
    ApplyUntilFollowed(r, s1, a, b);
    var store: Store, queue :| r.key in store && store[r.key] == a && CursorUpdate(r.key, b) in queue
      && CanReach(r, s1, s1.(store := store, queue := queue));
    var s2 := s1.(store := store, queue := queue);
    var s3 := Do(r, s2, BuildRequest);
    CursorRequestResumesOneSecondBack(r.tt, r.base, a);
    RequestGaps(r, s3, b);
    GapAfter(r, s2, BuildRequest);
    GapLater(r, s1, s2);
    GapLater(r, s, s1);
  }

  /** Every careful run of a registration is free of gaps exactly when no stale cursor was left behind, whatever the log
      holds when it begins and whatever the first request asks for. */
  lemma GapFreeUnlessStale(r: Registration, s: State)
    requires Start(r, s)
    ensures (forall t :: CanReach(r, s, t) ==> NoGap(t)) <==> NoStaleCursor(r, s)
  {
    if NoStaleCursor(r, s) {
      StartInv(r, s);
      NoGapEver(r, s);
    } else if v :| Cursor(r, s, v) && RequestFloor(s, r.base) + OVERLAP < v {
      BaseGaps(r, s, v);
    } else {
      var a, b :| Follows(r, s, a, b) && Floor(s.log, Some(a - OVERLAP), 0) + OVERLAP < b;
      assert Cursor(r, s, a) && Cursor(r, s, b);
      FollowedGaps(r, s, a, b);
    }
  }

  // ---- Cursors that come late ----

  /** A cursor that a stream of an earlier registration reports now is safe in every continuation exactly when it
      does not outrun the lines handed over, or still to be handed over first; whatever the registration is doing. */
  lemma LateCursorIsSafeUnlessItOutruns(r: Registration, s: State, v: int)
    requires Inv(r, s) && FirstRequestOnce(s) && Enabled(r, s, LateCursor(v))
    ensures (forall t :: CanReach(r, Do(r, s, LateCursor(v)), t) ==> NoGap(t)) <==> !Outruns(r, s, LateCursor(v))
  {
    var s1 := Do(r, s, LateCursor(v));
    if !Outruns(r, s, LateCursor(v)) {
      StepKeeps(r, s, LateCursor(v));
      NoGapEver(r, s1);
    } else if s.first.Some? {
      assert !Near(s1, v, OVERLAP) by { if Near(s1, v, OVERLAP) { NearKept(s1, s, v, OVERLAP); } }
      CursorGaps(r, s1, v);
    } else if !Waits(r, s, v) {
      WaitingGaps(r, s1, v);
    } else {
      var a :| Cursor(r, s, a) && Floor(s.log, Some(a - OVERLAP), 0) + OVERLAP < v;
      LateFollows(r, s, a, v);
      FollowedGaps(r, s1, a, v);
    }
  }

  lemma LateFollows(r: Registration, s: State, a: int, v: int)
    requires Enabled(r, s, LateCursor(v)) && Cursor(r, s, a)
    ensures Follows(r, Do(r, s, LateCursor(v)), a, v)
  {
    var queue := s.queue + [CursorUpdate(r.key, v)];
    assert queue[|s.queue|] == CursorUpdate(r.key, v);
    if CursorUpdate(r.key, a) in s.queue {
      var i :| 0 <= i < |s.queue| && s.queue[i] == CursorUpdate(r.key, a);
      assert queue[i] == CursorUpdate(r.key, a);
    }
  }

  /** Nothing was left behind, and one line of three has been handed over, or none, when a stream that an earlier
      registration opened is polled and reports the last line: a line can be lost. */
  lemma LateCursorHappens(r: Registration, a: int, b: int, c: int)
    requires r.tt.Lawful() && AnswersInFull(r.base) && r.base.sinceTime == None
    requires 0 <= a <= b && b + OVERLAP < c <= r.tt.max
    ensures var s := Fresh([Some(a), Some(b), Some(c)], c);
            && Start(r, s) && NoStaleCursor(r, s)
            && CanGap(r, Do(r, s, LateCursor(c)))
            && exists t :: CanReach(r, s, t) && t.handed == {0} && Enabled(r, t, LateCursor(c))
                           && CanGap(r, Do(r, t, LateCursor(c)))
  {
    var s := Fresh([Some(a), Some(b), Some(c)], c);
    StartInv(r, s);
    assert Floor(s.log, None, 0) == b;
    LateCursorIsSafeUnlessItOutruns(r, s, c);
    OneOfThree(r, s, a, b, c);
    var t :| CanReach(r, s, t) && t.handed == {0} && t.first == Some(0) && t.log == s.log && !t.phase.Stopped?;
    ReachedInv(r, s, t);
    LateAfterFirst(r, t, b, c);
  }

  lemma LateAfterFirst(r: Registration, t: State, b: int, c: int)
    requires Inv(r, t) && FirstRequestOnce(t) && Enabled(r, t, LateCursor(c)) && b + OVERLAP < c
    requires t.handed == {0} && t.first == Some(0) && !t.phase.Stopped?
    requires |t.log| == 3 && Dated(t.log, 0) && Dated(t.log, 1) && 0 <= Stamp(t.log, 0) <= Stamp(t.log, 1) == b
    ensures CanGap(r, Do(r, t, LateCursor(c)))
  {
    SecondIsLastAnchor(t, c);
    LateCursorIsSafeUnlessItOutruns(r, t, c);
  }

  lemma OneOfThree(r: Registration, s: State, a: int, b: int, c: int)
    requires AnswersInFull(r.base) && r.base.sinceTime == None && s == Fresh([Some(a), Some(b), Some(c)], c)
    ensures exists t :: CanReach(r, s, t) && t.handed == {0} && t.first == Some(0) && t.log == s.log
                        && !t.phase.Stopped?
  {
    var s1 := Do(r, s, BuildRequest);
    var s2 := Do(r, s1, OpenOk);
    var t := Do(r, s2, Deliver(0));
    Here(r, t);
    StepFirst(r, s2, Deliver(0), t);
    StepFirst(r, s1, OpenOk, t);
    StepFirst(r, s, BuildRequest, t);
  }

  lemma SecondIsLastAnchor(t: State, c: int)
    requires |t.log| == 3 && Dated(t.log, 0) && Dated(t.log, 1) && t.handed == {0} && t.first == Some(0)
    requires 0 <= Stamp(t.log, 0) <= Stamp(t.log, 1) && Stamp(t.log, 1) + OVERLAP < c
    ensures !Near(t, c, OVERLAP)
  {
    forall k: nat | Anchor(t, k) ensures k <= 1 { assert Dated(t.log, 1); }
  }

  /** For one cursor left behind and a first request for everything: it is stale exactly when more than the overlap lies
      between it and the second dated line, or the last one where there is no second. */
  lemma OneCursorLeftBehind(r: Registration, s: State, v: int)
    requires Start(r, s) && s.queue == [] && s.store == map[r.key := v]
    requires AnswersInFull(r.base) && r.base.sinceTime == None
    ensures NoStaleCursor(r, s) <==> v <= Floor(s.log, None, 0) + OVERLAP
  {
    assert Cursor(r, s, v);
  }

  /** A stale cursor is an ordinary one: the stamp of the last line that the earlier registration handed over, when the
      log's first two lines are older than the overlap. The new registration starts over from the first line. */
  lemma StaleCursorHappens(r: Registration, a: int, b: int, c: int)
    requires r.tt.Lawful() && AnswersInFull(r.base) && r.base.sinceTime == None
    requires 0 <= a <= b && b + OVERLAP < c <= r.tt.max
    ensures var s := Fresh([Some(a), Some(b), Some(c)], c).(store := map[r.key := c], sent := {a, b, c});
            Start(r, s) && !NoStaleCursor(r, s) && CanGap(r, s)
  {
    var s := Fresh([Some(a), Some(b), Some(c)], c).(store := map[r.key := c], sent := {a, b, c});
    OneCursorLeftBehind(r, s, c);
    GapFreeUnlessStale(r, s);
  }

  // ---- Blind reopens ----

  /** A reopen is safe in every continuation exactly when it is not blind. */
  lemma ReopenIsSafeUnlessBlind(r: Registration, s: State)
    requires Inv(r, s) && FirstRequestOnce(s) && Enabled(r, s, BuildRequest)
    ensures (forall t :: CanReach(r, Do(r, s, BuildRequest), t) ==> NoGap(t)) <==> !Blind(r, s, BuildRequest)
  {
    if !Blind(r, s, BuildRequest) {
      StepKeeps(r, s, BuildRequest);
      NoGapEver(r, Do(r, s, BuildRequest));
    } else if r.base.tail.Some? {
      BlindTailGaps(r, s);
    } else {
      BlindWindowGaps(r, s);
    }
  }

  lemma {:induction false} AppendMany(r: Registration, s: State, n: nat)
    requires 0 <= s.clock && InOrder(s.log, s.clock)
    ensures InOrder(s.log + seq(n, _ => Some(s.clock)), s.clock)
    ensures CanReach(r, s, s.(log := s.log + seq(n, _ => Some(s.clock))))
    decreases n
  {
    if n == 0 {
      assert s.log + seq(n, _ => Some(s.clock)) == s.log;
      Here(r, s);
    } else {
      AppendMany(r, s, n - 1);
      var t := s.(log := s.log + seq(n - 1, _ => Some(s.clock)));
      LastStampIsLast(t.log, t.clock);
      AppendInOrder(t.log, t.clock, t.clock);
      StepLast(r, s, t, Append(Some(s.clock)));
      assert t.log + [Some(s.clock)] == s.log + seq(n, _ => Some(s.clock));
    }
  }

  /** One line more is written than the tail is long, before the server answers. */
  lemma BlindTailGaps(r: Registration, s: State)
    requires Inv(r, s) && Enabled(r, s, BuildRequest) && Blind(r, s, BuildRequest) && r.base.tail.Some?
    ensures CanGap(r, Do(r, s, BuildRequest))
  {
    var n, k := |s.log|, r.base.tail.value;
    var s1 := Do(r, s, BuildRequest);
    AppendMany(r, s1, k + 1);
    var s2 := s1.(log := s1.log + seq(k + 1, _ => Some(s1.clock)));
    var s3 := Do(r, s2, OpenOk);
    FirstIsEarlier(r, s);
    assert s3.phase.pos == n + 1 && s3.log[n] == Some(s.clock) && n !in s.handed && s.first.value <= n;
    assert s3.log[n + 1..] == seq(k, _ => Some(s.clock));
    TailPassesOver(r, s3, n);
    GapAfter(r, s2, OpenOk);
    GapLater(r, s1, s2);
  }

  /** A stream that starts right after a missing line, where all lines are from now on. */
  lemma TailPassesOver(r: Registration, s: State, n: nat)
    requires 0 <= s.clock <= r.tt.max && InOrder(s.log, s.clock)
    requires s.phase.Streaming? && s.phase.pos == n + 1 <= |s.log|
    requires s.phase.since.Some? ==> s.phase.since.value <= s.clock
    requires Dated(s.log, n) && n !in s.handed && s.first.Some? && s.first.value <= n
    requires s.log[n + 1..] == seq(|s.log| - n - 1, _ => Some(s.clock))
    ensures CanGap(r, s)
  {
    LastStampIsLast(s.log, s.clock);
    AppendInOrder(s.log, s.clock, s.clock);
    var s1 := Do(r, s, Append(Some(s.clock)));
    assert s1.log[n + 1] == Some(s.clock) by {
      if n + 1 < |s.log| { assert s.log[n + 1..][0] == s.log[n + 1]; }
    }
    var s2 := Do(r, s1, Deliver(n + 1));
    assert !NoGap(s2) by {
      assert Dated(s2.log, n) && n !in s2.handed && s2.first.value <= n <= n + 1 && n + 1 in s2.handed;
    }
    Here(r, s2);
    GapAfter(r, s1, Deliver(n + 1));
    GapAfter(r, s, Append(Some(s.clock)));
  }

  lemma FirstIsEarlier(r: Registration, s: State)
    requires Inv(r, s) && s.first.Some? && r.key !in s.store
    ensures var since := ServerSince(r.base, s.clock);
            since.Some? ==> since.value <= s.clock
  {
    assert Dated(s.log, s.first.value) && !Before(s.log, s.first.value, r.base.sinceTime);
  }

  /** The clock moves on until the window has passed a missing line. */
  lemma BlindWindowGaps(r: Registration, s: State)
    requires Inv(r, s) && Enabled(r, s, BuildRequest) && Blind(r, s, BuildRequest) && r.base.tail.None?
    ensures CanGap(r, Do(r, s, BuildRequest))
  {
    var s1 := Do(r, s, BuildRequest);
    var s2 := Do(r, s1, Tick(r.tt.max));
    var s3 := Do(r, s2, OpenOk);
    forall k: nat | Anchor(s3, k) ensures Stamp(s3.log, k) < s3.phase.since.value { assert Anchor(s, k); }
    PassedOver(r, s3);
    GapAfter(r, s2, OpenOk);
    GapAfter(r, s1, Tick(r.tt.max));
  }

  /** A blind reopen is reached, with any tail and with any window that is not longer than time itself: the processor
      does not come round before the sixteenth try. */
  lemma BlindReopenHappens(r: Registration)
    requires r.tt.Lawful() && Narrow(r)
    ensures exists t :: CanReach(r, Fresh([], 0), t) && Blind(r, t, BuildRequest) && Enabled(r, t, BuildRequest)
              && CanGap(r, Do(r, t, BuildRequest))
  {
    var s := Fresh([], 0);
    var s1 := Do(r, s, BuildRequest);
    var s2 := Do(r, s1, OpenOk);
    AppendInOrder(s2.log, 0, 0);
    var s3 := Do(r, s2, Append(Some(0)));
    OneLineThenBlind(r, s3);
    var t :| CanReach(r, s3, t) && Blind(r, t, BuildRequest) && Enabled(r, t, BuildRequest);
    StepFirst(r, s2, Append(Some(0)), t);
    StepFirst(r, s1, OpenOk, t);
    StepFirst(r, s, BuildRequest, t);
    assert Start(r, s) && NoStaleCursor(r, s);
    ReachedInv(r, s, t);
    ReopenIsSafeUnlessBlind(r, t);
  }

  /** The first request has a tail or a window, and no absolute start. */
  predicate Narrow(r: Registration) {
    r.base.sinceTime == None
    && (r.base.tail.Some? || (r.base.sinceSeconds.Some? && r.base.sinceSeconds.value * SECOND < r.tt.max))
  }

  lemma OneLineThenBlind(r: Registration, s: State)
    requires Narrow(r) && s.log == [Some(0)] && s.clock == 0 && s.handed == {} && s.first == None
    requires s.phase.Streaming? && s.phase.pos == 0 && (s.phase.since.Some? ==> s.phase.since.value <= 0)
    requires r.key !in s.store
    ensures exists t :: CanReach(r, s, t) && Blind(r, t, BuildRequest) && Enabled(r, t, BuildRequest)
  {
    var s1 := Do(r, s, Deliver(0));
    var s2 := Do(r, s1, StreamEnds);
    var t := s2.(phase := Requesting(true, None, 0));
    FlushEnds(r, s2);
    StepFirst(r, s1, StreamEnds, t);
    StepFirst(r, s, Deliver(0), t);
    assert 0 in t.handed && forall k: nat :: Anchor(t, k) ==> k == 0;
  }

  lemma ReachedInv(r: Registration, s: State, t: State)
    requires Start(r, s) && NoStaleCursor(r, s) && CanReach(r, s, t)
    ensures Inv(r, t) && FirstRequestOnce(t)
  {
    var actions :| IsRun(r, s, actions) && Careful(r, s, actions) && After(r, s, actions) == t;
    StartInv(r, s);
    RunKeeps(r, s, actions);
  }

  // ---- Drifting stamps ----

  /** Handing over a line is safe in every continuation exactly when its stamp does not drift, as long as the cursor can
      still be written. */
  lemma LineIsSafeUnlessItDrifts(r: Registration, s: State, i: nat)
    requires Inv(r, s) && FirstRequestOnce(s) && Enabled(r, s, Deliver(i))
    requires s.first.Some? && StampGiven(s, i) - OVERLAP <= r.tt.max
    ensures (forall t :: CanReach(r, Do(r, s, Deliver(i)), t) ==> NoGap(t)) <==> !Drifts(r, s, Deliver(i))
  {
    var s1, v := Do(r, s, Deliver(i)), StampGiven(s, i);
    if !Drifts(r, s, Deliver(i)) {
      StepKeeps(r, s, Deliver(i));
      NoGapEver(r, s1);
    } else {
      DeliverKeepsOrder(r, s, i);
      DeliverKeepsResolver(r, s, i);
      assert CursorUpdate(r.key, v) in s1.queue;
      CursorGaps(r, s1, v);
    }
  }

  function UndatedRun(n: nat): seq<Option<int>> {
    [Some(0)] + seq(n, _ => None)
  }

  const LONG_RUN: nat := MAX_UNDATED_RUN + 1

  lemma UndatedStart(r: Registration, s: State)
    requires r.tt.Lawful() && s == Fresh(UndatedRun(LONG_RUN), 0)
    ensures Start(r, s) && NoStaleCursor(r, s)
  {
  }

  lemma DeliverDated(r: Registration, s: State)
    requires r.tt.Lawful() && AnswersInFull(r.base) && r.base.sinceTime == None && s == Fresh(UndatedRun(LONG_RUN), 0)
    ensures exists t :: CanReach(r, s, t) && t.log == s.log && t.first == Some(0) && t.handed == {0}
              && t.phase == Streaming(None, 1, Some(0), Some(0), 0)
  {
    var s1 := Do(r, s, BuildRequest);
    var s2 := Do(r, s1, OpenOk);
    var s3 := Do(r, s2, Deliver(0));
    Here(r, s3);
    StepFirst(r, s2, Deliver(0), s3);
    StepFirst(r, s1, OpenOk, s3);
    StepFirst(r, s, BuildRequest, s3);
  }

  lemma {:induction false} DeliverUndated(r: Registration, s: State, n: nat)
    requires r.tt.Lawful() && AnswersInFull(r.base) && r.base.sinceTime == None
    requires s == Fresh(UndatedRun(LONG_RUN), 0) && n <= MAX_UNDATED_RUN
    ensures exists t :: CanReach(r, s, t) && t.log == s.log && t.first == Some(0) && t.handed == {0}
              && t.phase == Streaming(None, n + 1, Some(n * MICROSECOND), Some(n * MICROSECOND), n)
    decreases n
  {
    if n == 0 {
      DeliverDated(r, s);
    } else {
      DeliverUndated(r, s, n - 1);
      var t: State :| CanReach(r, s, t) && t.log == s.log && t.first == Some(0) && t.handed == {0}
        && t.phase == Streaming(None, n, Some((n - 1) * MICROSECOND), Some((n - 1) * MICROSECOND), n - 1);
      assert t.log[n] == None;
      UndatedStart(r, s);
      ReachedInv(r, s, t);
      DriftTakesAMillion(r, t, n);
      StepLast(r, s, t, Deliver(n));
    }
  }

  /** The line after a million undated ones drifts. */
  lemma DriftHappens(r: Registration)
    requires r.tt.Lawful() && AnswersInFull(r.base) && r.base.sinceTime == None && MICROSECOND <= r.tt.max
    ensures exists t :: CanReach(r, Fresh(UndatedRun(LONG_RUN), 0), t)
              && Enabled(r, t, Deliver(LONG_RUN)) && Drifts(r, t, Deliver(LONG_RUN))
              && CanGap(r, Do(r, t, Deliver(LONG_RUN)))
  {
    var s, i := Fresh(UndatedRun(LONG_RUN), 0), LONG_RUN;
    DeliverUndated(r, s, MAX_UNDATED_RUN);
    var t :| CanReach(r, s, t) && t.log == s.log && t.first == Some(0) && t.handed == {0}
      && t.phase == Streaming(None, i, Some(MAX_UNDATED_RUN * MICROSECOND), Some(MAX_UNDATED_RUN * MICROSECOND),
                              MAX_UNDATED_RUN);
    assert t.log[i] == None;
    UndatedStart(r, s);
    ReachedInv(r, s, t);
    assert Drifts(r, t, Deliver(i)) by {
      forall k: nat | Anchor(Delivered(r, t, i), k) ensures k == 0 { assert t.log[k].Some?; }
    }
    LineIsSafeUnlessItDrifts(r, t, i);
  }

  // ---- Replay ----

  /** The request built after the flush was confirmed for the stream that ended at `target`, when the processor
      applies `n` more updates before the store is read again. */
  ghost function RequestAfterConfirm(r: Registration, s: State, n: nat): PodLogRequest
    requires n <= |s.queue|
  {
    PodLogRequestForReopen(r.tt, r.base, StoredCursor(ApplyUpdates(s.store, s.queue[..n]), r.key), true)
  }

  /** In every reachable state: a confirmed reopen asks for everything from one second before the stamp of some line
      already handed over, without tail or relative window; and it starts no earlier than one second before the
      ended stream's last line, in every schedule, exactly when no queued update of the key is older than that. */
  lemma ReplayIsBounded(r: Registration, s: State, actions: seq<Action>, target: int)
    requires Start(r, s) && NoStaleCursor(r, s)
    requires IsRun(r, s, actions) && Careful(r, s, actions)
    requires var t := After(r, s, actions);
             t.phase.Requesting? && t.phase.target == Some(target) && AtLeast(t.store, r.key, target)
    ensures var t := After(r, s, actions);
            && (forall n: nat :: n <= |t.queue| ==>
                  && AnswersInFull(RequestAfterConfirm(r, t, n))
                  && RequestAfterConfirm(r, t, n).sinceTime.Some?
                  && RequestAfterConfirm(r, t, n).sinceTime.value + OVERLAP in t.sent)
            && ((forall n: nat :: n <= |t.queue| ==>
                   target - OVERLAP <= RequestAfterConfirm(r, t, n).sinceTime.value)
                <==> (forall u :: u in t.queue && u.key == r.key ==> target <= u.timestamp))
  {
    StartInv(r, s);
    RunKeeps(r, s, actions);
    var t := After(r, s, actions);
    forall n: nat | n <= |t.queue|
      ensures AnswersInFull(RequestAfterConfirm(r, t, n))
      ensures r.key in ApplyUpdates(t.store, t.queue[..n])
      ensures RequestAfterConfirm(r, t, n).sinceTime
              == Some(ApplyUpdates(t.store, t.queue[..n])[r.key] - OVERLAP)
      ensures ApplyUpdates(t.store, t.queue[..n])[r.key] in t.sent
    {
      StoreAfterIsCursor(r, t, t.store, t.queue[..n]);
      var v := ApplyUpdates(t.store, t.queue[..n])[r.key];
      CursorRequestResumesOneSecondBack(r.tt, r.base, v);
    }
    SecondReadKeepsTarget(t.store, t.queue, r.key, target);
    assert forall n: nat :: n <= |t.queue| ==>
      (target - OVERLAP <= RequestAfterConfirm(r, t, n).sinceTime.value
       <==> AtLeast(ApplyUpdates(t.store, t.queue[..n]), r.key, target)) by {
      forall n: nat | n <= |t.queue| ensures r.key in ApplyUpdates(t.store, t.queue[..n]) {
        StoreAfterIsCursor(r, t, t.store, t.queue[..n]);
      }
    }
  }

  lemma {:induction false} StoreAfterIsCursor(r: Registration, s: State, store: Store, updates: seq<CursorUpdate>)
    requires r.key in store && Cursor(r, s, store[r.key])
    requires forall u :: u in updates ==> u in s.queue
    ensures r.key in ApplyUpdates(store, updates) && Cursor(r, s, ApplyUpdates(store, updates)[r.key])
    decreases |updates|
  {
    if updates != [] {
      assert updates[0] in s.queue;
      assert updates[0].key == r.key ==> updates[0] == CursorUpdate(r.key, updates[0].timestamp);
      StoreAfterIsCursor(r, s, store[updates[0].key := updates[0].timestamp], updates[1..]);
    }
  }

  /** The flush is about to be confirmed for `target`, and one more update makes the request start before `earlier`. */
  ghost predicate SteppingBack(r: Registration, s: State, earlier: int, target: int) {
    && s.phase.Requesting? && s.phase.target == Some(target) && AtLeast(s.store, r.key, target)
    && |s.queue| > 0 && RequestAfterConfirm(r, s, 1).sinceTime == Some(earlier - OVERLAP)
  }

  /** This happens wherever three lines are written within the overlap: all are handed over, the stream breaks and is
      opened again, two lines are replayed, and it breaks again. The cursor of the first stream confirms the end of the
      second, whose own updates are still queued. */
  lemma ConfirmedCursorStepsBack(r: Registration, a: int, b: int, c: int)
    requires r.tt.Lawful() && AnswersInFull(r.base) && r.base.sinceTime == None
    requires 0 <= a <= b <= c <= r.tt.max && c - OVERLAP <= a
    ensures exists t :: CanReach(r, Fresh([Some(a), Some(b), Some(c)], c), t) && SteppingBack(r, t, a, b)
  {
    var s := Fresh([Some(a), Some(b), Some(c)], c);
    var s1 := Do(r, s, BuildRequest);
    var s2 := Do(r, s1, OpenOk);
    ThreeLinesStepBack(r, s2, a, b, c);
    var t :| CanReach(r, s2, t) && SteppingBack(r, t, a, b);
    StepFirst(r, s1, OpenOk, t);
    StepFirst(r, s, BuildRequest, t);
  }

  lemma ThreeLinesStepBack(r: Registration, s: State, a: int, b: int, c: int)
    requires r.tt.Lawful() && 0 <= a <= b <= c <= r.tt.max && c - OVERLAP <= a
    requires s.log == [Some(a), Some(b), Some(c)] && s.phase == Streaming(None, 0, None, None, 0) && s.queue == []
    ensures exists t :: CanReach(r, s, t) && SteppingBack(r, t, a, b)
  {
    var s1 := Do(r, s, Deliver(0));
    var s2 := Do(r, s1, Deliver(1));
    var s3 := Do(r, s2, Deliver(2));
    var s4 := Do(r, s3, StreamEnds);
    assert s4.queue == [CursorUpdate(r.key, a), CursorUpdate(r.key, b), CursorUpdate(r.key, c)];
    ReopenStepsBack(r, s4, a, b, c);
    var t :| CanReach(r, s4, t) && SteppingBack(r, t, a, b);
    StepFirst(r, s3, StreamEnds, t);
    StepFirst(r, s2, Deliver(2), t);
    StepFirst(r, s1, Deliver(1), t);
    StepFirst(r, s, Deliver(0), t);
  }

  lemma ReopenStepsBack(r: Registration, s: State, a: int, b: int, c: int)
    requires r.tt.Lawful() && 0 <= a <= b <= c <= r.tt.max && c - OVERLAP <= a
    requires s.log == [Some(a), Some(b), Some(c)] && s.phase == Requesting(true, Some(c), 0)
    requires s.queue == [CursorUpdate(r.key, a), CursorUpdate(r.key, b), CursorUpdate(r.key, c)]
    ensures exists t :: CanReach(r, s, t) && SteppingBack(r, t, a, b)
  {
    ApplyTo(r, s, 2);
    var store: Store :| r.key in store && store[r.key] == c
      && CanReach(r, s, s.(store := store, queue := s.queue[3..]));
    var s1 := s.(store := store, queue := s.queue[3..]);
    var s2 := Do(r, s1, FlushCheck);
    RequestStepsBack(r, s2, a, b, c);
    var t :| CanReach(r, s2, t) && SteppingBack(r, t, a, b);
    StepFirst(r, s1, FlushCheck, t);
    Onwards(r, s, s1, t);
  }

  lemma RequestStepsBack(r: Registration, s: State, a: int, b: int, c: int)
    requires r.tt.Lawful() && 0 <= a <= b <= c <= r.tt.max && c - OVERLAP <= a
    requires s.log == [Some(a), Some(b), Some(c)] && s.phase == Requesting(true, None, 0)
    requires s.queue == [] && r.key in s.store && s.store[r.key] == c
    ensures exists t :: CanReach(r, s, t) && SteppingBack(r, t, a, b)
  {
    var s1 := Do(r, s, BuildRequest);
    CursorRequestResumesOneSecondBack(r.tt, r.base, c);
    var s2 := Do(r, s1, OpenOk);
    TwoLinesStepBack(r, s2, a, b, c);
    var t :| CanReach(r, s2, t) && SteppingBack(r, t, a, b);
    StepFirst(r, s1, OpenOk, t);
    StepFirst(r, s, BuildRequest, t);
  }

  lemma TwoLinesStepBack(r: Registration, s: State, a: int, b: int, c: int)
    requires r.tt.Lawful() && 0 <= a <= b <= c <= r.tt.max && c - OVERLAP <= a
    requires s.log == [Some(a), Some(b), Some(c)] && s.phase == Streaming(Some(c - OVERLAP), 0, None, None, 0)
    requires s.queue == [] && r.key in s.store && s.store[r.key] == c
    ensures exists t :: CanReach(r, s, t) && SteppingBack(r, t, a, b)
  {
    var s1 := Do(r, s, Deliver(0));
    var s2 := Do(r, s1, Deliver(1));
    var t := Do(r, s2, StreamEnds);
    Here(r, t);
    StepFirst(r, s2, StreamEnds, t);
    StepFirst(r, s1, Deliver(1), t);
    StepFirst(r, s, Deliver(0), t);
    assert t.queue == [CursorUpdate(r.key, a), CursorUpdate(r.key, b)];
    QueuedStepsBack(r, t, a);
  }

  lemma QueuedStepsBack(r: Registration, t: State, a: int)
    requires r.tt.Lawful() && 0 <= a <= r.tt.max && t.queue != [] && t.queue[0] == CursorUpdate(r.key, a)
    ensures RequestAfterConfirm(r, t, 1).sinceTime == Some(a - OVERLAP)
  {
    assert t.queue[..1] == [CursorUpdate(r.key, a)];
    LastUpdateWins(t.store, t.queue[..1], r.key, 0);
    CursorRequestResumesOneSecondBack(r.tt, r.base, a);
  }

  // ---- Lines before the first one ----

  /** The handed over lines are one run of the log, replayed lines before the first one included. */
  ghost predicate Contiguous(s: State) {
    forall i, j: nat, m :: i in s.handed && m in s.handed && i <= j <= m && Dated(s.log, j) ==> j in s.handed
  }

  ghost predicate HasHole(t: State) {
    !Contiguous(t) && !t.overtaken
  }

  /** A request the server answers with all dated lines at any time, or with none. */
  predicate AllOrNothing(request: PodLogRequest, max: int) {
    var since := ServerSince(request, max);
    || (request.tail.None? && (since.None? || since.value <= 0))
    || (request.sinceTime.Some? && max < request.sinceTime.value)
  }

  /** No cursor was left behind, or only of the first second after the epoch. */
  ghost predicate NoCursorLeft(r: Registration, s: State) {
    forall v :: Cursor(r, s, v) ==> v <= OVERLAP
  }

  lemma NoCursorIsStale(r: Registration, s: State)
    requires Start(r, s) && NoCursorLeft(r, s)
    ensures NoStaleCursor(r, s)
  {
    FloorIsLate(s.log, ServerSince(r.base, s.clock), TailStart(r.base, |s.log|), s.clock);
    forall a, b | Follows(r, s, a, b) ensures b <= Floor(s.log, Some(a - OVERLAP), 0) + OVERLAP {
      assert Cursor(r, s, b);
      FloorIsLate(s.log, Some(a - OVERLAP), 0, s.clock);
    }
  }

  ghost predicate FirstIsOldest(r: Registration, s: State) {
    && (s.first.Some? && !s.overtaken ==> forall j: nat :: j < s.first.value ==> !Dated(s.log, j))
    && (s.first.None? && !s.overtaken ==>
          && NoCursorLeft(r, s)
          && (s.phase.Opening? ==> AllOrNothing(s.phase.request, r.tt.max))
          && (s.phase.Streaming? ==>
                || (s.phase.since.Some? && r.tt.max < s.phase.since.value)
                || ((s.phase.since.Some? ==> s.phase.since.value <= 0)
                    && forall j: nat :: j < s.phase.pos ==> !Dated(s.log, j))))
  }

  lemma StepKeepsFirstOldest(r: Registration, s: State, a: Action)
    requires Inv(r, s) && Enabled(r, s, a) && !Harmful(r, s, a) && AllOrNothing(r.base, r.tt.max)
    requires FirstIsOldest(r, s)
    ensures FirstIsOldest(r, Do(r, s, a))
  {
    match a
    case BuildRequest => BuildKeepsFirstOldest(r, s);
    case Append(stamp) => AppendKeepsFirstOldest(r, s, stamp);
    case Deliver(i) => DeliverKeepsFirstOldest(r, s, i);
    case OtherStream(_) => QueueStepCursors(r, s, a);
    case LateCursor(v) => LateKeepsFirstOldest(r, s, v);
    case ApplyUpdate => QueueStepCursors(r, s, a);
    case _ => SameCursors(r, s, Do(r, s, a));
  }

  lemma AppendKeepsFirstOldest(r: Registration, s: State, stamp: Option<int>)
    requires Inv(r, s) && Enabled(r, s, Append(stamp)) && FirstIsOldest(r, s)
    ensures FirstIsOldest(r, Do(r, s, Append(stamp)))
  {
    forall j: nat | j < |s.log| ensures Dated(s.log + [stamp], j) == Dated(s.log, j) {}
    assert s.first.Some? ==> Dated(s.log, s.first.value);
    SameCursors(r, s, Do(r, s, Append(stamp)));
  }

  lemma LateKeepsFirstOldest(r: Registration, s: State, v: int)
    requires Enabled(r, s, LateCursor(v)) && FirstIsOldest(r, s)
    ensures FirstIsOldest(r, Do(r, s, LateCursor(v)))
  {
    QueuedCursors(r, s, Do(r, s, LateCursor(v)), v);
  }

  lemma DeliverKeepsFirstOldest(r: Registration, s: State, i: nat)
    requires Inv(r, s) && Enabled(r, s, Deliver(i)) && !Drifts(r, s, Deliver(i)) && FirstIsOldest(r, s)
    ensures FirstIsOldest(r, Do(r, s, Deliver(i)))
  {
    QueuedCursors(r, s, Do(r, s, Deliver(i)), StampGiven(s, i));
  }

  lemma SameCursors(r: Registration, s: State, t: State)
    requires t.store == s.store && t.queue == s.queue
    ensures NoCursorLeft(r, s) ==> NoCursorLeft(r, t)
  {
    assert forall v :: Cursor(r, t, v) ==> Cursor(r, s, v);
  }

  lemma BuildKeepsFirstOldest(r: Registration, s: State)
    requires Inv(r, s) && Enabled(r, s, BuildRequest) && AllOrNothing(r.base, r.tt.max) && FirstIsOldest(r, s)
    ensures FirstIsOldest(r, Do(r, s, BuildRequest))
  {
    SameCursors(r, s, Do(r, s, BuildRequest));
    if s.phase.reopen && r.key in s.store && s.first.None? {
      var v := s.store[r.key];
      assert Cursor(r, s, v);
      CursorRequestResumesOneSecondBack(r.tt, r.base, v);
    }
  }

  lemma {:induction false} RunKeepsFirstOldest(r: Registration, s: State, actions: seq<Action>)
    requires Inv(r, s) && FirstRequestOnce(s) && AllOrNothing(r.base, r.tt.max) && FirstIsOldest(r, s)
    requires IsRun(r, s, actions) && Careful(r, s, actions)
    ensures FirstIsOldest(r, After(r, s, actions))
    decreases |actions|
  {
    if actions != [] {
      StepKeeps(r, s, actions[0]);
      StepKeepsFirstOldest(r, s, actions[0]);
      RunKeepsFirstOldest(r, Do(r, s, actions[0]), actions[1..]);
    }
  }

  /** The overlap may replay lines from before the first one and stop halfway. So the handed over lines are one run of
      the log in every careful run of a registration to which no cursor was left, and none came late before its first
      line, exactly when the first request asks for all lines, or for none. */
  lemma ContiguousUnlessPartial(r: Registration)
    requires r.tt.Lawful()
    ensures (forall s, t :: Start(r, s) && NoCursorLeft(r, s) && CanReach(r, s, t) && !t.overtaken ==> Contiguous(t))
            <==> AllOrNothing(r.base, r.tt.max)
  {
    if AllOrNothing(r.base, r.tt.max) {
      forall s, t | Start(r, s) && NoCursorLeft(r, s) && CanReach(r, s, t) && !t.overtaken ensures Contiguous(t) {
        var actions :| IsRun(r, s, actions) && Careful(r, s, actions) && After(r, s, actions) == t;
        NoCursorIsStale(r, s);
        StartInv(r, s);
        RunKeeps(r, s, actions);
        RunKeepsFirstOldest(r, s, actions);
      }
    } else if r.base.tail.Some? {
      TailLeavesHole(r);
    } else {
      SinceLeavesHole(r);
    }
  }

  lemma TailLeavesHole(r: Registration)
    requires r.tt.Lawful() && !AllOrNothing(r.base, r.tt.max) && r.base.tail.Some?
    ensures exists s, t :: Start(r, s) && NoCursorLeft(r, s) && CanReach(r, s, t) && HasHole(t)
  {
    // All lines have one stamp, and there are two more than the tail is long.
    var k, x := r.base.tail.value, if r.base.sinceTime.Some? then Max(0, r.base.sinceTime.value) else 0;
    var s := Fresh(seq(k + 2, _ => Some(x)), x);
    assert Start(r, s) && NoCursorLeft(r, s);
    HoleFromStart(r, s, x);
    var t :| CanReach(r, s, t) && HasHole(t);
  }

  lemma HoleFromStart(r: Registration, s: State, x: int)
    requires r.tt.Lawful() && 0 <= x <= r.tt.max && (r.base.sinceTime.Some? ==> r.base.sinceTime.value <= x)
    requires r.base.tail.Some? && s == Fresh(seq(r.base.tail.value + 2, _ => Some(x)), x)
    ensures exists t :: CanReach(r, s, t) && HasHole(t)
  {
    var s1 := Do(r, s, BuildRequest);
    var s2 := Do(r, s1, OpenOk);
    assert s2.phase.pos == 2 && (s2.phase.since.Some? ==> s2.phase.since.value <= x);
    HoleAfterTail(r, s2, x);
    var t :| CanReach(r, s2, t) && HasHole(t);
    StepFirst(r, s1, OpenOk, t);
    StepFirst(r, s, BuildRequest, t);
  }

  lemma HoleAfterTail(r: Registration, s: State, x: int)
    requires !s.overtaken && r.tt.Lawful() && 0 <= x == s.clock <= r.tt.max
    requires s.queue == [] && s.handed == {} && s.first == None
    requires s.phase.Streaming? && s.phase.pos == 2 <= |s.log| && s.phase.resolver == None
    requires s.phase.since.Some? ==> s.phase.since.value <= x
    requires forall i :: 0 <= i < |s.log| ==> s.log[i] == Some(x)
    ensures exists t :: CanReach(r, s, t) && HasHole(t)
  {
    var s1 := Do(r, s, Append(Some(x)));
    assert s1.log[2] == Some(x);
    var s2 := Do(r, s1, Deliver(2));
    HoleAfterReplay(r, s2, x);
    var t :| CanReach(r, s2, t) && HasHole(t);
    StepFirst(r, s1, Deliver(2), t);
    StepFirst(r, s, Append(Some(x)), t);
  }

  lemma SinceLeavesHole(r: Registration)
    requires r.tt.Lawful() && !AllOrNothing(r.base, r.tt.max) && r.base.tail.None?
    ensures exists s, t :: Start(r, s) && NoCursorLeft(r, s) && CanReach(r, s, t) && HasHole(t)
  {
    // Two lines lie just before the start.
    var last := ServerSince(r.base, r.tt.max).value;
    var s := Fresh([Some(last - 1), Some(last - 1), Some(last)], r.tt.max);
    assert Start(r, s) && NoCursorLeft(r, s);
    HoleWithoutTail(r, s, last);
    var t :| CanReach(r, s, t) && HasHole(t);
  }

  lemma HoleWithoutTail(r: Registration, s: State, last: int)
    requires r.tt.Lawful() && r.base.tail.None? && ServerSince(r.base, r.tt.max) == Some(last)
    requires 0 <= last <= r.tt.max && s == Fresh([Some(last - 1), Some(last - 1), Some(last)], r.tt.max)
    ensures exists t :: CanReach(r, s, t) && HasHole(t)
  {
    var s1 := Do(r, s, BuildRequest);
    var s2 := Do(r, s1, OpenOk);
    HoleAfterSince(r, s2, last);
    var t :| CanReach(r, s2, t) && HasHole(t);
    StepFirst(r, s1, OpenOk, t);
    StepFirst(r, s, BuildRequest, t);
  }

  lemma HoleAfterSince(r: Registration, s: State, last: int)
    requires !s.overtaken && r.tt.Lawful() && 0 <= last <= r.tt.max
    requires s.queue == [] && s.handed == {} && s.first == None
    requires s.phase == Streaming(Some(last), 0, None, None, 0)
    requires s.log == [Some(last - 1), Some(last - 1), Some(last)]
    ensures exists t :: CanReach(r, s, t) && HasHole(t)
  {
    var s1 := Do(r, s, Deliver(2));
    HoleAfterReplay(r, s1, last);
    var t :| CanReach(r, s1, t) && HasHole(t);
    StepFirst(r, s, Deliver(2), t);
  }

  lemma HoleAfterReplay(r: Registration, s: State, last: int)
    requires !s.overtaken && r.tt.Lawful() && 0 <= last <= r.tt.max
    requires s.phase.Streaming? && s.phase.lastLineTs == Some(last)
    requires s.queue == [CursorUpdate(r.key, last)] && s.handed == {2} && Dated(s.log, 2)
    requires Dated(s.log, 0) && Dated(s.log, 1) && last - OVERLAP <= Stamp(s.log, 0)
    ensures exists t :: CanReach(r, s, t) && HasHole(t)
  {
    var s1 := Do(r, s, StreamEnds);
    var s2 := Do(r, s1, ApplyUpdate);
    var s3 := Do(r, s2, FlushCheck);
    HoleAfterReopen(r, s3, last);
    var t :| CanReach(r, s3, t) && HasHole(t);
    StepFirst(r, s2, FlushCheck, t);
    StepFirst(r, s1, ApplyUpdate, t);
    StepFirst(r, s, StreamEnds, t);
  }

  lemma HoleAfterReopen(r: Registration, s: State, last: int)
    requires !s.overtaken && r.tt.Lawful() && s.phase == Requesting(true, None, 0) && 0 <= last <= r.tt.max
    requires r.key in s.store && s.store[r.key] == last && s.handed == {2} && Dated(s.log, 2)
    requires Dated(s.log, 0) && Dated(s.log, 1) && last - OVERLAP <= Stamp(s.log, 0)
    ensures exists t :: CanReach(r, s, t) && HasHole(t)
  {
    var s1 := Do(r, s, BuildRequest);
    CursorRequestResumesOneSecondBack(r.tt, r.base, last);
    var s2 := Do(r, s1, OpenOk);
    var t := Do(r, s2, Deliver(0));
    assert !Contiguous(t) by {
      assert 0 in t.handed && 2 in t.handed && 1 !in t.handed && Dated(t.log, 1);
    }
    Here(r, t);
    StepFirst(r, s2, Deliver(0), t);
    StepFirst(r, s1, OpenOk, t);
    StepFirst(r, s, BuildRequest, t);
  }
}
