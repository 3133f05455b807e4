/**
 Cursor reconnect of one registered stream, over every interleaving of its polls, the processor task, the flush
 retries, other streams' updates and its reopens. Lines are the indices of the server's log, which may grow at
 any moment; `log[i]` is the line's stamp, if it carries one.
 */
module Seam {
  import opened Wrappers
  import opened Source
  import opened CursorRequest
  import opened CursorService

  const SECOND: int := 1_000_000_000

  datatype Registration = Registration(key: SourceKey, base: PodLogRequest, tt: TimeText)

  datatype Phase =
    | Requesting(reopen: bool, target: Option<int>, tries: nat)
    | Opening(again: bool, request: PodLogRequest)
    | Streaming(since: Option<int>, pos: nat, resolver: Option<int>, lastLineTs: Option<int>, undated: nat)
    | Stopped

  datatype State = State(
    log: seq<Option<int>>,
    clock: int,              // the server's
    phase: Phase,
    queue: seq<CursorUpdate>,
    store: Store,
    handed: set<nat>,        // dated lines handed to the mux in this registration
    first: Option<nat>,      // the first of them
    sent: set<int>,          // stamps of all lines of this key handed over, by any stream of any registration
    overtaken: bool)         // history: a late cursor came before the first line

  datatype Action =
    | Append(stamp: Option<int>)              // the container writes a line
    | Tick(now: int)
    | OtherStream(update: CursorUpdate)       // a stream of another key reports a cursor
    | LateCursor(at: int)                     // a stream that an earlier registration of the key opened reports one
    | ApplyUpdate                             // the processor takes one update
    | FlushCheck                              // one try of the flush wait
    | BuildRequest                            // the store is read and the request built
    | OpenOk
    | OpenFail
    | Deliver(line: nat)                      // a poll hands over a line
    | StreamEnds                              // end of file, or the wrapper is dropped
    | Cancel

  // ---- The log and its server ----

  predicate Dated(log: seq<Option<int>>, i: nat) {
    i < |log| && log[i].Some?
  }

  function Stamp(log: seq<Option<int>>, i: nat): int
    requires Dated(log, i)
  {
    log[i].value
  }

  /** The server's log is in time order, and nothing in it is later than `clock`. */
  ghost predicate InOrder(log: seq<Option<int>>, clock: int) {
    && (forall i: nat :: Dated(log, i) ==> 0 <= Stamp(log, i) <= clock)
    && (forall i: nat, j: nat :: i < j && Dated(log, i) && Dated(log, j) ==> Stamp(log, i) <= Stamp(log, j))
  }

  predicate Before(log: seq<Option<int>>, i: nat, since: Option<int>) {
    Dated(log, i) && since.Some? && Stamp(log, i) < since.value
  }

  /** From which instant on the server gives lines: a window is counted back from its clock. */
  function ServerSince(request: PodLogRequest, clock: int): Option<int> {
    var params := BuildLogParams(request);
    if params.sinceSeconds.Some? then Some(clock - params.sinceSeconds.value * SECOND) else params.sinceTime
  }

  /** From which line on: only the last ones for a tail. */
  function TailStart(request: PodLogRequest, lines: nat): nat {
    if request.tail.Some? && request.tail.value < lines then lines - request.tail.value else 0
  }

  /** Line `i` may be what an open stream at `pos` gives next: no dated line from `since` on is passed over.
      Nothing is promised of undated lines. */
  ghost predicate NextLine(log: seq<Option<int>>, since: Option<int>, pos: nat, i: nat) {
    && pos <= i < |log|
    && !Before(log, i, since)
    && forall j: nat :: pos <= j < i && Dated(log, j) ==> Before(log, j, since)
  }

  // ---- Steps ----

  ghost predicate Enabled(r: Registration, s: State, a: Action) {
    match a
    case Append(stamp) => InOrder(s.log + [stamp], s.clock)
    case Tick(now) => s.clock <= now <= r.tt.max
    case OtherStream(update) => update.key != r.key
    case LateCursor(v) => 0 <= v <= r.tt.max + OVERLAP
    case ApplyUpdate => s.queue != []
    case FlushCheck => s.phase.Requesting? && s.phase.reopen && s.phase.target.Some?
    case BuildRequest => s.phase.Requesting? && (s.phase.reopen ==> s.phase.target.None?)
    case OpenOk => s.phase.Opening?
    case OpenFail => s.phase.Opening?
    case Deliver(i) => s.phase.Streaming? && NextLine(s.log, s.phase.since, s.phase.pos, i)
    case StreamEnds => s.phase.Streaming?
    case Cancel => true
  }

  function StoredCursor(store: Store, key: SourceKey): Option<int> {
    if key in store then Some(store[key]) else None
  }

  /** The stamp the resolver gives to line `i`. */
  function StampGiven(s: State, i: nat): int
    requires s.phase.Streaming? && i < |s.log|
  {
    Resolved(s.phase.resolver, s.log[i])
  }

  function Delivered(r: Registration, s: State, i: nat): State
    requires s.phase.Streaming? && i < |s.log|
  {
    var stamp := StampGiven(s, i);
    var dated := s.log[i].Some?;
    s.(phase := Streaming(s.phase.since, i + 1, Some(stamp), Some(stamp), if dated then 0 else s.phase.undated + 1),
       queue := s.queue + [CursorUpdate(r.key, stamp)],
       handed := if dated then s.handed + {i} else s.handed,
       first := if dated && s.first.None? then Some(i) else s.first,
       sent := s.sent + {stamp})
  }

  ghost function Do(r: Registration, s: State, a: Action): State
    requires Enabled(r, s, a)
  {
    match a
    case Append(stamp) => s.(log := s.log + [stamp])
    case Tick(now) => s.(clock := now)
    case OtherStream(update) => s.(queue := s.queue + [update])
    case LateCursor(v) =>
      s.(queue := s.queue + [CursorUpdate(r.key, v)], sent := s.sent + {v},
         overtaken := s.overtaken || (s.first.None? && v > OVERLAP))
    case ApplyUpdate => s.(store := s.store[s.queue[0].key := s.queue[0].timestamp], queue := s.queue[1..])
    case FlushCheck =>
      if AtLeast(s.store, r.key, s.phase.target.value) || s.phase.tries + 1 == CURSOR_FLUSH_RETRIES
      then s.(phase := Requesting(true, None, 0))
      else s.(phase := s.phase.(tries := s.phase.tries + 1))
    case BuildRequest =>
      s.(phase := Opening(s.phase.reopen,
                          PodLogRequestForReopen(r.tt, r.base, StoredCursor(s.store, r.key), s.phase.reopen)))
    case OpenOk =>
      s.(phase := Streaming(ServerSince(s.phase.request, s.clock), TailStart(s.phase.request, |s.log|), None, None, 0))
    case OpenFail => if s.phase.again then s.(phase := Requesting(true, None, 0)) else s.(phase := Stopped)
    case Deliver(i) => Delivered(r, s, i)
    case StreamEnds => s.(phase := Requesting(true, s.phase.lastLineTs, 0))
    case Cancel => s.(phase := Stopped)
  }

  ghost predicate IsRun(r: Registration, s: State, actions: seq<Action>)
    decreases |actions|
  {
    actions == [] || (Enabled(r, s, actions[0]) && IsRun(r, Do(r, s, actions[0]), actions[1..]))
  }

  ghost function After(r: Registration, s: State, actions: seq<Action>): State
    requires IsRun(r, s, actions)
    decreases |actions|
  {
    if actions == [] then s else After(r, Do(r, s, actions[0]), actions[1..])
  }

  /** `v` is stored or queued as a cursor of the registered key. */
  ghost predicate Cursor(r: Registration, s: State, v: int) {
    (r.key in s.store && s.store[r.key] == v) || CursorUpdate(r.key, v) in s.queue
  }

  /** `b` will be stored after `a`, or after `a` which is stored. */
  ghost predicate Follows(r: Registration, s: State, a: int, b: int) {
    || (r.key in s.store && s.store[r.key] == a && CursorUpdate(r.key, b) in s.queue)
    || exists i, j :: 0 <= i < j < |s.queue|
                      && s.queue[i] == CursorUpdate(r.key, a) && s.queue[j] == CursorUpdate(r.key, b)
  }

  /** The registration begins: nothing handed over, first request pending. The log may hold lines, and cursors of an
      earlier registration of the same key may still be stored or queued. */
  ghost predicate Start(r: Registration, s: State) {
    && r.tt.Lawful()
    && 0 <= s.clock <= r.tt.max && InOrder(s.log, s.clock)
    && s.phase == Requesting(false, None, 0)
    && s.handed == {} && s.first == None
    && (forall v :: Cursor(r, s, v) ==> v in s.sent && 0 <= v <= r.tt.max)
  }

  // ---- What is claimed, and what can go wrong ----

  /** Nothing between the first dated line handed over and any later one is missing. */
  ghost predicate NoGap(s: State) {
    s.first.Some? ==>
      forall j: nat, m :: m in s.handed && s.first.value <= j <= m && Dated(s.log, j) ==> j in s.handed
  }

  /** No dated line before `i`, from the first one handed over on, is missing. */
  ghost predicate Anchor(s: State, i: nat) {
    s.first.Some? && Dated(s.log, i)
    && forall j: nat :: s.first.value <= j < i && Dated(s.log, j) ==> j in s.handed
  }

  /** `v` lies at most `slack` after such a line, or after the epoch. */
  ghost predicate Near(s: State, v: int, slack: int) {
    v <= slack || exists i: nat :: Anchor(s, i) && v <= Stamp(s.log, i) + slack
  }

  ghost predicate SinceAnchored(s: State, since: Option<int>) {
    since.Some? ==> Near(s, since.value, 0)
  }

  /** The reopen repeats the first request, because no cursor update has been applied although lines were handed over;
      and that request has a line limit, or a window that can move past a line that is missing. */
  ghost predicate Blind(r: Registration, s: State, a: Action) {
    && a.BuildRequest? && s.phase.Requesting? && s.phase.reopen
    && r.key !in s.store && s.handed != {}
    && (r.base.tail.Some? || (!AnswersInFull(r.base) && !SinceAnchored(s, ServerSince(r.base, r.tt.max))))
  }

  /** An undated line is given a stamp from which the overlap does not lead back to the lines handed over. */
  ghost predicate Drifts(r: Registration, s: State, a: Action) {
    && a.Deliver? && s.phase.Streaming? && a.line < |s.log| && s.log[a.line].None?
    && !Near(Delivered(r, s, a.line), StampGiven(s, a.line), OVERLAP)
  }

  // ---- Cursors left behind by an earlier registration ----

  /** The first dated line a stream at `pos` gives, or the length of the log. */
  function NextOffered(log: seq<Option<int>>, since: Option<int>, pos: nat): (i: nat)
    ensures i <= |log| && (pos <= |log| ==> pos <= i)
    ensures i < |log| ==> pos <= i && Dated(log, i) && !Before(log, i, since)
    ensures forall j: nat :: pos <= j < i && Dated(log, j) ==> Before(log, j, since)
    decreases |log| - pos
  {
    if pos >= |log| then |log|
    else if Dated(log, pos) && !Before(log, pos, since) then pos
    else NextOffered(log, since, pos + 1)
  }

  function LastStamp(log: seq<Option<int>>): int {
    if log == [] then 0
    else if log[|log| - 1].Some? then log[|log| - 1].value
    else LastStamp(log[..|log| - 1])
  }

  function Max(a: int, b: int): int { if a < b then b else a }

  /** The earliest stamp of a line that is still to be written and that a stream from `since` on gives. */
  function NextStamp(log: seq<Option<int>>, since: Option<int>): int {
    if since.Some? then Max(LastStamp(log), since.value) else LastStamp(log)
  }

  /** The earliest stamp the second dated line of such a stream can have. */
  function Floor(log: seq<Option<int>>, since: Option<int>, pos: nat): int {
    var second := NextOffered(log, since, NextOffered(log, since, pos) + 1);
    if second < |log| then Stamp(log, second) else NextStamp(log, since)
  }

  /** The same for a request that is answered now. */
  function RequestFloor(s: State, request: PodLogRequest): int {
    Floor(s.log, ServerSince(request, s.clock), TailStart(request, |s.log|))
  }

  /** No cursor left behind lies more than the overlap after the second line that the first request can bring, and none
      more than that after the second line that a reopen at an earlier one of them can bring. */
  ghost predicate NoStaleCursor(r: Registration, s: State) {
    && (forall v :: Cursor(r, s, v) ==> v <= RequestFloor(s, r.base) + OVERLAP)
    && (forall a, b :: Follows(r, s, a, b) ==> b <= Floor(s.log, Some(a - OVERLAP), 0) + OVERLAP)
  }

  // ---- Cursors that come late ----

  /** Before the first line: no stream that can bring it, now or by the base request, has its second line more than the
      overlap before `v`. */
  ghost predicate Waits(r: Registration, s: State, v: int) {
    && (r.key !in s.store || (s.phase.Requesting? && !s.phase.reopen) ==> v <= RequestFloor(s, r.base) + OVERLAP)
    && (s.phase.Opening? ==> v <= RequestFloor(s, s.phase.request) + OVERLAP)
    && (s.phase.Streaming? ==> v <= Floor(s.log, s.phase.since, s.phase.pos) + OVERLAP)
  }

  /** A cursor that is queued now cannot make a reopen pass over a line: the overlap leads back from it to a line up
      to which nothing is missing; or, before the first line, to the second line of every stream that can bring that
      one. */
  ghost predicate CursorIsSafe(r: Registration, s: State, v: int) {
    || s.phase.Stopped?
    || if s.first.Some? then Near(s, v, OVERLAP)
       else Waits(r, s, v) && forall a :: Cursor(r, s, a) ==> v <= Floor(s.log, Some(a - OVERLAP), 0) + OVERLAP
  }

  /** A stream of an earlier registration reports a cursor that is not. */
  ghost predicate Outruns(r: Registration, s: State, a: Action) {
    a.LateCursor? && !CursorIsSafe(r, s, a.at)
  }

  ghost predicate Harmful(r: Registration, s: State, a: Action) {
    Blind(r, s, a) || Drifts(r, s, a) || Outruns(r, s, a)
  }

  ghost predicate Careful(r: Registration, s: State, actions: seq<Action>)
    requires IsRun(r, s, actions)
    decreases |actions|
  {
    actions == [] || (!Harmful(r, s, actions[0]) && Careful(r, Do(r, s, actions[0]), actions[1..]))
  }

  // ---- About floors ----

  lemma {:induction false} LastStampIsLast(log: seq<Option<int>>, clock: int)
    requires InOrder(log, clock) && 0 <= clock
    ensures 0 <= LastStamp(log) <= clock
    ensures forall i: nat :: Dated(log, i) ==> Stamp(log, i) <= LastStamp(log)
    ensures LastStamp(log) > 0 ==> exists i: nat :: Dated(log, i) && Stamp(log, i) == LastStamp(log)
    decreases |log|
  {
    if log != [] {
      var n := |log| - 1;
      if log[n].Some? {
        assert Dated(log, n) && Stamp(log, n) == LastStamp(log);
      } else {
        var rest := log[..n];
        forall i: nat | Dated(log, i) ensures Dated(rest, i) && Stamp(rest, i) == Stamp(log, i) {}
        forall i: nat | Dated(rest, i) ensures Dated(log, i) && Stamp(rest, i) == Stamp(log, i) {}
        LastStampIsLast(rest, clock);
      }
    }
  }

  lemma LastDated(log: seq<Option<int>>, i: nat, clock: int)
    requires InOrder(log, clock) && 0 <= clock && Dated(log, i) && forall j: nat :: i < j ==> !Dated(log, j)
    ensures LastStamp(log) == Stamp(log, i)
  {
    LastStampIsLast(log, clock);
    if LastStamp(log) > 0 {
      var l: nat :| Dated(log, l) && Stamp(log, l) == LastStamp(log);
      assert l <= i;
    }
  }

  lemma FloorIsLate(log: seq<Option<int>>, since: Option<int>, pos: nat, clock: int)
    requires InOrder(log, clock) && 0 <= clock
    ensures 0 <= Floor(log, since, pos)
    ensures since.Some? ==> since.value <= Floor(log, since, pos)
  {
    LastStampIsLast(log, clock);
  }

  /** A request that is made later cannot bring an earlier second line. */
  lemma FloorLater(log: seq<Option<int>>, since: Option<int>, later: Option<int>, pos: nat, further: nat, clock: int)
    requires InOrder(log, clock) && 0 <= clock && pos <= further <= |log|
    requires if since.Some? then later.Some? && since.value <= later.value else later.None?
    ensures Floor(log, since, pos) <= Floor(log, later, further)
  {
    LastStampIsLast(log, clock);
    SecondLater(log, since, later, pos, further);
  }

  lemma SecondLater(log: seq<Option<int>>, since: Option<int>, later: Option<int>, pos: nat, further: nat)
    requires pos <= further <= |log|
    requires if since.Some? then later.Some? && since.value <= later.value else later.None?
    ensures NextOffered(log, since, NextOffered(log, since, pos) + 1)
         <= NextOffered(log, later, NextOffered(log, later, further) + 1)
  {
    var i := NextOffered(log, later, further);
    var j := NextOffered(log, later, i + 1);
    if j < |log| {
      assert NextOffered(log, since, pos) <= i < j;
    }
  }

  lemma OfferedAppended(log: seq<Option<int>>, stamp: Option<int>, since: Option<int>, pos: nat)
    requires pos <= |log|
    ensures var next := NextOffered(log + [stamp], since, pos);
            if NextOffered(log, since, pos) < |log| then next == NextOffered(log, since, pos) else |log| <= next
  {
    var longer := log + [stamp];
    forall j: nat | j < |log|
      ensures Dated(longer, j) == Dated(log, j) && Before(longer, j, since) == Before(log, j, since)
    {}
  }

  lemma FloorAppended(log: seq<Option<int>>, stamp: Option<int>, since: Option<int>, pos: nat, clock: int)
    requires InOrder(log, clock) && InOrder(log + [stamp], clock) && 0 <= clock && pos <= |log|
    ensures Floor(log, since, pos) <= Floor(log + [stamp], since, pos)
  {
    var second := NextOffered(log, since, NextOffered(log, since, pos) + 1);
    SecondAppended(log, stamp, since, pos);
    LastStampGrows(log, stamp, clock);
    if second < |log| {
      assert Stamp(log + [stamp], second) == Stamp(log, second);
      assert Floor(log + [stamp], since, pos) == Floor(log, since, pos);
    }
  }

  lemma SecondAppended(log: seq<Option<int>>, stamp: Option<int>, since: Option<int>, pos: nat)
    requires pos <= |log|
    ensures var second := NextOffered(log, since, NextOffered(log, since, pos) + 1);
            var longer := log + [stamp];
            var next := NextOffered(longer, since, NextOffered(longer, since, pos) + 1);
            if second < |log| then next == second
            else next < |longer| ==> next == |log| && !Before(longer, |log|, since)
  {
    var i := NextOffered(log, since, pos);
    OfferedAppended(log, stamp, since, pos);
    if i < |log| { OfferedAppended(log, stamp, since, i + 1); }
  }

  lemma LastStampGrows(log: seq<Option<int>>, stamp: Option<int>, clock: int)
    requires InOrder(log, clock) && InOrder(log + [stamp], clock) && 0 <= clock
    ensures LastStamp(log) <= LastStamp(log + [stamp])
    ensures stamp.Some? ==> LastStamp(log + [stamp]) == stamp.value
  {
    var longer := log + [stamp];
    assert longer[..|longer| - 1] == log;
    LastStampIsLast(log, clock);
    if stamp.Some? {
      assert Dated(longer, |log|) && 0 <= Stamp(longer, |log|);
      if LastStamp(log) > 0 {
        var i: nat :| Dated(log, i) && Stamp(log, i) == LastStamp(log);
        assert Dated(longer, i) && Stamp(longer, i) == Stamp(log, i);
      }
    }
  }

  // ---- Invariant ----

  ghost predicate Bounded(r: Registration, s: State) {
    && r.tt.Lawful()
    && 0 <= s.clock <= r.tt.max && InOrder(s.log, s.clock)
    && (forall i :: i in s.handed ==> Dated(s.log, i))
    && (s.first.Some? <==> s.handed != {})
    && (s.first.Some? ==> s.first.value in s.handed)
    && NoGap(s)
  }

  ghost predicate CursorsBounded(r: Registration, s: State) {
    forall v :: Cursor(r, s, v) ==> v in s.sent && 0 <= v <= r.tt.max + OVERLAP
  }

  ghost predicate CursorsAnchored(r: Registration, s: State) {
    s.first.Some? && !s.phase.Stopped? ==> forall v :: Cursor(r, s, v) ==> Near(s, v, OVERLAP)
  }

  /** No cursor can make a reopen pass over the second line, wherever the first one comes from. */
  ghost predicate CursorsWait(r: Registration, s: State) {
    s.first.None? && !s.phase.Stopped? ==>
      && (forall a, b :: Follows(r, s, a, b) ==> b <= Floor(s.log, Some(a - OVERLAP), 0) + OVERLAP)
      && (forall v :: Cursor(r, s, v) ==> Waits(r, s, v))
  }

  /** Before the first cursor is applied every request is the base request. */
  ghost predicate BaseOnly(r: Registration, s: State) {
    r.key !in s.store ==>
      && (s.phase.Opening? ==> s.phase.request == r.base)
      && (s.phase.Streaming? && r.base.sinceTime.Some? ==> s.phase.since == r.base.sinceTime)
      && (s.first.Some? ==> !Before(s.log, s.first.value, r.base.sinceTime))
  }

  ghost predicate PhaseInv(r: Registration, s: State) {
    match s.phase
    case Requesting(_, target, tries) => tries < CURSOR_FLUSH_RETRIES && (target.None? ==> tries == 0)
    case Opening(_, request) =>
      s.first.Some? ==> request.tail.None? && SinceAnchored(s, ServerSince(request, r.tt.max))
    case Streaming(since, pos, resolver, last, undated) =>
      && pos <= |s.log|
      && (s.first.Some? ==>
            && SinceAnchored(s, since)
            && forall j: nat :: Dated(s.log, j) && s.first.value <= j && (j < pos || Before(s.log, j, since))
                 ==> j in s.handed)
      && (resolver.Some? ==> 0 <= resolver.value && Near(s, resolver.value, undated * MICROSECOND))
    case _ => true
  }

  ghost predicate Inv(r: Registration, s: State) {
    && Bounded(r, s) && CursorsBounded(r, s) && CursorsAnchored(r, s) && CursorsWait(r, s)
    && BaseOnly(r, s) && PhaseInv(r, s)
  }

  /** Once a line was handed over, only reopens are requested. */
  predicate FirstRequestOnce(s: State) {
    s.handed != {} ==> (s.phase.Requesting? ==> s.phase.reopen) && (s.phase.Opening? ==> s.phase.again)
  }

  // ---- Anchors stay ----

  /** The log and what was handed over only grow. */
  predicate Grows(s: State, t: State) {
    s.log <= t.log && s.handed <= t.handed && (s.first.Some? ==> t.first == s.first)
  }

  lemma NearKept(s: State, t: State, v: int, slack: int)
    requires Near(s, v, slack) && Grows(s, t)
    ensures Near(t, v, slack)
  {
    if v > slack {
      var i: nat :| Anchor(s, i) && v <= Stamp(s.log, i) + slack;
      assert Anchor(t, i) && Stamp(t.log, i) == Stamp(s.log, i) by {
        forall j: nat | t.first.value <= j < i && Dated(t.log, j) ensures j in t.handed {
          assert Dated(s.log, j);
        }
      }
    }
  }

  lemma NearLater(s: State, v: int, slack: int, more: int)
    requires Near(s, v, slack)
    ensures Near(s, v + more, slack + more)
  {
    if v > slack {
      var i: nat :| Anchor(s, i) && v <= Stamp(s.log, i) + slack;
      assert v + more <= Stamp(s.log, i) + (slack + more);
    }
  }

  lemma NearWider(s: State, v: int, slack: int, w: int, wider: int)
    requires Near(s, v, slack) && w - wider <= v - slack
    ensures Near(s, w, wider)
  {
    if v > slack {
      var i: nat :| Anchor(s, i) && v <= Stamp(s.log, i) + slack;
      assert w <= Stamp(s.log, i) + wider;
    }
  }

  lemma NearBounded(r: Registration, s: State, v: int, slack: int)
    requires Bounded(r, s) && Near(s, v, slack)
    ensures v <= r.tt.max + slack
  {
    if v > slack {
      var i: nat :| Anchor(s, i) && v <= Stamp(s.log, i) + slack;
      assert Stamp(s.log, i) <= s.clock;
    }
  }

  /** Whatever is handed over is an anchor. */
  lemma HandedIsAnchor(s: State, i: nat)
    requires NoGap(s) && i in s.handed && Dated(s.log, i) && s.first.Some?
    ensures Anchor(s, i)
  {
  }

  // ---- Steps keep the invariant ----

  lemma CursorsKept(r: Registration, s: State, t: State)
    requires CursorsBounded(r, s) && CursorsAnchored(r, s) && Grows(s, t) && s.sent <= t.sent
    requires s.first == t.first && forall v :: Cursor(r, t, v) ==> Cursor(r, s, v)
    requires s.phase.Stopped? ==> t.phase.Stopped?
    ensures CursorsBounded(r, t) && CursorsAnchored(r, t)
  {
    forall v | Cursor(r, t, v) && s.first.Some? && !s.phase.Stopped? ensures Near(t, v, OVERLAP) {
      NearKept(s, t, v, OVERLAP);
    }
  }

  /** What is anchored in the phase stays so while the phase does. */
  lemma PhaseKept(r: Registration, s: State, t: State)
    requires PhaseInv(r, s) && Grows(s, t) && t.phase == s.phase && s.first == t.first
    requires t.phase.Streaming? && t.first.Some? ==>
               forall j: nat :: |s.log| <= j && Before(t.log, j, t.phase.since) ==> j in t.handed
    ensures PhaseInv(r, t)
  {
    if s.phase.Opening? && s.first.Some? {
      var since := ServerSince(s.phase.request, r.tt.max);
      if since.Some? { NearKept(s, t, since.value, 0); }
    }
    if s.phase.Streaming? {
      var since := s.phase.since;
      if s.first.Some? {
        if since.Some? { NearKept(s, t, since.value, 0); }
        forall j: nat | Dated(t.log, j) && t.first.value <= j && (j < t.phase.pos || Before(t.log, j, since))
          ensures j in t.handed
        {
          if j < |s.log| { assert Dated(s.log, j) && (Before(t.log, j, since) ==> Before(s.log, j, since)); }
        }
      }
      if s.phase.resolver.Some? { NearKept(s, t, s.phase.resolver.value, s.phase.undated * MICROSECOND); }
    }
  }

  lemma AppendKeeps(r: Registration, s: State, stamp: Option<int>)
    requires Inv(r, s) && Enabled(r, s, Append(stamp))
    ensures Inv(r, Do(r, s, Append(stamp)))
  {
    var t := Do(r, s, Append(stamp));
    CursorsKept(r, s, t);
    AppendWaits(r, s, stamp);
    if s.phase.Streaming? && s.first.Some? { NewLineIsLate(r, s, stamp); }
    PhaseKept(r, s, t);
    assert BaseOnly(r, t);
  }

  lemma NewLineIsLate(r: Registration, s: State, stamp: Option<int>)
    requires Inv(r, s) && Enabled(r, s, Append(stamp))
    requires s.phase.Streaming? && s.first.Some?
    ensures !Before(s.log + [stamp], |s.log|, s.phase.since)
  {
    var log := s.log + [stamp];
    if s.phase.since.Some? && s.phase.since.value > 0 {
      var i: nat :| Anchor(s, i) && s.phase.since.value <= Stamp(s.log, i) + 0;
      assert Dated(log, i) && Stamp(log, i) == Stamp(s.log, i);
    }
  }

  lemma AppendWaits(r: Registration, s: State, stamp: Option<int>)
    requires Inv(r, s) && Enabled(r, s, Append(stamp))
    ensures CursorsWait(r, Do(r, s, Append(stamp)))
  {
    var t := Do(r, s, Append(stamp));
    if s.first.None? && !s.phase.Stopped? {
      forall a, b | Follows(r, t, a, b) ensures b <= Floor(t.log, Some(a - OVERLAP), 0) + OVERLAP {
        assert Follows(r, s, a, b);
        FloorAppended(s.log, stamp, Some(a - OVERLAP), 0, s.clock);
      }
      RequestFloorGrows(s, t, r.base);
      if s.phase.Opening? { RequestFloorGrows(s, t, s.phase.request); }
      if s.phase.Streaming? { FloorAppended(s.log, stamp, s.phase.since, s.phase.pos, s.clock); }
      forall v | Cursor(r, t, v) && !t.phase.Stopped? ensures Waits(r, t, v) { assert Cursor(r, s, v); }
    }
  }

  /** As time goes on and lines are written, a request can only bring later lines. */
  lemma RequestFloorGrows(s: State, t: State, request: PodLogRequest)
    requires 0 <= s.clock <= t.clock && InOrder(s.log, s.clock) && InOrder(t.log, t.clock)
    requires t.log == s.log || (t.clock == s.clock && exists stamp :: t.log == s.log + [stamp])
    ensures RequestFloor(s, request) <= RequestFloor(t, request)
  {
    var since, pos := ServerSince(request, s.clock), TailStart(request, |s.log|);
    if t.log != s.log {
      var stamp :| t.log == s.log + [stamp];
      FloorAppended(s.log, stamp, since, pos, s.clock);
    }
    FloorLater(t.log, since, ServerSince(request, t.clock), pos, TailStart(request, |t.log|), t.clock);
  }

  lemma TickKeeps(r: Registration, s: State, now: int)
    requires Inv(r, s) && Enabled(r, s, Tick(now))
    ensures Inv(r, Do(r, s, Tick(now)))
  {
    var t := Do(r, s, Tick(now));
    CursorsKept(r, s, t);
    PhaseKept(r, s, t);
    if s.first.None? {
      RequestFloorGrows(s, t, r.base);
      if s.phase.Opening? { RequestFloorGrows(s, t, s.phase.request); }
      assert forall a, b :: Follows(r, t, a, b) ==> Follows(r, s, a, b);
      forall v | Cursor(r, t, v) && !t.phase.Stopped? ensures Waits(r, t, v) { assert Cursor(r, s, v); }
    }
  }

  lemma LateCursorKeeps(r: Registration, s: State, v: int)
    requires Inv(r, s) && Enabled(r, s, LateCursor(v)) && !Outruns(r, s, LateCursor(v))
    ensures Inv(r, Do(r, s, LateCursor(v)))
  {
    var t := Do(r, s, LateCursor(v));
    QueuedCursors(r, s, t, v);
    PhaseKept(r, s, t);
    if !s.phase.Stopped? {
      forall w | s.first.Some? && Cursor(r, t, w) ensures Near(t, w, OVERLAP) { NearKept(s, t, w, OVERLAP); }
      if s.first.None? {
        forall a, b | Follows(r, t, a, b) ensures b <= Floor(t.log, Some(a - OVERLAP), 0) + OVERLAP {
          assert Follows(r, s, a, b) || (b == v && Cursor(r, s, a));
        }
        forall w | Cursor(r, t, w) ensures Waits(r, t, w) { assert Waits(r, s, w); }
      }
    }
  }

  lemma QueuedCursors(r: Registration, s: State, t: State, v: int)
    requires t.store == s.store && t.queue == s.queue + [CursorUpdate(r.key, v)]
    ensures forall w :: Cursor(r, t, w) ==> Cursor(r, s, w) || w == v
    ensures forall a, b :: Follows(r, t, a, b) ==> Follows(r, s, a, b) || (b == v && Cursor(r, s, a))
  {
    forall a, b | Follows(r, t, a, b) ensures Follows(r, s, a, b) || (b == v && Cursor(r, s, a)) {
      if k, l :| 0 <= k < l < |t.queue|
                 && t.queue[k] == CursorUpdate(r.key, a) && t.queue[l] == CursorUpdate(r.key, b)
      {
        assert s.queue[k] == t.queue[k];
        if l < |s.queue| { assert s.queue[l] == t.queue[l]; }
      }
    }
  }

  lemma QueueStepKeeps(r: Registration, s: State, a: Action)
    requires Inv(r, s) && Enabled(r, s, a) && (a.OtherStream? || a.ApplyUpdate?)
    ensures Inv(r, Do(r, s, a))
  {
    var t := Do(r, s, a);
    QueueStepCursors(r, s, a);
    CursorsKept(r, s, t);
    PhaseKept(r, s, t);
    assert CursorsWait(r, t);
  }

  lemma QueueStepCursors(r: Registration, s: State, a: Action)
    requires Enabled(r, s, a) && (a.OtherStream? || a.ApplyUpdate?)
    ensures var t := Do(r, s, a);
            && (forall v :: Cursor(r, t, v) ==> Cursor(r, s, v))
            && (forall v, w :: Follows(r, t, v, w) ==> Follows(r, s, v, w))
  {
    var t := Do(r, s, a);
    forall v | Cursor(r, t, v) ensures Cursor(r, s, v) {
      if a.ApplyUpdate? && s.queue[0] == CursorUpdate(r.key, v) { assert CursorUpdate(r.key, v) in s.queue; }
    }
    forall v, w | Follows(r, t, v, w) ensures Follows(r, s, v, w) { FollowsBefore(r, s, a, v, w); }
  }

  lemma FollowsBefore(r: Registration, s: State, a: Action, v: int, w: int)
    requires Enabled(r, s, a) && (a.OtherStream? || a.ApplyUpdate?) && Follows(r, Do(r, s, a), v, w)
    ensures Follows(r, s, v, w)
  {
    var t := Do(r, s, a);
    if i, j :| 0 <= i < j < |t.queue| && t.queue[i] == CursorUpdate(r.key, v) && t.queue[j] == CursorUpdate(r.key, w) {
      if a.ApplyUpdate? { assert s.queue[i + 1] == t.queue[i] && s.queue[j + 1] == t.queue[j]; }
    } else if a.ApplyUpdate? {
      var j :| 0 <= j < |t.queue| && t.queue[j] == CursorUpdate(r.key, w);
      assert s.queue[j + 1] == t.queue[j];
      if s.queue[0].key == r.key { assert s.queue[0] == CursorUpdate(r.key, v); }
    }
  }

  lemma BuildRequestKeeps(r: Registration, s: State)
    requires Inv(r, s) && Enabled(r, s, BuildRequest) && !Blind(r, s, BuildRequest)
    requires s.first.Some? ==> s.phase.reopen
    ensures Inv(r, Do(r, s, BuildRequest))
  {
    var t := Do(r, s, BuildRequest);
    CursorsKept(r, s, t);
    BuildRequestWaits(r, s);
    if s.first.Some? {
      if r.key in s.store {
        var v := s.store[r.key];
        assert Cursor(r, s, v);
        CursorRequestResumesOneSecondBack(r.tt, r.base, v);
        NearWider(s, v, OVERLAP, v - OVERLAP, 0);
        NearKept(s, t, v - OVERLAP, 0);
      } else {
        BaseIsAnchored(r, s);
        var since := ServerSince(r.base, r.tt.max);
        if since.Some? { NearKept(s, t, since.value, 0); }
      }
    }
  }

  lemma BaseIsAnchored(r: Registration, s: State)
    requires Inv(r, s) && s.first.Some? && r.key !in s.store && s.phase.Requesting? && s.phase.reopen
    requires !Blind(r, s, BuildRequest)
    ensures r.base.tail.None? && SinceAnchored(s, ServerSince(r.base, r.tt.max))
  {
    if AnswersInFull(r.base) && r.base.sinceTime.Some? {
      HandedIsAnchor(s, s.first.value);
      assert !Before(s.log, s.first.value, r.base.sinceTime);
    }
  }

  lemma BuildRequestWaits(r: Registration, s: State)
    requires Inv(r, s) && Enabled(r, s, BuildRequest)
    ensures CursorsWait(r, Do(r, s, BuildRequest))
  {
    var t := Do(r, s, BuildRequest);
    if s.first.None? {
      assert forall a, b :: Follows(r, t, a, b) ==> Follows(r, s, a, b);
      forall v | Cursor(r, t, v) ensures Waits(r, t, v) {
        assert Cursor(r, s, v);
        if s.phase.reopen && r.key in s.store { StoredRequestWaits(r, s, v); }
      }
    }
  }

  /** The request made from the stored cursor. */
  lemma StoredRequestWaits(r: Registration, s: State, v: int)
    requires Bounded(r, s) && CursorsBounded(r, s) && CursorsWait(r, s) && s.first.None? && Cursor(r, s, v)
    requires s.phase.Requesting? && r.key in s.store
    ensures v <= RequestFloor(s, PodLogRequestForReopen(r.tt, r.base, Some(s.store[r.key]), true)) + OVERLAP
  {
    var a := s.store[r.key];
    assert Cursor(r, s, a);
    CursorRequestResumesOneSecondBack(r.tt, r.base, a);
    FloorIsLate(s.log, Some(a - OVERLAP), 0, s.clock);
    assert v == a || Follows(r, s, a, v);
  }

  lemma OpenKeeps(r: Registration, s: State)
    requires Inv(r, s) && Enabled(r, s, OpenOk)
    ensures Inv(r, Do(r, s, OpenOk))
  {
    var t := Do(r, s, OpenOk);
    CursorsKept(r, s, t);
    assert CursorsWait(r, t) by {
      assert forall a, b :: Follows(r, t, a, b) ==> Follows(r, s, a, b);
      assert forall v :: Cursor(r, t, v) ==> Cursor(r, s, v);
    }
    OpenKeepsPhase(r, s);
  }

  lemma OpenKeepsPhase(r: Registration, s: State)
    requires Inv(r, s) && Enabled(r, s, OpenOk)
    ensures PhaseInv(r, Do(r, s, OpenOk))
  {
    var t := Do(r, s, OpenOk);
    var since := t.phase.since;
    if s.first.Some? {
      if since.Some? {
        NearWider(s, ServerSince(s.phase.request, r.tt.max).value, 0, since.value, 0);
        NearKept(s, t, since.value, 0);
      }
      forall j: nat | Dated(t.log, j) && s.first.value <= j && Before(t.log, j, since) ensures j in t.handed {
        assert 0 <= Stamp(s.log, j) < since.value;
        var i: nat :| Anchor(s, i) && since.value <= Stamp(s.log, i) + 0;
        assert j < i;
      }
    }
  }

  // ---- Delivering a line ----

  lemma DeliverKeeps(r: Registration, s: State, i: nat)
    requires Inv(r, s) && Enabled(r, s, Deliver(i)) && !Drifts(r, s, Deliver(i))
    ensures Inv(r, Do(r, s, Deliver(i)))
  {
    DeliverKeepsOrder(r, s, i);
    DeliverKeepsResolver(r, s, i);
    DeliverKeepsCursors(r, s, i);
    DeliverWaits(r, s, i);
  }

  lemma DeliverKeepsOrder(r: Registration, s: State, i: nat)
    requires Inv(r, s) && Enabled(r, s, Deliver(i))
    ensures var t := Do(r, s, Deliver(i));
            && Grows(s, t) && Bounded(r, t) && BaseOnly(r, t)
            && (t.first.Some? ==>
                  && SinceAnchored(t, t.phase.since)
                  && forall j: nat ::
                       Dated(t.log, j) && t.first.value <= j && (j < i + 1 || Before(t.log, j, t.phase.since))
                       ==> j in t.handed)
  {
    var t := Do(r, s, Deliver(i));
    var since := s.phase.since;
    if t.first.Some? {
      forall j: nat | Dated(t.log, j) && t.first.value <= j && (j < i + 1 || Before(t.log, j, since))
        ensures j in t.handed
      {
        if s.first.Some? && s.phase.pos <= j < i { assert Before(s.log, j, since); }
        if s.first.None? { assert t.first.value == i; }
      }
      assert NoGap(t);
      assert SinceAnchored(t, since) by {
        if s.first.Some? {
          if since.Some? { NearKept(s, t, since.value, 0); }
        } else {
          HandedIsAnchor(t, i);
        }
      }
    }
  }

  lemma DeliverKeepsResolver(r: Registration, s: State, i: nat)
    requires Inv(r, s) && Enabled(r, s, Deliver(i))
    ensures var t := Do(r, s, Deliver(i));
            0 <= StampGiven(s, i) && Near(t, StampGiven(s, i), t.phase.undated * MICROSECOND)
  {
    var t := Do(r, s, Deliver(i));
    DeliverKeepsOrder(r, s, i);
    if s.log[i].Some? {
      HandedIsAnchor(t, i);
    } else if s.phase.resolver.Some? {
      NearKept(s, t, s.phase.resolver.value, s.phase.undated * MICROSECOND);
      NearLater(t, s.phase.resolver.value, s.phase.undated * MICROSECOND, MICROSECOND);
    }
  }

  /** Only more than a million undated lines in a row make a stamp drift. */
  lemma DriftTakesAMillion(r: Registration, s: State, i: nat)
    requires Inv(r, s) && Enabled(r, s, Deliver(i)) && s.phase.undated < MAX_UNDATED_RUN
    ensures !Drifts(r, s, Deliver(i))
  {
    DeliverKeepsResolver(r, s, i);
    var t := Do(r, s, Deliver(i));
    NearWider(t, StampGiven(s, i), t.phase.undated * MICROSECOND, StampGiven(s, i), OVERLAP);
  }

  lemma DeliverKeepsCursors(r: Registration, s: State, i: nat)
    requires Inv(r, s) && Enabled(r, s, Deliver(i)) && !Drifts(r, s, Deliver(i))
    ensures CursorsBounded(r, Do(r, s, Deliver(i))) && CursorsAnchored(r, Do(r, s, Deliver(i)))
  {
    var t, stamp := Do(r, s, Deliver(i)), StampGiven(s, i);
    DeliverKeepsOrder(r, s, i);
    DeliverKeepsResolver(r, s, i);
    QueuedCursors(r, s, t, stamp);
    assert Near(t, stamp, OVERLAP) by {
      if s.log[i].Some? { NearWider(t, stamp, t.phase.undated * MICROSECOND, stamp, OVERLAP); }
    }
    NearBounded(r, t, stamp, OVERLAP);
    forall v | t.first.Some? && Cursor(r, t, v) && v != stamp ensures Near(t, v, OVERLAP) {
      assert Cursor(r, s, v);
      if s.first.Some? { NearKept(s, t, v, OVERLAP); } else { FirstLineAnchors(r, s, i, v); }
    }
  }

  /** With the first line, every cursor that could wait is near: the second line is no earlier than its overlap. */
  lemma FirstLineAnchors(r: Registration, s: State, i: nat, v: int)
    requires Inv(r, s) && Enabled(r, s, Deliver(i)) && s.first.None? && s.log[i].Some? && Cursor(r, s, v)
    ensures Near(Do(r, s, Deliver(i)), v, OVERLAP)
  {
    var t, since := Do(r, s, Deliver(i)), s.phase.since;
    assert i == NextOffered(s.log, since, s.phase.pos);
    var second := NextOffered(s.log, since, i + 1);
    forall j: nat | i < j && Dated(s.log, j) ensures !Before(s.log, j, since) {
      assert Stamp(s.log, i) <= Stamp(s.log, j);
    }
    if second < |s.log| {
      assert Anchor(t, second);
    } else {
      LastDated(s.log, i, s.clock);
      assert Anchor(t, i);
    }
  }

  lemma DeliverWaits(r: Registration, s: State, i: nat)
    requires Inv(r, s) && Enabled(r, s, Deliver(i)) && !Drifts(r, s, Deliver(i))
    ensures CursorsWait(r, Do(r, s, Deliver(i)))
  {
    var t, stamp := Do(r, s, Deliver(i)), StampGiven(s, i);
    if t.first.None? {
      QueuedCursors(r, s, t, stamp);
      forall a, b | Follows(r, t, a, b) ensures b <= Floor(t.log, Some(a - OVERLAP), 0) + OVERLAP {
        if b == stamp { FloorIsLate(t.log, Some(a - OVERLAP), 0, t.clock); } else { assert Follows(r, s, a, b); }
      }
      forall v | Cursor(r, t, v) ensures Waits(r, t, v) {
        if v == stamp { EarlyCursorWaits(r, t, v); } else { UndatedKeepsWait(r, s, i, v); }
      }
    }
  }

  /** A cursor of the first second can always wait. */
  lemma EarlyCursorWaits(r: Registration, s: State, v: int)
    requires 0 <= s.clock && InOrder(s.log, s.clock) && v <= OVERLAP
    ensures Waits(r, s, v)
  {
    FloorIsLate(s.log, ServerSince(r.base, s.clock), TailStart(r.base, |s.log|), s.clock);
    if s.phase.Opening? {
      FloorIsLate(s.log, ServerSince(s.phase.request, s.clock), TailStart(s.phase.request, |s.log|), s.clock);
    }
    if s.phase.Streaming? { FloorIsLate(s.log, s.phase.since, s.phase.pos, s.clock); }
  }

  lemma UndatedKeepsWait(r: Registration, s: State, i: nat, v: int)
    requires Enabled(r, s, Deliver(i)) && s.log[i].None? && Waits(r, s, v)
    ensures Waits(r, Delivered(r, s, i), v)
  {
    assert NextOffered(s.log, s.phase.since, i + 1) == NextOffered(s.log, s.phase.since, s.phase.pos);
  }

  // ---- Whole runs ----

  lemma EndKeeps(r: Registration, s: State, a: Action)
    requires Inv(r, s) && Enabled(r, s, a) && (a.FlushCheck? || a.OpenFail? || a.StreamEnds? || a.Cancel?)
    ensures Inv(r, Do(r, s, a))
  {
    var t := Do(r, s, a);
    CursorsKept(r, s, t);
    assert t == s.(phase := t.phase) && (t.phase.Requesting? ==> t.phase.reopen);
    WaitsKept(r, s, t.phase);
  }

  lemma WaitsKept(r: Registration, s: State, phase: Phase)
    requires CursorsWait(r, s) && (phase.Stopped? || (!s.phase.Stopped? && phase.Requesting? && phase.reopen))
    ensures CursorsWait(r, s.(phase := phase))
  {
    var t := s.(phase := phase);
    assert forall v, w :: Follows(r, t, v, w) ==> Follows(r, s, v, w);
    assert forall v :: Cursor(r, t, v) ==> Cursor(r, s, v);
  }

  lemma StepKeeps(r: Registration, s: State, a: Action)
    requires Inv(r, s) && Enabled(r, s, a) && !Harmful(r, s, a)
    requires FirstRequestOnce(s)
    ensures Inv(r, Do(r, s, a)) && FirstRequestOnce(Do(r, s, a))
  {
    match a
    case Append(stamp) => AppendKeeps(r, s, stamp);
    case Tick(now) => TickKeeps(r, s, now);
    case OtherStream(_) => QueueStepKeeps(r, s, a);
    case LateCursor(v) => LateCursorKeeps(r, s, v);
    case ApplyUpdate => QueueStepKeeps(r, s, a);
    case BuildRequest => BuildRequestKeeps(r, s);
    case OpenOk => OpenKeeps(r, s);
    case Deliver(i) => DeliverKeeps(r, s, i);
    case _ => EndKeeps(r, s, a);
  }

  lemma {:induction false} RunKeeps(r: Registration, s: State, actions: seq<Action>)
    requires Inv(r, s) && FirstRequestOnce(s)
    requires IsRun(r, s, actions) && Careful(r, s, actions)
    ensures Inv(r, After(r, s, actions)) && FirstRequestOnce(After(r, s, actions))
    decreases |actions|
  {
    if actions != [] {
      StepKeeps(r, s, actions[0]);
      RunKeeps(r, Do(r, s, actions[0]), actions[1..]);
    }
  }

  lemma StartInv(r: Registration, s: State)
    requires Start(r, s) && NoStaleCursor(r, s)
    ensures Inv(r, s) && FirstRequestOnce(s)
  {
  }

  /** No gap at any seam. */
  lemma NoGapAtTheSeam(r: Registration, s: State, actions: seq<Action>)
    requires Start(r, s) && NoStaleCursor(r, s)
    requires IsRun(r, s, actions) && Careful(r, s, actions)
    ensures NoGap(After(r, s, actions))
  {
    StartInv(r, s);
    RunKeeps(r, s, actions);
  }
}
