/**
 From the sources to the display: attach tasks hand streams to the mux task, which multiplexes their rows into the raw
 channel; the forward task takes them through the pipeline to the render channel. Every step of every task is a step
 here, in any interleaving.
 */
module Dataflow {
  import opened Wrappers
  import opened Source
  import opened Pipeline

  /** Rows and events carry the stream they came from. */
  type Tagged = (nat, Row)
  type Shown = (nat, LogEvent)

  /** `show` and `fires` are what the pipeline makes of a row. `script(i)` is everything stream `i` would yield,
      `key(t)` the registered key of task `t`. */
  datatype Config = Config(
    follow: bool,
    show: Row -> Option<LogEvent>,
    fires: Row -> bool,
    script: nat -> seq<Row>,
    key: nat -> SourceKey,
    muxLossy: bool,
    renderLossy: bool,
    cmdCap: nat,
    rawCap: nat,
    renderCap: nat)

  datatype Task = Starting | Sending(stream: nat) | Awaiting(stream: nat) | Returned
  datatype MuxCmd = Add(key: SourceKey, stream: nat) | Remove(key: SourceKey)

  /** A task that moves items: `Stopped` tells what it still had in hand. */
  datatype Mover<T> = Looping | Holding(item: T) | Stopped(lost: Option<T>)

  datatype RenderCommand = Line(event: LogEvent) | Flush

  datatype State = State(
    tasks: map<nat, Task>,
    watching: bool,               // the watch side still holds a command sender
    begun: set<nat>,             // streams opened so far
    cmds: seq<MuxCmd>,
    streams: map<SourceKey, nat>, // the mux task's stream map
    pos: map<nat, nat>,           // rows polled so far
    cut: set<nat>,                // streams whose token is cancelled
    ended: set<nat>,              // streams whose end was signalled
    mux: Mover<Tagged>,
    raw: seq<Tagged>,
    forward: Mover<Shown>,
    render: seq<RenderCommand>,
    renderOpen: bool,
    cancelled: bool,              // the root token
    polled: seq<Tagged>,          // history: rows polled
    muxDropped: nat,
    taken: seq<Tagged>,           // history: rows taken off the raw channel
    forwarded: seq<Shown>,        // history: lines put on the render channel
    dropped: nat,
    rendered: seq<LogEvent>)      // history: lines the render task has taken

  datatype Action =
    | Spawn(task: nat)
    | WatchEnds
    | SendRemove(key: SourceKey)
    | CutStream(stream: nat)
    | OpenOk(task: nat, stream: nat)
    | OpenFails(task: nat)
    | SendAdd(task: nat)
    | SendAddFails(task: nat)
    | SeeEnd(task: nat, again: bool)
    | MuxCommand
    | MuxPoll(key: SourceKey)
    | MuxPollEnd(key: SourceKey)
    | MuxSend
    | MuxBreaks
    | MuxDone
    | Take
    | SendLine
    | ForwardBreaks
    | ForwardDone
    | FlushTick
    | RenderTakes
    | RenderCloses
    | Cancel

  const START := State(
    map[], true, {}, [], map[], map[], {}, {}, Looping, [], Looping, [], true, false, [], 0, [], [], 0, [])

  function Pos(s: State, i: nat): nat {
    if i in s.pos then s.pos[i] else 0
  }

  /** The command channel is closed once the watch side and all attach tasks are gone. */
  predicate Senders(s: State) {
    s.watching || exists t :: t in s.tasks && s.tasks[t] != Returned
  }

  predicate TaskEnabled(c: Config, s: State, a: Action) {
    match a
    case Spawn(t) =>
      s.watching && t !in s.tasks && (!c.follow ==> forall u :: u in s.tasks ==> c.key(u) != c.key(t))
    case WatchEnds => s.watching
    case SendRemove(_) => c.follow && s.watching && (|s.cmds| < c.cmdCap || s.mux.Stopped?)
    case CutStream(_) => c.follow
    case OpenOk(t, i) =>
      t in s.tasks && s.tasks[t] == Starting && i !in s.begun && (!c.follow ==> i == t)
    case OpenFails(t) => t in s.tasks && s.tasks[t] == Starting
    case SendAdd(t) => t in s.tasks && s.tasks[t].Sending? && !s.mux.Stopped? && |s.cmds| < c.cmdCap
    case SendAddFails(t) => t in s.tasks && s.tasks[t].Sending? && s.mux.Stopped?
    case SeeEnd(t, again) =>
      t in s.tasks && s.tasks[t].Awaiting? && s.tasks[t].stream in s.ended && (again ==> c.follow)
    case _ => false
  }

  predicate MuxEnabled(c: Config, s: State, a: Action) {
    match a
    case MuxCommand => s.mux.Looping? && s.cmds != []
    case MuxPoll(k) => s.mux.Looping? && k in s.streams && Pos(s, s.streams[k]) < |c.script(s.streams[k])|
    case MuxPollEnd(k) =>
      s.mux.Looping? && k in s.streams
      && (Pos(s, s.streams[k]) >= |c.script(s.streams[k])| || s.cancelled || s.streams[k] in s.cut)
    case MuxSend => s.mux.Holding? && !s.forward.Stopped? && |s.raw| < c.rawCap
    case MuxBreaks => !s.mux.Stopped? && (s.cancelled || (s.mux.Holding? && s.forward.Stopped?))
    case MuxDone => s.mux.Looping? && s.cmds == [] && !Senders(s)
    case _ => false
  }

  predicate ForwardEnabled(c: Config, s: State, a: Action) {
    match a
    case Take => s.forward.Looping? && s.raw != []
    case SendLine => s.forward.Holding? && s.renderOpen && |s.render| < c.renderCap
    case ForwardBreaks => !s.forward.Stopped? && (s.cancelled || (s.forward.Holding? && !s.renderOpen))
    case ForwardDone => s.forward.Looping? && s.raw == [] && s.mux.Stopped?
    case FlushTick => s.renderOpen && |s.render| < c.renderCap
    case RenderTakes => s.render != []
    case RenderCloses => true
    case Cancel => true
    case _ => false
  }

  predicate Enabled(c: Config, s: State, a: Action) {
    TaskEnabled(c, s, a) || MuxEnabled(c, s, a) || ForwardEnabled(c, s, a)
  }

  function TaskDo(c: Config, s: State, a: Action): State
    requires TaskEnabled(c, s, a)
  {
    match a
    case Spawn(t) => s.(tasks := s.tasks[t := Starting])
    case WatchEnds => s.(watching := false)
    case SendRemove(k) => if s.mux.Stopped? then s else s.(cmds := s.cmds + [Remove(k)])
    case CutStream(i) => s.(cut := s.cut + {i})
    case OpenOk(t, i) => s.(tasks := s.tasks[t := Sending(i)], begun := s.begun + {i})
    case OpenFails(t) => s.(tasks := s.tasks[t := Returned])
    case SendAdd(t) =>
      s.(tasks := s.tasks[t := Awaiting(s.tasks[t].stream)], cmds := s.cmds + [Add(c.key(t), s.tasks[t].stream)])
    case SendAddFails(t) => s.(tasks := s.tasks[t := Returned])
    case SeeEnd(t, again) => s.(tasks := s.tasks[t := if again then Starting else Returned])
  }

  /** The streams still in the map, and those in commands nobody will receive, are dropped with the loop. */
  function MuxStops(s: State, lost: Option<Tagged>): State {
    var queued := set cmd | cmd in s.cmds && cmd.Add? :: cmd.stream;
    s.(mux := Stopped(lost), streams := map[], cmds := [], ended := s.ended + s.streams.Values + queued)
  }

  /** An entry under the same key is replaced, and its stream dropped. */
  function AddStream(s: State, k: SourceKey, i: nat): State {
    s.(cmds := if s.cmds == [] then [] else s.cmds[1..], streams := s.streams[k := i],
       ended := if k in s.streams then s.ended + {s.streams[k]} else s.ended)
  }

  function RemoveStream(s: State, k: SourceKey): State {
    var cmds := if s.cmds == [] then [] else s.cmds[1..];
    if k !in s.streams then s.(cmds := cmds)
    else s.(cmds := cmds, streams := s.streams - {k}, ended := s.ended + {s.streams[k]})
  }

  function Polled(s: State, row: Tagged): State {
    s.(pos := s.pos[row.0 := Pos(s, row.0) + 1], polled := s.polled + [row])
  }

  /** What becomes of the row at the raw channel. */
  function PollRow(c: Config, s: State, row: Tagged): State {
    if !c.muxLossy then Polled(s, row).(mux := Holding(row))
    else if s.forward.Stopped? then MuxStops(Polled(s, row), Some(row))
    else if |s.raw| < c.rawCap then Polled(s, row).(raw := s.raw + [row])
    else Polled(s, row).(muxDropped := s.muxDropped + 1)
  }

  function MuxDo(c: Config, s: State, a: Action): State
    requires MuxEnabled(c, s, a)
  {
    match a
    case MuxCommand =>
      if s.cmds[0].Add? then AddStream(s, s.cmds[0].key, s.cmds[0].stream) else RemoveStream(s, s.cmds[0].key)
    case MuxPoll(k) => PollRow(c, s, (s.streams[k], c.script(s.streams[k])[Pos(s, s.streams[k])]))
    case MuxPollEnd(k) => s.(streams := s.streams - {k}, ended := s.ended + {s.streams[k]})
    case MuxSend => s.(raw := s.raw + [s.mux.item], mux := Looping)
    case MuxBreaks => MuxStops(s, if s.mux.Holding? then Some(s.mux.item) else None)
    case MuxDone => MuxStops(s, None)
  }

  function Taken(c: Config, s: State): State
    requires s.raw != []
  {
    s.(raw := s.raw[1..], taken := s.taken + [s.raw[0]], cancelled := s.cancelled || c.fires(s.raw[0].1))
  }

  /** What becomes of a line at the render channel. */
  function Offer(c: Config, s: State, line: Shown): State {
    if !c.renderLossy then s.(forward := Holding(line))
    else if !s.renderOpen then s.(forward := Stopped(Some(line)))
    else if |s.render| < c.renderCap
    then s.(render := s.render + [Line(line.1)], forwarded := s.forwarded + [line])
    else s.(dropped := s.dropped + 1)
  }

  /** The lines among the commands on the render channel. */
  function RenderLines(commands: seq<RenderCommand>): seq<LogEvent>
    decreases |commands|
  {
    if commands == [] then []
    else
      var before, last := RenderLines(commands[..|commands| - 1]), commands[|commands| - 1];
      if last.Line? then before + [last.event] else before
  }

  /** Hidden rows and errors end here. */
  function TakeRow(c: Config, s: State): State
    requires s.raw != []
  {
    var row := s.raw[0];
    if c.show(row.1).None? then Taken(c, s) else Offer(c, Taken(c, s), (row.0, c.show(row.1).value))
  }

  function ForwardDo(c: Config, s: State, a: Action): State
    requires ForwardEnabled(c, s, a)
  {
    match a
    case Take => TakeRow(c, s)
    case SendLine =>
      s.(render := s.render + [Line(s.forward.item.1)], forwarded := s.forwarded + [s.forward.item], forward := Looping)
    case ForwardBreaks => s.(forward := Stopped(if s.forward.Holding? then Some(s.forward.item) else None))
    case ForwardDone => s.(forward := Stopped(None))
    case FlushTick => s.(render := s.render + [Flush])
    case RenderTakes => s.(render := s.render[1..], rendered := s.rendered + RenderLines(s.render[..1]))
    case RenderCloses => s.(renderOpen := false)
    case Cancel => s.(cancelled := true)
  }

  function Do(c: Config, s: State, a: Action): State
    requires Enabled(c, s, a)
  {
    if TaskEnabled(c, s, a) then TaskDo(c, s, a)
    else if MuxEnabled(c, s, a) then MuxDo(c, s, a)
    else ForwardDo(c, s, a)
  }

  predicate IsRun(c: Config, s: State, actions: seq<Action>)
    decreases |actions|
  {
    actions == [] || (Enabled(c, s, actions[0]) && IsRun(c, Do(c, s, actions[0]), actions[1..]))
  }

  function After(c: Config, s: State, actions: seq<Action>): State
    requires IsRun(c, s, actions)
    decreases |actions|
  {
    if actions == [] then s else After(c, Do(c, s, actions[0]), actions[1..])
  }

  // ---- Who cancels ----

  ghost predicate SomeFired(c: Config, rows: seq<Tagged>) {
    exists row :: row in rows && c.fires(row.1)
  }

  lemma StepCancels(c: Config, s: State, a: Action)
    requires Enabled(c, s, a)
    ensures var t := Do(c, s, a);
            && (if a.Take? then s.raw != [] && t.taken == s.taken + [s.raw[0]] else t.taken == s.taken)
            && (t.cancelled <==> s.cancelled || a.Cancel? || (a.Take? && c.fires(s.raw[0].1)))
  {
    if TaskEnabled(c, s, a) {
      assert TaskDo(c, s, a).taken == s.taken && TaskDo(c, s, a).cancelled == s.cancelled;
    } else if MuxEnabled(c, s, a) {
      MuxCancelsNothing(c, s, a);
    } else {
      ForwardCancels(c, s, a);
    }
  }

  lemma MuxCancelsNothing(c: Config, s: State, a: Action)
    requires MuxEnabled(c, s, a)
    ensures MuxDo(c, s, a).taken == s.taken && MuxDo(c, s, a).cancelled == s.cancelled
  {
    match a
    case MuxCommand => CommandCancelsNothing(c, s);
    case MuxPoll(k) => PollCancelsNothing(c, s, (s.streams[k], c.script(s.streams[k])[Pos(s, s.streams[k])]));
    case _ =>
  }

  lemma CommandCancelsNothing(c: Config, s: State)
    requires MuxEnabled(c, s, MuxCommand)
    ensures MuxDo(c, s, MuxCommand).taken == s.taken && MuxDo(c, s, MuxCommand).cancelled == s.cancelled
  {
  }

  lemma PollCancelsNothing(c: Config, s: State, row: Tagged)
    ensures PollRow(c, s, row).taken == s.taken && PollRow(c, s, row).cancelled == s.cancelled
  {
    var polled := Polled(s, row);
    assert polled.taken == s.taken && polled.cancelled == s.cancelled;
    StoppingCancelsNothing(polled, Some(row));
  }

  lemma StoppingCancelsNothing(s: State, lost: Option<Tagged>)
    ensures MuxStops(s, lost).taken == s.taken && MuxStops(s, lost).cancelled == s.cancelled
  {
  }

  lemma ForwardCancels(c: Config, s: State, a: Action)
    requires ForwardEnabled(c, s, a)
    ensures var t := ForwardDo(c, s, a);
            && (if a.Take? then t.taken == s.taken + [s.raw[0]] else t.taken == s.taken)
            && (t.cancelled <==> s.cancelled || a.Cancel? || (a.Take? && c.fires(s.raw[0].1)))
  {
  }

  /** A run is cancelled by a row that fires, as soon as it is taken off the raw channel, or from outside; by nothing
      else. */
  lemma {:induction false} FiredRowCancels(c: Config, s: State, actions: seq<Action>, outside: bool)
    requires IsRun(c, s, actions) && (s.cancelled <==> outside || SomeFired(c, s.taken))
    ensures var t := After(c, s, actions);
            t.cancelled <==> outside || Cancel in actions || SomeFired(c, t.taken)
    decreases |actions|
  {
    if actions != [] {
      var a, rest := actions[0], actions[1..];
      var next := Do(c, s, a);
      StepCancels(c, s, a);
      if a.Take? {
        assert SomeFired(c, next.taken) <==> SomeFired(c, s.taken) || c.fires(s.raw[0].1) by {
          assert s.raw[0] in next.taken;
        }
      }
      FiredRowCancels(c, next, rest, outside || a.Cancel?);
      assert actions == [a] + rest;
    }
  }

  /** So a run from the start. */
  lemma CancelledWhy(c: Config, actions: seq<Action>)
    requires IsRun(c, START, actions)
    ensures var t := After(c, START, actions);
            t.cancelled <==> Cancel in actions || exists row :: row in t.taken && c.fires(row.1)
  {
    FiredRowCancels(c, START, actions, false);
  }

  // ---- What the render task gets ----

  function EventsOf(lines: seq<Shown>): seq<LogEvent> {
    seq(|lines|, i requires 0 <= i < |lines| => lines[i].1)
  }

  /** The lines the render task has taken, and those still waiting for it, are the forwarded ones, in order. */
  ghost predicate Rendering(s: State) {
    s.rendered + RenderLines(s.render) == EventsOf(s.forwarded)
  }

  lemma RenderAppend(commands: seq<RenderCommand>, command: RenderCommand)
    ensures RenderLines(commands + [command])
         == RenderLines(commands) + match command case Line(event) => [event] case Flush => []
  {
    assert (commands + [command])[..|commands|] == commands;
  }

  lemma {:induction false} RenderSplit(a: seq<RenderCommand>, b: seq<RenderCommand>)
    ensures RenderLines(a + b) == RenderLines(a) + RenderLines(b)
    decreases |b|
  {
    if b == [] {
      assert a + b == a;
    } else {
      var n := |b| - 1;
      RenderSplit(a, b[..n]);
      RenderAppend(a + b[..n], b[n]);
      RenderAppend(b[..n], b[n]);
      assert a + b == a + b[..n] + [b[n]] && b == b[..n] + [b[n]];
    }
  }

  lemma LineForwarded(s: State, t: State, line: Shown)
    requires Rendering(s) && t.rendered == s.rendered
    requires t.render == s.render + [Line(line.1)] && t.forwarded == s.forwarded + [line]
    ensures Rendering(t)
  {
    RenderAppend(s.render, Line(line.1));
    assert EventsOf(t.forwarded) == EventsOf(s.forwarded) + [line.1];
  }

  lemma TakeRenders(c: Config, s: State)
    requires Rendering(s) && s.raw != []
    ensures Rendering(TakeRow(c, s))
  {
    var row, t := s.raw[0], TakeRow(c, s);
    if t.forwarded != s.forwarded { LineForwarded(s, t, (row.0, c.show(row.1).value)); }
  }

  lemma ForwardRenders(c: Config, s: State, a: Action)
    requires Rendering(s) && ForwardEnabled(c, s, a)
    ensures Rendering(ForwardDo(c, s, a))
  {
    match a
    case Take => TakeRenders(c, s);
    case SendLine => LineForwarded(s, ForwardDo(c, s, a), s.forward.item);
    case FlushTick => RenderAppend(s.render, Flush);
    case RenderTakes =>
      RenderSplit(s.render[..1], s.render[1..]);
      assert s.render == s.render[..1] + s.render[1..];
    case _ =>
  }

  /** The other steps touch nothing of it. */
  predicate SameRender(s: State, t: State) {
    t.render == s.render && t.rendered == s.rendered && t.forwarded == s.forwarded
  }

  lemma MuxLeavesRender(c: Config, s: State, a: Action)
    requires MuxEnabled(c, s, a)
    ensures SameRender(s, MuxDo(c, s, a))
  {
    match a
    case MuxCommand => CommandLeavesRender(c, s);
    case MuxPoll(k) => PollLeavesRender(c, s, (s.streams[k], c.script(s.streams[k])[Pos(s, s.streams[k])]));
    case _ =>
  }

  lemma CommandLeavesRender(c: Config, s: State)
    requires MuxEnabled(c, s, MuxCommand)
    ensures SameRender(s, MuxDo(c, s, MuxCommand))
  {
  }

  lemma PollLeavesRender(c: Config, s: State, row: Tagged)
    ensures SameRender(s, PollRow(c, s, row))
  {
    assert SameRender(s, Polled(s, row));
  }

  lemma TaskLeavesRender(c: Config, s: State, a: Action)
    requires TaskEnabled(c, s, a)
    ensures SameRender(s, TaskDo(c, s, a))
  {
  }

  lemma {:induction false} RenderedInOrder(c: Config, s: State, actions: seq<Action>)
    requires IsRun(c, s, actions) && Rendering(s)
    ensures Rendering(After(c, s, actions))
    decreases |actions|
  {
    if actions != [] {
      var a := actions[0];
      if TaskEnabled(c, s, a) {
        TaskLeavesRender(c, s, a);
      } else if MuxEnabled(c, s, a) {
        MuxLeavesRender(c, s, a);
      } else {
        ForwardRenders(c, s, a);
      }
      RenderedInOrder(c, Do(c, s, a), actions[1..]);
    }
  }

  /** In every run the render task gets the forwarded lines, each once and in order. */
  lemma RenderGetsForwarded(c: Config, actions: seq<Action>)
    requires IsRun(c, START, actions)
    ensures var t := After(c, START, actions);
            && |t.rendered + RenderLines(t.render)| == |t.forwarded|
            && forall i :: 0 <= i < |t.forwarded| ==> (t.rendered + RenderLines(t.render))[i] == t.forwarded[i].1
  {
    RenderedInOrder(c, START, actions);
  }

  // ---- Order ----

  /** `a` is `b` with some elements left out. */
  predicate IsSub<T(==)>(a: seq<T>, b: seq<T>)
    decreases |b|
  {
    || a == []
    || (b != []
        && (IsSub(a, b[..|b| - 1])
            || (a[|a| - 1] == b[|b| - 1] && IsSub(a[..|a| - 1], b[..|b| - 1]))))
  }

  lemma SubAppend<T>(a: seq<T>, b: seq<T>, x: T)
    requires IsSub(a, b)
    ensures IsSub(a, b + [x]) && IsSub(a + [x], b + [x])
  {
    assert (b + [x])[..|b|] == b && (a + [x])[..|a|] == a;
  }

  lemma {:induction false} SubTransitive<T>(a: seq<T>, b: seq<T>, c: seq<T>)
    requires IsSub(a, b) && IsSub(b, c)
    ensures IsSub(a, c)
    decreases |c|
  {
    if a != [] && b != [] {
      var n := |c| - 1;
      if IsSub(b, c[..n]) {
        SubTransitive(a, b, c[..n]);
      } else if IsSub(a, b[..|b| - 1]) {
        SubTransitive(a, b[..|b| - 1], c[..n]);
      } else {
        SubTransitive(a[..|a| - 1], b[..|b| - 1], c[..n]);
      }
    }
  }

  lemma {:induction false} SubDropLast<T>(a: seq<T>, x: T, b: seq<T>)
    requires IsSub(a + [x], b)
    ensures IsSub(a, b)
    decreases |b|
  {
    var n := |b| - 1;
    if IsSub(a + [x], b[..n]) {
      SubDropLast(a, x, b[..n]);
    } else {
      assert (a + [x])[..|a|] == a;
    }
  }

  lemma {:induction false} PrefixSub<T>(a: seq<T>, more: seq<T>, b: seq<T>)
    requires IsSub(a + more, b)
    ensures IsSub(a, b)
    decreases |more|
  {
    if more == [] {
      assert a + more == a;
    } else {
      var n := |more| - 1;
      assert a + more == (a + more[..n]) + [more[n]];
      SubDropLast(a + more[..n], more[n], b);
      PrefixSub(a, more[..n], b);
    }
  }

  function OfStream(rows: seq<Tagged>, i: nat): seq<Row>
    decreases |rows|
  {
    if rows == [] then []
    else
      var before, last := OfStream(rows[..|rows| - 1], i), rows[|rows| - 1];
      if last.0 == i then before + [last.1] else before
  }

  function LinesOf(lines: seq<Shown>, i: nat): seq<LogEvent>
    decreases |lines|
  {
    if lines == [] then []
    else
      var before, last := LinesOf(lines[..|lines| - 1], i), lines[|lines| - 1];
      if last.0 == i then before + [last.1] else before
  }

  /** The lines the pipeline makes of rows. */
  function Displayed(c: Config, rows: seq<Tagged>): seq<Shown>
    decreases |rows|
  {
    if rows == [] then []
    else
      var before, last := Displayed(c, rows[..|rows| - 1]), rows[|rows| - 1];
      if c.show(last.1).None? then before else before + [(last.0, c.show(last.1).value)]
  }

  /** The same for rows of one stream. */
  function Lines(c: Config, rows: seq<Row>): seq<LogEvent>
    decreases |rows|
  {
    if rows == [] then []
    else
      var before, shown := Lines(c, rows[..|rows| - 1]), c.show(rows[|rows| - 1]);
      if shown.None? then before else before + [shown.value]
  }

  function Events(rows: seq<Row>): seq<LogEvent>
    decreases |rows|
  {
    if rows == [] then []
    else
      var before, last := Events(rows[..|rows| - 1]), rows[|rows| - 1];
      if last.Ok? then before + [last.event] else before
  }

  /** The pipeline of these options. */
  ghost predicate Runs(c: Config, libs: Libraries, d: Display, exit: ExitOn) {
    && (forall r :: c.show(r) == if r.Ok? then ShownEvent(libs, d, r.event) else None)
    && (forall r :: c.fires(r) == Triggers(libs, d, exit, r))
  }

  /** Then the lines are what the staged pipeline puts out, errors aside. */
  lemma {:induction false} LinesAreOutput(c: Config, libs: Libraries, d: Display, exit: ExitOn, rows: seq<Row>)
    requires Runs(c, libs, d, exit)
    ensures Lines(c, rows) == Events(EachRow(rows, ShownRow(libs, d)))
    decreases |rows|
  {
    if rows != [] {
      var before := rows[..|rows| - 1];
      LinesAreOutput(c, libs, d, exit, before);
      var out, last := EachRow(before, ShownRow(libs, d)), ShownRow(libs, d)(rows[|rows| - 1]);
      if last.Some? { assert (out + [last.value])[..|out|] == out; }
    }
  }

  lemma DisplayedAppend(c: Config, rows: seq<Tagged>, row: Tagged)
    ensures Displayed(c, rows + [row])
            == if c.show(row.1).None? then Displayed(c, rows) else Displayed(c, rows) + [(row.0, c.show(row.1).value)]
  {
    assert (rows + [row])[..|rows|] == rows;
  }

  lemma OfStreamAppend(rows: seq<Tagged>, i: nat, row: Row, j: nat)
    ensures OfStream(rows + [(i, row)], j) == if i == j then OfStream(rows, j) + [row] else OfStream(rows, j)
  {
    assert (rows + [(i, row)])[..|rows|] == rows;
  }

  lemma {:induction false} DisplayedOf(c: Config, rows: seq<Tagged>, i: nat)
    ensures LinesOf(Displayed(c, rows), i) == Lines(c, OfStream(rows, i))
    decreases |rows|
  {
    if rows != [] {
      var before, last := rows[..|rows| - 1], rows[|rows| - 1];
      DisplayedOf(c, before, i);
      var shown, lines := c.show(last.1), Displayed(c, before);
      if shown.Some? { assert (lines + [(last.0, shown.value)])[..|lines|] == lines; }
      if last.0 == i { assert (OfStream(before, i) + [last.1])[..|OfStream(before, i)|] == OfStream(before, i); }
    }
  }

  lemma {:induction false} SubOfStream(a: seq<Tagged>, b: seq<Tagged>, i: nat)
    requires IsSub(a, b)
    ensures IsSub(OfStream(a, i), OfStream(b, i))
    decreases |b|
  {
    if a != [] {
      var n, last := |b| - 1, b[|b| - 1];
      if IsSub(a, b[..n]) {
        SubOfStream(a, b[..n], i);
        SubAppend(OfStream(a, i), OfStream(b[..n], i), last.1);
      } else {
        SubOfStream(a[..|a| - 1], b[..n], i);
        SubAppend(OfStream(a[..|a| - 1], i), OfStream(b[..n], i), last.1);
      }
    }
  }

  lemma {:induction false} SubLinesOf(a: seq<Shown>, b: seq<Shown>, i: nat)
    requires IsSub(a, b)
    ensures IsSub(LinesOf(a, i), LinesOf(b, i))
    decreases |b|
  {
    if a != [] {
      var n, last := |b| - 1, b[|b| - 1];
      if IsSub(a, b[..n]) {
        SubLinesOf(a, b[..n], i);
        SubAppend(LinesOf(a, i), LinesOf(b[..n], i), last.1);
      } else {
        SubLinesOf(a[..|a| - 1], b[..n], i);
        SubAppend(LinesOf(a[..|a| - 1], i), LinesOf(b[..n], i), last.1);
      }
    }
  }

  lemma {:induction false} SubLines(c: Config, a: seq<Row>, b: seq<Row>)
    requires IsSub(a, b)
    ensures IsSub(Lines(c, a), Lines(c, b))
    decreases |b|
  {
    if a != [] {
      var n, shown := |b| - 1, c.show(b[|b| - 1]);
      if IsSub(a, b[..n]) {
        SubLines(c, a, b[..n]);
        if shown.Some? { SubAppend(Lines(c, a), Lines(c, b[..n]), shown.value); }
      } else {
        SubLines(c, a[..|a| - 1], b[..n]);
        if shown.Some? { SubAppend(Lines(c, a[..|a| - 1]), Lines(c, b[..n]), shown.value); }
      }
    }
  }

  // ---- Conservation ----

  function InHand<T>(m: Mover<T>): (r: seq<T>)
    ensures |r| <= 1
  {
    match m
    case Looping => []
    case Holding(x) => [x]
    case Stopped(lost) => if lost.Some? then [lost.value] else []
  }

  /** What went through a channel, what waits there, and what is in hand in front of it. */
  function Along<T>(through: seq<T>, waiting: seq<T>, m: Mover<T>): seq<T> {
    through + waiting + InHand(m)
  }

  /** Rows the mux task has not dropped. */
  function Kept(s: State): seq<Tagged> {
    Along(s.taken, s.raw, s.mux)
  }

  /** Lines the forward task has not dropped. */
  function Carried(s: State): seq<Shown> {
    Along(s.forwarded, [], s.forward)
  }

  /** `kept` is `source` but for `dropped` elements; without loss it is all of it. */
  ghost predicate Tier<T>(kept: seq<T>, source: seq<T>, dropped: nat, lossy: bool) {
    |source| == dropped + |kept| && IsSub(kept, source) && (!lossy ==> dropped == 0 && kept == source)
  }

  lemma TierGrows<T>(kept: seq<T>, source: seq<T>, dropped: nat, lossy: bool, x: T)
    requires Tier(kept, source, dropped, lossy)
    ensures Tier(kept + [x], source + [x], dropped, lossy)
    ensures lossy ==> Tier(kept, source + [x], dropped + 1, lossy)
  {
    SubAppend(kept, source, x);
  }

  ghost predicate RawTier(c: Config, s: State) {
    Tier(Kept(s), s.polled, s.muxDropped, c.muxLossy)
  }

  ghost predicate RenderTier(c: Config, s: State) {
    Tier(Carried(s), Displayed(c, s.taken), s.dropped, c.renderLossy)
  }

  /** What was polled off each stream is its beginning, in order. */
  ghost predicate InOrder(c: Config, s: State) {
    forall i: nat :: Pos(s, i) <= |c.script(i)| && OfStream(s.polled, i) == c.script(i)[..Pos(s, i)]
  }

  predicate WithinCaps(c: Config, s: State) {
    && |s.cmds| <= c.cmdCap && |s.raw| <= c.rawCap && |s.render| <= c.renderCap
  }

  ghost predicate Flow(c: Config, s: State) {
    RawTier(c, s) && RenderTier(c, s) && InOrder(c, s) && WithinCaps(c, s)
  }

  /** The step leaves the rows and lines where they are, or moves them on. */
  predicate Moves(s: State, t: State) {
    && t.polled == s.polled && t.muxDropped == s.muxDropped && Kept(t) == Kept(s) && t.pos == s.pos
    && t.taken == s.taken && t.dropped == s.dropped && Carried(t) == Carried(s)
  }

  lemma MovingKeeps(c: Config, s: State, t: State)
    requires RawTier(c, s) && RenderTier(c, s) && InOrder(c, s) && Moves(s, t)
    ensures RawTier(c, t) && RenderTier(c, t) && InOrder(c, t)
  {
    forall i: nat ensures Pos(t, i) <= |c.script(i)| && OfStream(t.polled, i) == c.script(i)[..Pos(t, i)] {
      assert Pos(t, i) == Pos(s, i);
    }
  }

  lemma PollInOrder(c: Config, s: State, t: State, i: nat)
    requires InOrder(c, s) && Pos(s, i) < |c.script(i)|
    requires t.pos == s.pos[i := Pos(s, i) + 1] && t.polled == s.polled + [(i, c.script(i)[Pos(s, i)])]
    ensures InOrder(c, t)
  {
    forall j: nat ensures Pos(t, j) <= |c.script(j)| && OfStream(t.polled, j) == c.script(j)[..Pos(t, j)] {
      assert Pos(s, j) <= |c.script(j)| && OfStream(s.polled, j) == c.script(j)[..Pos(s, j)];
      OfStreamAppend(s.polled, i, c.script(i)[Pos(s, i)], j);
    }
  }

  /** The row reaches the raw tier, or is dropped there. */
  predicate Rises(s: State, t: State, row: Tagged) {
    && t.polled == s.polled + [row]
    && (if t.muxDropped == s.muxDropped then Kept(t) == Kept(s) + [row]
        else t.muxDropped == s.muxDropped + 1 && Kept(t) == Kept(s))
    && t.taken == s.taken && t.dropped == s.dropped && Carried(t) == Carried(s)
  }

  lemma RowHeldOrQueued(s: State, row: Tagged)
    requires s.mux.Looping?
    ensures Rises(s, Polled(s, row).(mux := Holding(row)), row)
    ensures Rises(s, Polled(s, row).(raw := s.raw + [row]), row)
  {
    assert Kept(s) == s.taken + s.raw;
    assert Kept(Polled(s, row).(raw := s.raw + [row])) == Kept(s) + [row];
  }

  lemma RowLostOrDropped(s: State, row: Tagged)
    requires s.mux.Looping?
    ensures Rises(s, MuxStops(Polled(s, row), Some(row)), row)
    ensures Rises(s, Polled(s, row).(muxDropped := s.muxDropped + 1), row)
  {
    assert Kept(s) == s.taken + s.raw;
  }

  lemma PollRises(c: Config, s: State, row: Tagged)
    requires s.mux.Looping?
    ensures Rises(s, PollRow(c, s, row), row) && (!c.muxLossy ==> PollRow(c, s, row).muxDropped == s.muxDropped)
  {
    RowHeldOrQueued(s, row);
    RowLostOrDropped(s, row);
  }

  lemma PollKeepsCaps(c: Config, s: State, row: Tagged)
    requires s.mux.Looping? && WithinCaps(c, s)
    ensures WithinCaps(c, PollRow(c, s, row)) && PollRow(c, s, row).pos == s.pos[row.0 := Pos(s, row.0) + 1]
  {
    var next := Polled(s, row);
    assert WithinCaps(c, next) && next.pos == s.pos[row.0 := Pos(s, row.0) + 1];
    if !c.muxLossy {
    } else if s.forward.Stopped? {
      assert PollRow(c, s, row) == MuxStops(next, Some(row));
    } else if |s.raw| < c.rawCap {
    }
  }

  lemma RisingKeeps(c: Config, s: State, t: State, row: Tagged)
    requires RawTier(c, s) && RenderTier(c, s) && Rises(s, t, row)
    requires !c.muxLossy ==> t.muxDropped == s.muxDropped
    ensures RawTier(c, t) && RenderTier(c, t)
  {
    TierGrows(Kept(s), s.polled, s.muxDropped, c.muxLossy, row);
  }

  lemma CommandMoves(s: State, k: SourceKey, i: nat)
    ensures Moves(s, AddStream(s, k, i)) && Moves(s, RemoveStream(s, k))
  {
  }

  lemma StopMoves(s: State)
    requires !s.mux.Stopped?
    ensures Moves(s, MuxStops(s, if s.mux.Holding? then Some(s.mux.item) else None))
  {
  }

  lemma MuxMoves(c: Config, s: State, a: Action)
    requires MuxEnabled(c, s, a) && !a.MuxPoll?
    ensures Moves(s, MuxDo(c, s, a))
  {
    match a
    case MuxCommand => CommandMoves(s, s.cmds[0].key, if s.cmds[0].Add? then s.cmds[0].stream else 0);
    case MuxSend => assert Kept(MuxDo(c, s, MuxSend)) == Kept(s);
    case MuxPollEnd(_) =>
    case _ => StopMoves(s);
  }

  lemma MuxKeepsCaps(c: Config, s: State, a: Action)
    requires WithinCaps(c, s) && MuxEnabled(c, s, a) && !a.MuxPoll?
    ensures WithinCaps(c, MuxDo(c, s, a))
  {
  }

  lemma PollKeeps(c: Config, s: State, t: State, i: nat)
    requires Flow(c, s) && Pos(s, i) < |c.script(i)|
    requires var row := (i, c.script(i)[Pos(s, i)]);
             Rises(s, t, row) && (!c.muxLossy ==> t.muxDropped == s.muxDropped) && WithinCaps(c, t)
             && t.pos == s.pos[i := Pos(s, i) + 1]
    ensures Flow(c, t)
  {
    RisingKeeps(c, s, t, (i, c.script(i)[Pos(s, i)]));
    PollInOrder(c, s, t, i);
  }

  lemma MuxKeeps(c: Config, s: State, a: Action)
    requires Flow(c, s) && MuxEnabled(c, s, a)
    ensures Flow(c, MuxDo(c, s, a))
  {
    if a.MuxPoll? {
      var i := s.streams[a.key];
      PollRises(c, s, (i, c.script(i)[Pos(s, i)]));
      PollKeepsCaps(c, s, (i, c.script(i)[Pos(s, i)]));
      PollKeeps(c, s, MuxDo(c, s, a), i);
    } else {
      MuxKeepsCaps(c, s, a);
      MuxMoves(c, s, a);
      MovingKeeps(c, s, MuxDo(c, s, a));
    }
  }

  /** The line reaches the render tier, or is dropped there. */
  predicate Offered(s: State, t: State, line: Option<Shown>) {
    && t.polled == s.polled && t.muxDropped == s.muxDropped && Kept(t) == Kept(s) && t.pos == s.pos
    && (if t.dropped != s.dropped then line.Some? && t.dropped == s.dropped + 1 && Carried(t) == Carried(s)
        else Carried(t) == if line.Some? then Carried(s) + [line.value] else Carried(s))
  }

  function LineOf(c: Config, row: Tagged): Option<Shown> {
    if c.show(row.1).None? then None else Some((row.0, c.show(row.1).value))
  }

  lemma TakenMoves(c: Config, s: State)
    requires s.raw != []
    ensures Offered(s, Taken(c, s), None)
    ensures Taken(c, s).taken == s.taken + [s.raw[0]] && Taken(c, s).forward == s.forward
    ensures Taken(c, s).dropped == s.dropped
  {
    assert s.raw == [s.raw[0]] + s.raw[1..];
  }

  lemma OfferMoves(c: Config, s: State, line: Shown)
    requires s.forward.Looping?
    ensures Offered(s, Offer(c, s, line), Some(line)) && Offer(c, s, line).taken == s.taken
    ensures !c.renderLossy ==> Offer(c, s, line).dropped == s.dropped
  {
    assert Carried(s) == s.forwarded;
    if !c.renderLossy {
      assert Carried(Offer(c, s, line)) == s.forwarded + [line];
    } else if s.renderOpen && |s.render| < c.renderCap {
      assert Carried(Offer(c, s, line)) == s.forwarded + [line];
    }
  }

  lemma TakeOffers(c: Config, s: State)
    requires s.forward.Looping? && s.raw != []
    ensures Offered(s, TakeRow(c, s), LineOf(c, s.raw[0]))
    ensures !c.renderLossy ==> TakeRow(c, s).dropped == s.dropped
    ensures TakeRow(c, s).taken == s.taken + [s.raw[0]]
  {
    TakenMoves(c, s);
    if LineOf(c, s.raw[0]).Some? { OfferMoves(c, Taken(c, s), LineOf(c, s.raw[0]).value); }
  }

  lemma OfferingKeeps(c: Config, s: State, t: State, row: Tagged)
    requires RawTier(c, s) && RenderTier(c, s) && InOrder(c, s) && Offered(s, t, LineOf(c, row))
    requires !c.renderLossy ==> t.dropped == s.dropped
    requires t.taken == s.taken + [row]
    ensures RawTier(c, t) && RenderTier(c, t) && InOrder(c, t)
  {
    DisplayedAppend(c, s.taken, row);
    if LineOf(c, row).Some? {
      TierGrows(Carried(s), Displayed(c, s.taken), s.dropped, c.renderLossy, LineOf(c, row).value);
    }
    forall i: nat ensures Pos(t, i) <= |c.script(i)| && OfStream(t.polled, i) == c.script(i)[..Pos(t, i)] {
      assert Pos(t, i) == Pos(s, i);
    }
  }

  lemma ForwardMoves(c: Config, s: State, a: Action)
    requires ForwardEnabled(c, s, a) && !a.Take?
    ensures Moves(s, ForwardDo(c, s, a))
  {
    assert Kept(ForwardDo(c, s, a)) == Kept(s);
  }

  lemma ForwardKeepsCaps(c: Config, s: State, a: Action)
    requires WithinCaps(c, s) && ForwardEnabled(c, s, a)
    ensures WithinCaps(c, ForwardDo(c, s, a))
  {
  }

  lemma ForwardKeeps(c: Config, s: State, a: Action)
    requires Flow(c, s) && ForwardEnabled(c, s, a)
    ensures Flow(c, ForwardDo(c, s, a))
  {
    ForwardKeepsCaps(c, s, a);
    if a.Take? {
      TakeOffers(c, s);
      OfferingKeeps(c, s, TakeRow(c, s), s.raw[0]);
    } else {
      ForwardMoves(c, s, a);
      MovingKeeps(c, s, ForwardDo(c, s, a));
    }
  }

  lemma TaskMoves(c: Config, s: State, a: Action)
    requires TaskEnabled(c, s, a)
    ensures Moves(s, TaskDo(c, s, a))
  {
  }

  lemma TaskKeeps(c: Config, s: State, a: Action)
    requires Flow(c, s) && TaskEnabled(c, s, a)
    ensures Flow(c, TaskDo(c, s, a))
  {
    TaskMoves(c, s, a);
    MovingKeeps(c, s, TaskDo(c, s, a));
    TaskKeepsCaps(c, s, a);
  }

  lemma TaskKeepsCaps(c: Config, s: State, a: Action)
    requires WithinCaps(c, s) && TaskEnabled(c, s, a)
    ensures WithinCaps(c, TaskDo(c, s, a))
  {
  }

  lemma StepKeeps(c: Config, s: State, a: Action)
    requires Flow(c, s) && Enabled(c, s, a)
    ensures Flow(c, Do(c, s, a))
  {
    if TaskEnabled(c, s, a) {
      TaskKeeps(c, s, a);
    } else if MuxEnabled(c, s, a) {
      MuxKeeps(c, s, a);
    } else {
      ForwardKeeps(c, s, a);
    }
  }

  lemma {:induction false} RunKeeps(c: Config, s: State, actions: seq<Action>)
    requires Flow(c, s) && IsRun(c, s, actions)
    ensures Flow(c, After(c, s, actions))
    decreases |actions|
  {
    if actions != [] {
      StepKeeps(c, s, actions[0]);
      RunKeeps(c, Do(c, s, actions[0]), actions[1..]);
    }
  }

  /** In every reachable state of every run, cancelled or not: no row is lost uncounted on the way into the raw
      channel and no line on the way to the display, apart from at most one in hand at each; and what is displayed of
      each stream is, in order, a part of the display of what the stream has yielded so far. */
  lemma NothingUncountedNothingReordered(c: Config, actions: seq<Action>, i: nat)
    requires IsRun(c, START, actions)
    ensures var s := After(c, START, actions);
            && |s.polled| == s.muxDropped + |s.raw| + |s.taken| + |InHand(s.mux)|
            && |Displayed(c, s.taken)| == s.dropped + |s.forwarded| + |InHand(s.forward)|
            && Pos(s, i) <= |c.script(i)| && OfStream(s.polled, i) == c.script(i)[..Pos(s, i)]
            && IsSub(OfStream(s.taken, i), c.script(i)[..Pos(s, i)])
            && IsSub(LinesOf(s.forwarded, i), Lines(c, c.script(i)[..Pos(s, i)]))
  {
    RunKeeps(c, START, actions);
    var s := After(c, START, actions);
    KeptSub(c, s);
    SubOfStream(s.taken, s.polled, i);
    CarriedSub(c, s);
    SubLinesOf(s.forwarded, Displayed(c, s.taken), i);
    DisplayedOf(c, s.taken, i);
    SubLines(c, OfStream(s.taken, i), OfStream(s.polled, i));
    SubTransitive(LinesOf(s.forwarded, i), Lines(c, OfStream(s.taken, i)), Lines(c, OfStream(s.polled, i)));
  }

  lemma KeptSub(c: Config, s: State)
    requires RawTier(c, s)
    ensures IsSub(s.taken, s.polled)
  {
    assert IsSub(s.taken + (s.raw + InHand(s.mux)), s.polled) by {
      assert Kept(s) == s.taken + (s.raw + InHand(s.mux));
    }
    PrefixSub(s.taken, s.raw + InHand(s.mux), s.polled);
  }

  lemma CarriedSub(c: Config, s: State)
    requires RenderTier(c, s)
    ensures IsSub(s.forwarded, Displayed(c, s.taken))
  {
    assert Carried(s) == s.forwarded + InHand(s.forward);
    PrefixSub(s.forwarded, InHand(s.forward), Displayed(c, s.taken));
  }

  /** With both tiers blocking nothing is dropped, and what is displayed is a beginning of the display of what was
      polled. */
  lemma BlockingDropsNothing(c: Config, actions: seq<Action>)
    requires IsRun(c, START, actions) && !c.muxLossy && !c.renderLossy
    ensures var s := After(c, START, actions);
            s.muxDropped == 0 && s.dropped == 0 && s.taken <= s.polled && s.forwarded <= Displayed(c, s.polled)
  {
    RunKeeps(c, START, actions);
    BlockedTiers(c, After(c, START, actions));
  }

  lemma BlockedTiers(c: Config, s: State)
    requires RawTier(c, s) && RenderTier(c, s) && !c.muxLossy && !c.renderLossy
    ensures s.muxDropped == 0 && s.dropped == 0 && s.taken <= s.polled && s.forwarded <= Displayed(c, s.polled)
  {
    assert s.polled == s.taken + (s.raw + InHand(s.mux));
    DisplayedGrows(c, s.taken, s.raw + InHand(s.mux));
  }

  lemma {:induction false} DisplayedGrows(c: Config, rows: seq<Tagged>, more: seq<Tagged>)
    ensures Displayed(c, rows) <= Displayed(c, rows + more)
    decreases |more|
  {
    if more == [] {
      assert rows + more == rows;
    } else {
      var n := |more| - 1;
      DisplayedGrows(c, rows, more[..n]);
      assert (rows + more)[..|rows + more| - 1] == rows + more[..n];
    }
  }

  // ---- A run that does not follow ----

  /** So far the run was not cancelled and the display is there. */
  predicate Undisturbed(s: State) {
    !s.cancelled && s.renderOpen
  }

  predicate Lossless(c: Config) {
    !c.follow && !c.muxLossy && !c.renderLossy
  }

  predicate Queued(cmds: seq<MuxCmd>, i: nat) {
    exists j :: 0 <= j < |cmds| && cmds[j].Add? && cmds[j].stream == i
  }

  ghost predicate QueueOk(c: Config, s: State) {
    && (forall j :: 0 <= j < |s.cmds| ==>
          s.cmds[j].Add? && s.cmds[j].stream in s.begun && s.cmds[j].key == c.key(s.cmds[j].stream))
    && (forall j, l :: 0 <= j < l < |s.cmds| ==> s.cmds[j].stream != s.cmds[l].stream)
    && (forall k :: k in s.streams ==> s.streams[k] in s.begun && c.key(s.streams[k]) == k)
  }

  predicate InMap(c: Config, s: State, i: nat) {
    c.key(i) in s.streams && s.streams[c.key(i)] == i
  }

  ghost predicate TasksOk(c: Config, s: State) {
    && s.cut == {} && s.begun <= s.tasks.Keys
    && (forall t :: t in s.tasks ==>
          match s.tasks[t]
          case Starting => t !in s.begun
          case Returned => true
          case Sending(i) => i == t && t in s.begun
          case Awaiting(i) => i == t && t in s.begun)
    && (forall t, u :: t in s.tasks && u in s.tasks && t != u ==> c.key(t) != c.key(u))
  }

  /** An opened stream is with its task, queued, in the map or ended: in one of these places, and at its end when it has
      ended. */
  ghost predicate PlaceOk(c: Config, s: State, i: nat)
    requires i in s.tasks
  {
    && (s.tasks[i].Sending? ==> !Queued(s.cmds, i) && !InMap(c, s, i) && i !in s.ended)
    && (!s.tasks[i].Sending? ==> Queued(s.cmds, i) || InMap(c, s, i) || i in s.ended)
    && (Queued(s.cmds, i) ==> !InMap(c, s, i))
    && (i in s.ended ==> !Queued(s.cmds, i) && !InMap(c, s, i) && |c.script(i)| <= Pos(s, i))
    && (s.tasks[i] == Returned ==> i in s.ended)
  }

  ghost predicate StopsOk(s: State) {
    && (s.mux.Stopped? ==> s.mux.lost.None? && s.cmds == [] && !Senders(s))
    && (s.forward.Stopped? ==> s.forward.lost.None? && s.raw == [] && s.mux.Stopped?)
    && (forall x :: x in s.polled ==> x.0 in s.begun)
    && s.ended <= s.begun
  }

  ghost predicate Quiet(c: Config, s: State) {
    && QueueOk(c, s) && TasksOk(c, s) && StopsOk(s)
    && (forall i :: i in s.begun ==> PlaceOk(c, s, i))
  }

  lemma DisturbedStays(c: Config, s: State, a: Action)
    requires Enabled(c, s, a) && Undisturbed(Do(c, s, a))
    ensures Undisturbed(s)
  {
    if TaskEnabled(c, s, a) {
      TaskStaysDisturbed(c, s, a);
    } else if MuxEnabled(c, s, a) {
      MuxStaysDisturbed(c, s, a);
    }
  }

  lemma TaskStaysDisturbed(c: Config, s: State, a: Action)
    requires TaskEnabled(c, s, a)
    ensures Undisturbed(TaskDo(c, s, a)) == Undisturbed(s)
  {
  }

  lemma MuxStaysDisturbed(c: Config, s: State, a: Action)
    requires MuxEnabled(c, s, a)
    ensures Undisturbed(MuxDo(c, s, a)) == Undisturbed(s)
  {
  }

  lemma TaskKeepsQuiet(c: Config, s: State, a: Action)
    requires Lossless(c) && Quiet(c, s) && Undisturbed(s) && TaskEnabled(c, s, a)
    ensures Quiet(c, TaskDo(c, s, a))
  {
    if a.SendAdd? {
      SendAddKeepsQuiet(c, s, a.task);
      return;
    }
    var t := TaskDo(c, s, a);
    forall i | i in t.begun ensures PlaceOk(c, t, i) {
      if i in s.begun { assert PlaceOk(c, s, i); }
      if a.OpenOk? && i == a.task { NewStreamIsNowhere(c, s, i); }
    }
  }

  lemma SendAddKeepsQuiet(c: Config, s: State, task: nat)
    requires Lossless(c) && Quiet(c, s) && TaskEnabled(c, s, SendAdd(task))
    ensures Quiet(c, TaskDo(c, s, SendAdd(task)))
  {
    var t := TaskDo(c, s, SendAdd(task));
    assert t.cmds[|s.cmds|] == Add(c.key(task), s.tasks[task].stream);
    assert forall j :: 0 <= j < |s.cmds| ==> t.cmds[j] == s.cmds[j];
    forall i | i in t.begun ensures PlaceOk(c, t, i) {
      assert PlaceOk(c, s, i);
    }
  }

  lemma NewStreamIsNowhere(c: Config, s: State, i: nat)
    requires QueueOk(c, s) && i !in s.begun
    ensures !Queued(s.cmds, i) && !InMap(c, s, i)
  {
  }

  lemma MapStreams(c: Config, s: State)
    requires Quiet(c, s)
    ensures forall k :: k in s.streams ==>
              && s.streams[k] in s.tasks && c.key(s.streams[k]) == k
              && s.streams[k] !in s.ended && !Queued(s.cmds, s.streams[k])
  {
    forall k | k in s.streams ensures s.streams[k] !in s.ended && !Queued(s.cmds, s.streams[k]) {
      assert PlaceOk(c, s, s.streams[k]) && InMap(c, s, s.streams[k]);
    }
  }

  /** A key that is added is never in the map: its only task has just handed over its only stream. */
  lemma NothingReplaced(c: Config, s: State)
    requires Quiet(c, s) && s.cmds != []
    ensures s.cmds[0].Add? && s.cmds[0].key !in s.streams && s.cmds[0].stream in s.begun
  {
    var Add(k, i) := s.cmds[0];
    assert Queued(s.cmds, i) && i in s.tasks;
    MapStreams(c, s);
  }

  lemma AddKeepsQuiet(c: Config, s: State)
    requires Quiet(c, s) && s.cmds != []
    ensures s.cmds[0].Add? && Quiet(c, AddStream(s, s.cmds[0].key, s.cmds[0].stream))
  {
    NothingReplaced(c, s);
    var Add(k, i) := s.cmds[0];
    var t := AddStream(s, k, i);
    forall j | j in t.begun ensures PlaceOk(c, t, j) {
      assert PlaceOk(c, s, j);
      FirstQueued(s.cmds, j);
    }
  }

  lemma FirstQueued(cmds: seq<MuxCmd>, j: nat)
    requires cmds != [] && cmds[0].Add?
    ensures Queued(cmds, j) <==> j == cmds[0].stream || Queued(cmds[1..], j)
  {
    if Queued(cmds, j) && j != cmds[0].stream {
      var l :| 0 <= l < |cmds| && cmds[l].Add? && cmds[l].stream == j;
      assert cmds[1..][l - 1] == cmds[l];
    }
  }

  /** When the command channel is found closed, every stream has been polled to its end. */
  lemma ClosedIsLast(c: Config, s: State)
    requires Quiet(c, s) && s.cmds == [] && !Senders(s)
    ensures s.streams == map[] && forall i :: i in s.begun ==> i in s.ended && |c.script(i)| <= Pos(s, i)
  {
    forall i | i in s.begun ensures i in s.ended && |c.script(i)| <= Pos(s, i) {
      assert PlaceOk(c, s, i) && s.tasks[i] == Returned;
    }
    MapStreams(c, s);
  }

  /** In runs: as long as nothing disturbs a lossless run, an add meets no stream under its key, and when the mux finds
      its command channel closed, every stream that was opened has been polled to its end. */
  lemma RunsCloseLast(c: Config, actions: seq<Action>)
    requires Lossless(c) && IsRun(c, START, actions) && Undisturbed(After(c, START, actions))
    ensures var s := After(c, START, actions);
            && (s.cmds != [] ==> s.cmds[0].Add? && s.cmds[0].key !in s.streams)
            && (s.cmds == [] && !Senders(s) ==>
                  s.streams == map[] && forall i :: i in s.begun ==> i in s.ended && |c.script(i)| <= Pos(s, i))
  {
    RunKeepsQuiet(c, START, actions);
    var s := After(c, START, actions);
    if s.cmds != [] { NothingReplaced(c, s); }
    if s.cmds == [] && !Senders(s) { ClosedIsLast(c, s); }
  }

  lemma PollKeepsQuiet(c: Config, s: State, i: nat, row: Row)
    requires Lossless(c) && Quiet(c, s) && s.mux.Looping? && i in s.begun
    ensures Quiet(c, PollRow(c, s, (i, row)))
  {
    var t := PollRow(c, s, (i, row));
    forall j | j in t.begun ensures PlaceOk(c, t, j) { assert PlaceOk(c, s, j); }
  }

  lemma EndKeepsQuiet(c: Config, s: State, k: SourceKey)
    requires Quiet(c, s) && s.mux.Looping? && k in s.streams && |c.script(s.streams[k])| <= Pos(s, s.streams[k])
    ensures Quiet(c, s.(streams := s.streams - {k}, ended := s.ended + {s.streams[k]}))
  {
    var t := s.(streams := s.streams - {k}, ended := s.ended + {s.streams[k]});
    MapStreams(c, s);
    forall j | j in t.begun ensures PlaceOk(c, t, j) {
      assert PlaceOk(c, s, j);
    }
  }

  lemma MuxKeepsQuiet(c: Config, s: State, a: Action)
    requires Lossless(c) && Flow(c, s) && Quiet(c, s) && Undisturbed(s) && MuxEnabled(c, s, a)
    ensures Quiet(c, MuxDo(c, s, a))
  {
    match a
    case MuxCommand => AddKeepsQuiet(c, s);
    case MuxPoll(k) => PollKeepsQuiet(c, s, s.streams[k], c.script(s.streams[k])[Pos(s, s.streams[k])]);
    case MuxPollEnd(k) => EndKeepsQuiet(c, s, k);
    case MuxSend => SendKeepsQuiet(c, s);
    case MuxDone =>
      ClosedIsLast(c, s);
      assert MuxDo(c, s, a) == s.(mux := Stopped(None));
      DoneKeepsQuiet(c, s);
    case MuxBreaks =>
  }

  lemma SendKeepsQuiet(c: Config, s: State)
    requires Quiet(c, s) && s.mux.Holding? && !s.forward.Stopped?
    ensures Quiet(c, s.(raw := s.raw + [s.mux.item], mux := Looping))
  {
    var t := s.(raw := s.raw + [s.mux.item], mux := Looping);
    forall j | j in t.begun ensures PlaceOk(c, t, j) { assert PlaceOk(c, s, j); }
  }

  lemma DoneKeepsQuiet(c: Config, s: State)
    requires Quiet(c, s) && s.cmds == [] && !Senders(s)
    ensures Quiet(c, s.(mux := Stopped(None)))
  {
    var t := s.(mux := Stopped(None));
    forall j | j in t.begun ensures PlaceOk(c, t, j) { assert PlaceOk(c, s, j); }
  }

  /** Where the streams are is no matter of the forward task. */
  predicate SamePlaces(s: State, t: State) {
    && t.tasks == s.tasks && t.watching == s.watching && t.begun == s.begun
    && t.cmds == s.cmds && t.streams == s.streams
    && t.pos == s.pos && t.cut == s.cut && t.ended == s.ended && t.mux == s.mux && t.polled == s.polled
  }

  lemma ForwardKeepsPlaces(c: Config, s: State, a: Action)
    requires !c.renderLossy && Undisturbed(s) && ForwardEnabled(c, s, a) && StopsOk(s)
    ensures SamePlaces(s, ForwardDo(c, s, a)) && StopsOk(ForwardDo(c, s, a))
  {
    if a.Take? { TakeKeepsPlaces(c, s); }
  }

  lemma TakeKeepsPlaces(c: Config, s: State)
    requires !c.renderLossy && ForwardEnabled(c, s, Take) && StopsOk(s)
    ensures SamePlaces(s, TakeRow(c, s)) && StopsOk(TakeRow(c, s))
  {
    var taken := Taken(c, s);
    assert SamePlaces(s, taken) && taken.forward == s.forward;
  }

  lemma ForwardKeepsQuiet(c: Config, s: State, t: State)
    requires Quiet(c, s) && SamePlaces(s, t) && StopsOk(t)
    ensures Quiet(c, t)
  {
    forall j | j in t.begun ensures PlaceOk(c, t, j) { assert PlaceOk(c, s, j); }
  }

  lemma {:induction false} RunKeepsQuiet(c: Config, s: State, actions: seq<Action>)
    requires Lossless(c) && Flow(c, s) && Quiet(c, s) && IsRun(c, s, actions) && Undisturbed(After(c, s, actions))
    ensures Quiet(c, After(c, s, actions)) && Undisturbed(s)
    decreases |actions|
  {
    if actions != [] {
      var a := actions[0];
      StepKeeps(c, s, a);
      UndisturbedBefore(c, Do(c, s, a), actions[1..]);
      DisturbedStays(c, s, a);
      if TaskEnabled(c, s, a) { TaskKeepsQuiet(c, s, a); }
      else if MuxEnabled(c, s, a) { MuxKeepsQuiet(c, s, a); }
      else {
        ForwardKeepsPlaces(c, s, a);
        ForwardKeepsQuiet(c, s, Do(c, s, a));
      }
      RunKeepsQuiet(c, Do(c, s, a), actions[1..]);
    }
  }

  lemma {:induction false} UndisturbedBefore(c: Config, s: State, actions: seq<Action>)
    requires IsRun(c, s, actions) && Undisturbed(After(c, s, actions))
    ensures Undisturbed(s)
    decreases |actions|
  {
    if actions != [] {
      UndisturbedBefore(c, Do(c, s, actions[0]), actions[1..]);
      DisturbedStays(c, s, actions[0]);
    }
  }

  /** In a run that does not follow, with blocking channels, that nothing cancels: when the forward task is done, all
      attach tasks have returned, every stream that was opened has been polled to its end, and what was put on the
      display is the pipeline's output of one interleaving of these complete streams. */
  lemma NoFollowRunIsLossless(c: Config, actions: seq<Action>)
    requires Lossless(c) && IsRun(c, START, actions)
    requires After(c, START, actions).forward.Stopped? && Undisturbed(After(c, START, actions))
    ensures var s := After(c, START, actions);
            && !Senders(s)
            && (forall i :: i in s.begun ==> OfStream(s.polled, i) == c.script(i))
            && (forall x :: x in s.polled ==> x.0 in s.begun)
            && s.forwarded == Displayed(c, s.polled)
  {
    RunKeeps(c, START, actions);
    RunKeepsQuiet(c, START, actions);
    DoneIsComplete(c, After(c, START, actions));
  }

  predicate Opened(s: State) {
    forall t :: t in s.tasks ==> s.tasks[t] == Starting || t in s.begun
  }

  lemma {:induction false} TasksOpen(c: Config, s: State, actions: seq<Action>)
    requires !c.follow && Opened(s) && IsRun(c, s, actions) && forall a :: a in actions ==> !a.OpenFails?
    ensures Opened(After(c, s, actions))
    decreases |actions|
  {
    if actions != [] {
      assert actions[0] in actions;
      OpenedStays(c, s, actions[0]);
      TasksOpen(c, Do(c, s, actions[0]), actions[1..]);
    }
  }

  lemma OpenedStays(c: Config, s: State, a: Action)
    requires !c.follow && Opened(s) && Enabled(c, s, a) && !a.OpenFails?
    ensures Opened(Do(c, s, a))
  {
    if TaskEnabled(c, s, a) {
      TaskOpenedStays(c, s, a);
    } else if MuxEnabled(c, s, a) {
      MuxLeavesTasks(c, s, a);
    } else {
      ForwardLeavesTasks(c, s, a);
    }
  }

  lemma TaskOpenedStays(c: Config, s: State, a: Action)
    requires !c.follow && Opened(s) && TaskEnabled(c, s, a) && !a.OpenFails?
    ensures Opened(TaskDo(c, s, a))
  {
  }

  lemma MuxLeavesTasks(c: Config, s: State, a: Action)
    requires MuxEnabled(c, s, a)
    ensures MuxDo(c, s, a).tasks == s.tasks && MuxDo(c, s, a).begun == s.begun
  {
    match a
    case MuxPoll(k) => PollLeavesTasks(c, s, (s.streams[k], c.script(s.streams[k])[Pos(s, s.streams[k])]));
    case MuxCommand => CommandLeavesTasks(s, s.cmds[0].key, if s.cmds[0].Add? then s.cmds[0].stream else 0);
    case MuxBreaks => StopLeavesTasks(s, if s.mux.Holding? then Some(s.mux.item) else None);
    case MuxDone => StopLeavesTasks(s, None);
    case _ =>
  }

  lemma CommandLeavesTasks(s: State, k: SourceKey, i: nat)
    ensures AddStream(s, k, i).tasks == RemoveStream(s, k).tasks == s.tasks
    ensures AddStream(s, k, i).begun == RemoveStream(s, k).begun == s.begun
  {
  }

  lemma StopLeavesTasks(s: State, lost: Option<Tagged>)
    ensures MuxStops(s, lost).tasks == s.tasks && MuxStops(s, lost).begun == s.begun
  {
  }

  lemma PollLeavesTasks(c: Config, s: State, row: Tagged)
    ensures PollRow(c, s, row).tasks == s.tasks && PollRow(c, s, row).begun == s.begun
  {
    var next := Polled(s, row);
    assert next.tasks == s.tasks && next.begun == s.begun;
  }

  lemma ForwardLeavesTasks(c: Config, s: State, a: Action)
    requires ForwardEnabled(c, s, a)
    ensures ForwardDo(c, s, a).tasks == s.tasks && ForwardDo(c, s, a).begun == s.begun
  {
    if a.Take? { TakeLeavesTasks(c, s); }
  }

  lemma TakeLeavesTasks(c: Config, s: State)
    requires s.raw != []
    ensures TakeRow(c, s).tasks == s.tasks && TakeRow(c, s).begun == s.begun
  {
    var taken := Taken(c, s);
    assert taken.tasks == s.tasks && taken.begun == s.begun;
    if c.show(s.raw[0].1).Some? {
      var offered := Offer(c, taken, (s.raw[0].0, c.show(s.raw[0].1).value));
      assert offered.tasks == taken.tasks && offered.begun == taken.begun;
    }
  }

  /** And if no open fails, these are the streams of all tasks that were ever started. */
  lemma NoFollowTasksAreComplete(c: Config, actions: seq<Action>, task: nat)
    requires Lossless(c) && IsRun(c, START, actions) && forall a :: a in actions ==> !a.OpenFails?
    requires After(c, START, actions).forward.Stopped? && Undisturbed(After(c, START, actions))
    requires task in After(c, START, actions).tasks
    ensures OfStream(After(c, START, actions).polled, task) == c.script(task)
  {
    NoFollowRunIsLossless(c, actions);
    TasksOpen(c, START, actions);
    var s := After(c, START, actions);
    assert s.tasks[task] == Returned;
  }

  lemma DoneIsComplete(c: Config, s: State)
    requires Lossless(c) && Flow(c, s) && Quiet(c, s) && s.forward.Stopped?
    ensures !Senders(s) && s.forwarded == Displayed(c, s.polled)
    ensures forall i :: i in s.begun ==> OfStream(s.polled, i) == c.script(i)
  {
    ClosedIsLast(c, s);
    NothingLeft(c, s);
    forall i | i in s.begun ensures OfStream(s.polled, i) == c.script(i) {
      assert Pos(s, i) == |c.script(i)|;
    }
  }

  lemma NothingLeft(c: Config, s: State)
    requires RawTier(c, s) && RenderTier(c, s) && Lossless(c) && StopsOk(s) && s.forward.Stopped?
    ensures s.forwarded == Displayed(c, s.polled)
  {
    assert s.forward == Stopped(None) && s.mux == Stopped(None) && s.raw == [];
    assert Kept(s) == s.taken && Carried(s) == s.forwarded;
  }

  /** So of each stream exactly the lines of its pipeline output are displayed, in order. */
  lemma NoFollowStreamIsComplete(c: Config, libs: Libraries, d: Display, exit: ExitOn, actions: seq<Action>, i: nat)
    requires Lossless(c) && Runs(c, libs, d, exit) && IsRun(c, START, actions)
    requires After(c, START, actions).forward.Stopped? && Undisturbed(After(c, START, actions))
    requires i in After(c, START, actions).begun
    ensures LinesOf(After(c, START, actions).forwarded, i) == Events(EachRow(c.script(i), ShownRow(libs, d)))
  {
    NoFollowRunIsLossless(c, actions);
    DisplayedOf(c, After(c, START, actions).polled, i);
    LinesAreOutput(c, libs, d, exit, c.script(i));
  }
}