/**
 The stages every log line passes on its way to the display, in the order the run's options put them.
 A stream is the sequence of rows it yields.
 */
module Pipeline {
  import opened Wrappers
  import opened Text
  import opened DotPath
  import opened Levels

  datatype LogEvent = LogEvent(
    pod: string,
    container: string,
    timestamp: int,
    message: string,
    structured: Option<Parsed>,
    level: Option<LogLevel>,
    paletteIndex: Option<nat>,
    containerPaletteIndex: Option<nat>)

  datatype SourceError = Eof | Api(text: string) | Cancelled
  datatype Row = Ok(event: LogEvent) | Err(error: SourceError)

  datatype FilterOn = Transformed | Original
  datatype QueryMode = Replace | Append | Filter

  /** What the JSON, query and hashing libraries compute. A query yields results and errors. */
  datatype Libraries = Libraries(
    white: char -> bool,
    parseSerde: string -> Option<Json>,
    parseJaq: string -> Option<Json>,
    toJaq: Json -> Option<Json>,
    render: Json -> string,
    palette: string -> nat)

  type Query = Json -> seq<Option<Json>>

  datatype Display = Display(
    includes: seq<Pattern>,
    excludes: seq<Pattern>,
    filterOn: FilterOn,
    jq: Option<(Query, QueryMode)>,
    levelKey: Option<string>,
    podColors: bool,
    containerColors: bool,
    diffContainer: bool)

  datatype ExitOn = ExitOn(patterns: seq<Pattern>, level: Option<ExitOnLevel>)

  // ---- Stream adaptors ----

  function EachRow(rows: seq<Row>, f: Row -> Option<Row>): seq<Row>
    decreases |rows|
  {
    if rows == [] then []
    else
      var before, last := EachRow(rows[..|rows| - 1], f), f(rows[|rows| - 1]);
      if last.None? then before else before + [last.value]
  }

  function Then(f: Row -> Option<Row>, g: Row -> Option<Row>): Row -> Option<Row> {
    (r: Row) => if f(r).None? then None else g(f(r).value)
  }

  function Same(): Row -> Option<Row> {
    r => Some(r)
  }

  lemma {:induction false} EachThen(rows: seq<Row>, f: Row -> Option<Row>, g: Row -> Option<Row>)
    ensures EachRow(EachRow(rows, f), g) == EachRow(rows, Then(f, g))
    decreases |rows|
  {
    if rows != [] {
      var before, last := rows[..|rows| - 1], f(rows[|rows| - 1]);
      EachThen(before, f, g);
      if last.Some? {
        assert EachRow(rows, f)[..|EachRow(before, f)|] == EachRow(before, f);
      }
    }
  }

  lemma {:induction false} EachSame(rows: seq<Row>, f: Row -> Option<Row>, g: Row -> Option<Row>)
    requires forall r :: f(r) == g(r)
    ensures EachRow(rows, f) == EachRow(rows, g)
    decreases |rows|
  {
    if rows != [] { EachSame(rows[..|rows| - 1], f, g); }
  }

  /** Rows pulled later only add to the output. */
  lemma {:induction false} EachAppends(rows: seq<Row>, more: seq<Row>, f: Row -> Option<Row>)
    ensures EachRow(rows + more, f) == EachRow(rows, f) + EachRow(more, f)
    decreases |more|
  {
    if more == [] {
      assert rows + more == rows;
    } else {
      EachAppends(rows, more[..|more| - 1], f);
      assert (rows + more)[..|rows + more| - 1] == rows + more[..|more| - 1];
    }
  }

  lemma EachSingle(r: Row, f: Row -> Option<Row>)
    ensures EachRow([r], f) == match f(r) case None => [] case Some(out) => [out]
    ensures EachRow([], f) == []
  {
    assert [r][..0] == [];
  }

  lemma {:induction false} EachIdentity(rows: seq<Row>, f: Row -> Option<Row>)
    requires forall r :: r in rows ==> f(r) == Some(r)
    ensures EachRow(rows, f) == rows
    decreases |rows|
  {
    if rows != [] {
      EachIdentity(rows[..|rows| - 1], f);
      assert rows == rows[..|rows| - 1] + [rows[|rows| - 1]];
    }
  }

  // ---- The stages, row by row ----

  predicate Kept(includes: seq<Pattern>, excludes: seq<Pattern>, message: string) {
    if includes != [] then AnyMatch(includes, message) else !AnyMatch(excludes, message)
  }

  function IncludeExclude(includes: seq<Pattern>, excludes: seq<Pattern>): Row -> Option<Row> {
    (r: Row) => if r.Ok? && !Kept(includes, excludes, r.event.message) then None else Some(r)
  }

  function Annotated(libs: Libraries, useJaq: bool, ev: LogEvent): LogEvent {
    var text := TrimStart(ev.message, libs.white);
    if text == "" || text[0] != '{' then ev
    else if useJaq then
      var v := libs.parseJaq(ev.message);
      if v.Some? then ev.(structured := Some(Jaq(v.value))) else ev
    else
      var v := libs.parseSerde(ev.message);
      if v.Some? then ev.(structured := Some(Serde(v.value))) else ev
  }

  function JsonAnnotate(libs: Libraries, useJaq: bool): Row -> Option<Row> {
    (r: Row) => Some(if r.Ok? then Ok(Annotated(libs, useJaq, r.event)) else r)
  }

  function Classified(key: string, ev: LogEvent): LogEvent {
    if ev.structured.None? then ev
    else
      var level := LevelStr(ev.structured.value, key);
      if level.Some? then ev.(level := Some(ClassifyStr(level.value))) else ev
  }

  function LevelClassify(key: string): Row -> Option<Row> {
    (r: Row) => Some(if r.Ok? then Ok(Classified(key, r.event)) else r)
  }

  function Results(outputs: seq<Option<Json>>): seq<Json> {
    if outputs == [] then []
    else if outputs[0].Some? then [outputs[0].value] + Results(outputs[1..])
    else Results(outputs[1..])
  }

  predicate Truthy(v: Json) {
    !v.Null? && v != Bool(false)
  }

  function Rendered(libs: Libraries, outputs: seq<Json>): (r: seq<string>)
    ensures |r| == |outputs|
  {
    seq(|outputs|, i requires 0 <= i < |outputs| => libs.render(outputs[i]))
  }

  /** One line per output. */
  method FormatOutputsJoined(libs: Libraries, outputs: seq<Json>) returns (rendered: string)
    ensures rendered == Join(Rendered(libs, outputs), '\n')
  {
    rendered := "";
    for i := 0 to |outputs|
      invariant rendered == Join(Rendered(libs, outputs[..i]), '\n')
    {
      if i > 0 { rendered := rendered + ['\n']; }
      rendered := rendered + libs.render(outputs[i]);
      assert Rendered(libs, outputs[..i + 1]) == Rendered(libs, outputs[..i]) + [libs.render(outputs[i])];
      JoinAppend(Rendered(libs, outputs[..i]), libs.render(outputs[i]), '\n');
    }
    assert outputs[..|outputs|] == outputs;
  }

  lemma {:induction false} JoinAppend(parts: seq<string>, part: string, sep: char)
    ensures Join(parts + [part], sep) == if parts == [] then part else Join(parts, sep) + [sep] + part
  {
    if |parts| == 1 {
      assert (parts + [part])[1..] == [part];
    } else if parts != [] {
      JoinAppend(parts[1..], part, sep);
      assert (parts + [part])[1..] == parts[1..] + [part];
    }
  }

  function ToJaqVal(libs: Libraries, parsed: Parsed): Option<Json> {
    match parsed
    case Jaq(v) => Some(v)
    case Serde(v) => libs.toJaq(v)
  }

  function Queried(libs: Libraries, query: Query, mode: QueryMode, ev: LogEvent): Option<LogEvent> {
    if ev.structured.None? then (if mode == Filter then None else Some(ev))
    else
      var value := ToJaqVal(libs, ev.structured.value);
      if value.None? then Some(ev)
      else
        var outputs := Results(query(value.value));
        var text := Join(Rendered(libs, outputs), '\n');
        match mode
        case Filter => if exists i :: 0 <= i < |outputs| && Truthy(outputs[i]) then Some(ev) else None
        case Replace => Some(ev.(structured := None, message := text))
        case Append => Some(ev.(structured := None, message := ev.message + " | " + text))
  }

  function JqEvaluate(libs: Libraries, query: Query, mode: QueryMode): Row -> Option<Row> {
    (r: Row) => if r.Err? then Some(r)
         else
           var q := Queried(libs, query, mode, r.event);
           if q.None? then None else Some(Ok(q.value))
  }

  function Colored(libs: Libraries, d: Display, ev: LogEvent): LogEvent {
    ev.(paletteIndex :=
          if d.podColors && ev.paletteIndex.None? then Some(libs.palette(ev.pod)) else ev.paletteIndex,
        containerPaletteIndex :=
          if d.containerColors && ev.containerPaletteIndex.None?
          then Some(libs.palette(if d.diffContainer then ev.container else ev.pod)) else ev.containerPaletteIndex)
  }

  function ColorAssign(libs: Libraries, d: Display): Row -> Option<Row> {
    (r: Row) => Some(if r.Ok? then Ok(Colored(libs, d, r.event)) else r)
  }

  // ---- Exit triggers ----

  predicate MessageFires(exit: ExitOn, r: Row) {
    r.Ok? && AnyMatch(exit.patterns, r.event.message)
  }

  predicate LevelFires(exit: ExitOn, r: Row) {
    r.Ok? && exit.level.Some? && r.event.level.Some?
    && Rank(exit.level.value) <= EventLevelRank(r.event.level.value)
  }

  class ExitWatchState {
    var triggered: bool
    var cancelled: bool     // the run's root token, which others cancel as well

    constructor ()
      ensures !triggered && !cancelled
    {
      triggered, cancelled := false, false;
    }

    method Fire()
      modifies this
      ensures triggered && cancelled == (old(cancelled) || !old(triggered))
    {
      var before := triggered;
      triggered := true;
      if !before { cancelled := true; }
    }
  }

  /** Some exit pattern matches the message of the event. */
  ghost predicate MessageMatches(exit: ExitOn, ev: LogEvent) {
    exists i :: 0 <= i < |exit.patterns| && exit.patterns[i](ev.message)
  }

  /** The event has a level, and it is the threshold's or a later one. */
  ghost predicate LevelReached(exit: ExitOn, ev: LogEvent) {
    exit.level.Some? && ev.level.Some? && Reaches(ev.level.value, exit.level.value)
  }

  lemma Fires(exit: ExitOn, r: Row)
    ensures MessageFires(exit, r) <==> r.Ok? && MessageMatches(exit, r.event)
    ensures LevelFires(exit, r) <==> r.Ok? && LevelReached(exit, r.event)
  {
    if r.Ok? && exit.level.Some? && r.event.level.Some? { RanksReach(r.event.level.value, exit.level.value); }
  }

  /** The token is cancelled the first time a trigger fires, and the flag then stays. */
  twostate predicate Watched(state: ExitWatchState, fires: bool)
    reads state
  {
    && state.triggered == (old(state.triggered) || fires)
    && state.cancelled == (old(state.cancelled) || (fires && !old(state.triggered)))
  }

  method ExitWatchMessage(rows: seq<Row>, exit: ExitOn, state: ExitWatchState) returns (out: seq<Row>)
    modifies state
    ensures out == rows && Watched(state, exists r :: r in rows && r.Ok? && MessageMatches(exit, r.event))
  {
    for i := 0 to |rows|
      invariant Watched(state, exists r :: r in rows[..i] && r.Ok? && MessageMatches(exit, r.event))
    {
      Fires(exit, rows[i]);
      if MessageFires(exit, rows[i]) { state.Fire(); }
      assert rows[..i + 1] == rows[..i] + [rows[i]];
    }
    assert rows[..|rows|] == rows;
    out := rows;
  }

  method ExitWatchLevel(rows: seq<Row>, exit: ExitOn, state: ExitWatchState) returns (out: seq<Row>)
    modifies state
    ensures out == rows && Watched(state, exists r :: r in rows && r.Ok? && LevelReached(exit, r.event))
  {
    for i := 0 to |rows|
      invariant Watched(state, exists r :: r in rows[..i] && r.Ok? && LevelReached(exit, r.event))
    {
      Fires(exit, rows[i]);
      if LevelFires(exit, rows[i]) { state.Fire(); }
      assert rows[..i + 1] == rows[..i] + [rows[i]];
    }
    assert rows[..|rows|] == rows;
    out := rows;
  }

  // ---- Stage order ----

  datatype PipelineStageOrder = PipelineStageOrder(
    exitOnMessageBeforeFilters: bool,
    includeBeforeContainer: bool,
    includeAfterClassifyBeforeTransform: bool,
    includeAfterTransform: bool)

  function Resolve(filterOn: FilterOn, hasExitOnMessage: bool, hasExitOnLevel: bool): PipelineStageOrder {
    match filterOn
    case Original => PipelineStageOrder(hasExitOnMessage, !hasExitOnLevel, hasExitOnLevel, false)
    case Transformed => PipelineStageOrder(false, false, false, true)
  }

  predicate NeedsJsonAnnotation(d: Display) { d.jq.Some? || d.levelKey.Some? }
  predicate NeedsIncludeExclude(d: Display) { d.includes != [] || d.excludes != [] }
  predicate NeedsColorAssign(d: Display) { d.podColors || d.containerColors }

  // ---- What is shown, and what triggers, without any order ----

  /** An event as the level options see it. */
  function Labelled(libs: Libraries, d: Display, ev: LogEvent): LogEvent {
    var annotated := if NeedsJsonAnnotation(d) then Annotated(libs, d.jq.Some?, ev) else ev;
    if d.levelKey.Some? then Classified(d.levelKey.value, annotated) else annotated
  }

  /** What becomes of one event on the display: hidden, or changed. Exit options play no part. */
  function ShownEvent(libs: Libraries, d: Display, ev: LogEvent): Option<LogEvent> {
    var hidden := (message: string) => !Kept(d.includes, d.excludes, message);
    if d.filterOn == Original && hidden(ev.message) then None
    else
      var labelled := Labelled(libs, d, ev);
      var queried := if d.jq.Some? then Queried(libs, d.jq.value.0, d.jq.value.1, labelled) else Some(labelled);
      if queried.None? || (d.filterOn == Transformed && hidden(queried.value.message)) then None
      else Some(Colored(libs, d, queried.value))
  }

  function ShownRow(libs: Libraries, d: Display): Row -> Option<Row> {
    (r: Row) => if r.Err? then Some(r)
         else
           var shown := ShownEvent(libs, d, r.event);
           if shown.None? then None else Some(Ok(shown.value))
  }

  /** A raw row calls for the exit: its message matches, or its level reaches the threshold. */
  ghost predicate Triggers(libs: Libraries, d: Display, exit: ExitOn, r: Row) {
    r.Ok? && (MessageMatches(exit, r.event) || LevelReached(exit, Labelled(libs, d, r.event)))
  }

  // ---- The pipeline ----

  /** Include and exclude, where the order puts them. */
  function FilteredRow(d: Display, on: bool): Row -> Option<Row> {
    (r: Row) => if on && r.Ok? && !Kept(d.includes, d.excludes, r.event.message) then None else Some(r)
  }

  function LabelledRow(libs: Libraries, d: Display): Row -> Option<Row> {
    (r: Row) => Some(if r.Ok? then Ok(Labelled(libs, d, r.event)) else r)
  }

  /** What is left to do after the level stages. */
  function FinishedRow(libs: Libraries, d: Display, before: bool, after: bool): Row -> Option<Row> {
    (r: Row) => if r.Err? then Some(r)
                else if before && !Kept(d.includes, d.excludes, r.event.message) then None
                else
                  var queried :=
                    if d.jq.Some? then Queried(libs, d.jq.value.0, d.jq.value.1, r.event) else Some(r.event);
                  if queried.None? || (after && !Kept(d.includes, d.excludes, queried.value.message)) then None
                  else Some(Ok(Colored(libs, d, queried.value)))
  }

  /** The stage is left out when there is nothing to match. */
  method FilterRows(rows: seq<Row>, d: Display, on: bool) returns (s: seq<Row>)
    ensures s == EachRow(rows, FilteredRow(d, on))
  {
    if on && NeedsIncludeExclude(d) {
      EachSame(rows, IncludeExclude(d.includes, d.excludes), FilteredRow(d, on));
      return EachRow(rows, IncludeExclude(d.includes, d.excludes));
    }
    forall r: Row | r in rows ensures FilteredRow(d, on)(r) == Some(r) {
      NotFiltered(d, on, r);
    }
    EachIdentity(rows, FilteredRow(d, on));
    s := rows;
  }

  lemma NotFiltered(d: Display, on: bool, r: Row)
    requires !(on && NeedsIncludeExclude(d))
    ensures FilteredRow(d, on)(r) == Some(r)
  {
    if on && r.Ok? {
      assert !AnyMatch(d.excludes, r.event.message);
    }
  }

  method LabelRows(libs: Libraries, rows: seq<Row>, d: Display) returns (s: seq<Row>)
    ensures s == EachRow(rows, LabelledRow(libs, d))
  {
    ghost var annotate := if NeedsJsonAnnotation(d) then JsonAnnotate(libs, d.jq.Some?) else Same();
    ghost var classify := if d.levelKey.Some? then LevelClassify(d.levelKey.value) else Same();
    s := rows;
    if NeedsJsonAnnotation(d) {
      s := EachRow(s, JsonAnnotate(libs, d.jq.Some?));
    } else {
      EachIdentity(rows, annotate);
    }
    if d.levelKey.Some? {
      s := EachRow(s, LevelClassify(d.levelKey.value));
    } else {
      EachIdentity(s, classify);
    }
    EachThen(rows, annotate, classify);
    EachSame(rows, Then(annotate, classify), LabelledRow(libs, d));
  }

  /** The stages after the level trigger. */
  method FinishRows(libs: Libraries, rows: seq<Row>, d: Display, order: PipelineStageOrder) returns (s: seq<Row>)
    ensures s == EachRow(rows, FinishedRow(libs, d, order.includeAfterClassifyBeforeTransform,
                                           order.includeAfterTransform))
  {
    var before, after := order.includeAfterClassifyBeforeTransform, order.includeAfterTransform;
    ghost var jq := if d.jq.Some? then JqEvaluate(libs, d.jq.value.0, d.jq.value.1) else Same();
    s := FilterRows(rows, d, before);
    if d.jq.Some? {
      s := EachRow(s, JqEvaluate(libs, d.jq.value.0, d.jq.value.1));
    } else {
      EachIdentity(s, jq);
    }
    ghost var queried := Then(FilteredRow(d, before), jq);
    EachThen(rows, FilteredRow(d, before), jq);
    s := FilterRows(s, d, after);
    ghost var filtered := Then(queried, FilteredRow(d, after));
    EachThen(rows, queried, FilteredRow(d, after));
    if NeedsColorAssign(d) {
      s := EachRow(s, ColorAssign(libs, d));
    } else {
      EachIdentity(s, ColorAssign(libs, d));
    }
    EachThen(rows, filtered, ColorAssign(libs, d));
    forall r: Row ensures Then(filtered, ColorAssign(libs, d))(r) == FinishedRow(libs, d, before, after)(r) {
      FinishesRow(libs, d, before, after, jq, r);
    }
    EachSame(rows, Then(filtered, ColorAssign(libs, d)), FinishedRow(libs, d, before, after));
  }

  lemma FinishesRow(libs: Libraries, d: Display, before: bool, after: bool, jq: Row -> Option<Row>, r: Row)
    requires jq == if d.jq.Some? then JqEvaluate(libs, d.jq.value.0, d.jq.value.1) else Same()
    ensures Then(Then(Then(FilteredRow(d, before), jq), FilteredRow(d, after)), ColorAssign(libs, d))(r)
            == FinishedRow(libs, d, before, after)(r)
  {
    var kept := FilteredRow(d, before)(r);
    if kept.Some? {
      assert kept.value == r;
      var queried := jq(r);
      assert Then(FilteredRow(d, before), jq)(r) == queried;
      if queried.Some? {
        var filtered := FilteredRow(d, after)(queried.value);
        assert Then(Then(FilteredRow(d, before), jq), FilteredRow(d, after))(r) == filtered;
      }
    }
  }

  /** The stages up to the level trigger. */
  method WatchRows(libs: Libraries, rows: seq<Row>, d: Display, exit: ExitOn, order: PipelineStageOrder,
                   state: ExitWatchState)
    returns (s: seq<Row>)
    requires order == Resolve(d.filterOn, exit.patterns != [], exit.level.Some?)
    modifies state
    ensures s == EachRow(EachRow(rows, FilteredRow(d, order.includeBeforeContainer)), LabelledRow(libs, d))
    ensures Watched(state, exists r :: r in rows && Triggers(libs, d, exit, r))
  {
    s := rows;
    if order.exitOnMessageBeforeFilters {
      s := ExitWatchMessage(s, exit, state);
    }
    s := FilterRows(s, d, order.includeBeforeContainer);
    assert !order.includeBeforeContainer ==> s == rows by { EachIdentity(rows, FilteredRow(d, false)); }
    if !order.exitOnMessageBeforeFilters && exit.patterns != [] {
      s := ExitWatchMessage(s, exit, state);
    }
    s := LabelRows(libs, s, d);
    if exit.level.Some? {
      s := ExitWatchLevel(s, exit, state);
      LabelledFires(libs, d, exit, rows);
    }
  }

  /** Stage by stage in the order the options give: the output is each row's own display, in order, whatever the exit
      options; and the trigger is set exactly when some raw row calls for the exit, whatever the filters hide. */
  method ApplyPipeline(libs: Libraries, rows: seq<Row>, d: Display, exit: ExitOn, state: ExitWatchState)
    returns (s: seq<Row>)
    modifies state
    ensures s == EachRow(rows, ShownRow(libs, d))
    ensures Watched(state, exists r :: r in rows && Triggers(libs, d, exit, r))
  {
    var order := Resolve(d.filterOn, exit.patterns != [], exit.level.Some?);
    s := WatchRows(libs, rows, d, exit, order, state);
    s := FinishRows(libs, s, d, order);
    StagesShow(libs, rows, d, exit.patterns != [], exit.level.Some?);
  }

  /** The level trigger sees the level of each row. */
  lemma {:induction false} LabelledFires(libs: Libraries, d: Display, exit: ExitOn, rows: seq<Row>)
    ensures (exists r :: r in EachRow(rows, LabelledRow(libs, d)) && r.Ok? && LevelReached(exit, r.event))
            <==> (exists r :: r in rows && r.Ok? && LevelReached(exit, Labelled(libs, d, r.event)))
    decreases |rows|
  {
    if rows != [] {
      var before, last := rows[..|rows| - 1], rows[|rows| - 1];
      LabelledFires(libs, d, exit, before);
      assert rows == before + [last];
      var out := LabelledRow(libs, d)(last).value;
      assert EachRow(rows, LabelledRow(libs, d)) == EachRow(before, LabelledRow(libs, d)) + [out];
      assert out.Ok? <==> last.Ok?;
      assert last.Ok? ==> out.event == Labelled(libs, d, last.event);
    }
  }

  /** The stages in any of the orders come to the same display. */
  lemma StagesShow(libs: Libraries, rows: seq<Row>, d: Display, message: bool, level: bool)
    ensures var order := Resolve(d.filterOn, message, level);
            EachRow(EachRow(EachRow(rows, FilteredRow(d, order.includeBeforeContainer)), LabelledRow(libs, d)),
                    FinishedRow(libs, d, order.includeAfterClassifyBeforeTransform, order.includeAfterTransform))
            == EachRow(rows, ShownRow(libs, d))
  {
    var order := Resolve(d.filterOn, message, level);
    var first := FilteredRow(d, order.includeBeforeContainer);
    var last := FinishedRow(libs, d, order.includeAfterClassifyBeforeTransform, order.includeAfterTransform);
    EachThen(rows, first, LabelledRow(libs, d));
    EachThen(rows, Then(first, LabelledRow(libs, d)), last);
    forall r: Row ensures Then(Then(first, LabelledRow(libs, d)), last)(r) == ShownRow(libs, d)(r) {
      StagesShowRow(libs, d, message, level, r);
    }
    EachSame(rows, Then(Then(first, LabelledRow(libs, d)), last), ShownRow(libs, d));
  }

  lemma StagesShowRow(libs: Libraries, d: Display, message: bool, level: bool, r: Row)
    ensures var order := Resolve(d.filterOn, message, level);
            Then(Then(FilteredRow(d, order.includeBeforeContainer), LabelledRow(libs, d)),
                 FinishedRow(libs, d, order.includeAfterClassifyBeforeTransform, order.includeAfterTransform))(r)
            == ShownRow(libs, d)(r)
  {
    var order := Resolve(d.filterOn, message, level);
    var first := FilteredRow(d, order.includeBeforeContainer);
    if r.Ok? {
      assert Labelled(libs, d, r.event).message == r.event.message;
      if first(r).Some? {
        assert Then(first, LabelledRow(libs, d))(r) == Some(Ok(Labelled(libs, d, r.event)));
      } else {
        assert Then(first, LabelledRow(libs, d))(r) == None;
      }
    }
  }

  function Errors(rows: seq<Row>): seq<Row> {
    EachRow(rows, (r: Row) => if r.Err? then Some(r) else None)
  }

  /** Errors reach the end of the pipeline all, in order. */
  lemma {:induction false} ErrorsPass(libs: Libraries, d: Display, rows: seq<Row>)
    ensures Errors(EachRow(rows, ShownRow(libs, d))) == Errors(rows)
    decreases |rows|
  {
    if rows != [] {
      var before, last := rows[..|rows| - 1], ShownRow(libs, d)(rows[|rows| - 1]);
      ErrorsPass(libs, d, before);
      var shown := EachRow(before, ShownRow(libs, d));
      if last.Some? { assert (shown + [last.value])[..|shown|] == shown; }
    }
  }

  /** Both libraries read the line the same way, and no array is on the way to its level. */
  predicate SameReading(libs: Libraries, key: string, message: string) {
    && libs.parseSerde(message) == libs.parseJaq(message)
    && (libs.parseJaq(message).Some? ==> NoArrayOn(libs.parseJaq(message).value, DotPathKeys(key)))
  }

  /** A query decides which library reads the line, and so how its level is looked up. Whether the line triggers does
      not depend on it: for a level path without empty segments, "~0" and "~1", any query, and none, trigger alike. */
  lemma QueryKeepsTriggers(libs: Libraries, d: Display, exit: ExitOn, r: Row, key: string)
    requires d.levelKey == Some(key) && GoodPath(key)
    requires r.Ok? ==> r.event.structured.None? && SameReading(libs, key, r.event.message)
    ensures Triggers(libs, d, exit, r) <==> Triggers(libs, d.(jq := None), exit, r)
  {
    if r.Ok? && libs.parseJaq(r.event.message).Some? {
      var doc := libs.parseJaq(r.event.message).value;
      LookupsAgree(key);
      assert Agrees(doc, key);
    }
  }
}
