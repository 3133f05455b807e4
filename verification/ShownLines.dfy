/**
 What becomes of one log line on the display, option by option: when it is hidden, what a query makes of it, which level
 it has, and when it ends the run.
 */
module ShownLines {
  import opened Wrappers
  import opened Text
  import opened DotPath
  import opened Levels
  import opened Pipeline

  /** With include patterns one of them has to match; without any, no exclude pattern may. */
  ghost predicate Hidden(d: Display, message: string) {
    if d.includes != [] then forall i :: 0 <= i < |d.includes| ==> !d.includes[i](message)
    else exists i :: 0 <= i < |d.excludes| && d.excludes[i](message)
  }

  lemma HiddenIsNotKept(d: Display, message: string)
    ensures Kept(d.includes, d.excludes, message) <==> !Hidden(d, message)
  {
  }

  /** The first character that is not white is an opening brace. */
  ghost predicate StartsObject(libs: Libraries, message: string) {
    exists n :: 0 <= n < |message| && message[n] == '{' && !libs.white('{')
                && forall i :: 0 <= i < n ==> libs.white(message[i])
  }

  lemma ObjectStarts(libs: Libraries, message: string)
    ensures var text := TrimStart(message, libs.white);
            text != "" && text[0] == '{' <==> StartsObject(libs, message)
  {
    var text := TrimStart(message, libs.white);
    TrimmedStart(message, libs.white);
    var n := |message| - |text|;
    if text != "" { assert text[0] == message[n]; }
    if StartsObject(libs, message) {
      var k :| 0 <= k < |message| && message[k] == '{' && !libs.white('{')
        && forall i :: 0 <= i < k ==> libs.white(message[i]);
      assert n <= k;
    }
  }

  // ---- Reading a line as JSON, and its level ----

  /** The document a line holds, read by the query's library or by the other one. */
  ghost function Document(libs: Libraries, d: Display, message: string): Option<Parsed> {
    if !StartsObject(libs, message) then None
    else if d.jq.Some? then
      match libs.parseJaq(message) case None => None case Some(doc) => Some(Jaq(doc))
    else
      match libs.parseSerde(message) case None => None case Some(doc) => Some(Serde(doc))
  }

  /** A raw line is read when a query or the level asks for it, and has the level its word names. */
  lemma LabelsOfALine(libs: Libraries, d: Display, ev: LogEvent)
    requires ev.structured.None? && ev.level.None?
    ensures var doc := if d.jq.Some? || d.levelKey.Some? then Document(libs, d, ev.message) else None;
            var word := if doc.Some? && d.levelKey.Some? then LevelStr(doc.value, d.levelKey.value) else None;
            Labelled(libs, d, ev)
            == ev.(structured := doc, level := match word case None => None case Some(w) => Some(ClassifyStr(w)))
  {
    ObjectStarts(libs, ev.message);
  }

  /** A line whose level is the word `LEVELS[j]` is for calls for the exit at the threshold `THRESHOLDS[i]` exactly when
      it is not an earlier level, unless its message calls for it anyhow. */
  lemma WordTriggers(libs: Libraries, d: Display, exit: ExitOn, ev: LogEvent, key: string, word: string, raw: string,
                     i: nat, j: nat)
    requires ev.structured.None? && ev.level.None? && d.levelKey == Some(key)
    requires Document(libs, d, ev.message).Some? && LevelStr(Document(libs, d, ev.message).value, key) == Some(word)
    requires i < 5 && Lower(Trim(raw, libs.white)) in WORDS[i] && j < 5 && Lower(word) in WORDS[j]
    requires exit.level == ParseExitOnLevel(raw, libs.white)
    ensures Triggers(libs, d, exit, Ok(ev)) <==> i <= j || MessageMatches(exit, ev)
  {
    LabelsOfALine(libs, d, ev);
    ThresholdWords(raw, libs.white);
    LevelWords(word);
    LevelsReach(i, j);
  }

  lemma LevelsReach(i: nat, j: nat)
    requires i < 5 && j < 5
    ensures Reaches(LEVELS[j], THRESHOLDS[i]) <==> i <= j
  {
    assert Counted(LEVELS[j]) == LEVELS[j];
  }

  // ---- What is shown without a query ----

  /** Everything but the colours. */
  predicate SameLine(a: LogEvent, b: LogEvent) {
    a.(paletteIndex := None, containerPaletteIndex := None) == b.(paletteIndex := None, containerPaletteIndex := None)
  }

  /** Without a query a line is shown as it is, with its level, unless it is hidden. */
  lemma LineWithoutQuery(libs: Libraries, d: Display, ev: LogEvent)
    requires d.jq.None?
    ensures var shown := ShowLine(libs, d, ev);
            && (shown.None? <==> Hidden(d, ev.message))
            && (shown.Some? ==> SameLine(shown.value, Labelled(libs, d, ev)) && shown.value.message == ev.message)
  {
    HiddenIsNotKept(d, ev.message);
  }

  /** The line on the display, if any. */
  function ShowLine(libs: Libraries, d: Display, ev: LogEvent): Option<LogEvent> {
    match ShownRow(libs, d)(Ok(ev))
    case Some(Ok(shown)) => Some(shown)
    case _ => None
  }

  predicate SameSource(a: LogEvent, b: LogEvent) {
    && a.pod == b.pod && a.container == b.container
    && a.paletteIndex == b.paletteIndex && a.containerPaletteIndex == b.containerPaletteIndex
  }

  lemma SourceKept(libs: Libraries, d: Display, ev: LogEvent)
    ensures var labelled := Labelled(libs, d, ev);
            && SameSource(labelled, ev)
            && (d.jq.Some? ==>
                  var queried := Queried(libs, d.jq.value.0, d.jq.value.1, labelled);
                  queried.Some? ==> SameSource(queried.value, ev))
  {
  }

  lemma ColouredLast(libs: Libraries, d: Display, ev: LogEvent)
    requires ShowLine(libs, d, ev).Some?
    ensures exists before :: SameSource(before, ev) && ShowLine(libs, d, ev).value == Colored(libs, d, before)
  {
    SourceKept(libs, d, ev);
    var labelled := Labelled(libs, d, ev);
    if d.jq.Some? {
      var queried := Queried(libs, d.jq.value.0, d.jq.value.1, labelled);
      assert ShowLine(libs, d, ev).value == Colored(libs, d, queried.value);
    } else {
      assert ShowLine(libs, d, ev).value == Colored(libs, d, labelled);
    }
  }

  /** A line with a colour keeps it; another one is given its pod's, or its container's, if that is asked for. */
  lemma LineColours(libs: Libraries, d: Display, ev: LogEvent)
    requires ShowLine(libs, d, ev).Some?
    ensures var shown := ShowLine(libs, d, ev).value;
            && (ev.paletteIndex.Some? ==> shown.paletteIndex == ev.paletteIndex)
            && (ev.paletteIndex.None? ==>
                  shown.paletteIndex == if d.podColors then Some(libs.palette(ev.pod)) else None)
            && (ev.containerPaletteIndex.Some? ==> shown.containerPaletteIndex == ev.containerPaletteIndex)
            && (ev.containerPaletteIndex.None? ==>
                  shown.containerPaletteIndex
                  == if !d.containerColors then None
                     else if d.diffContainer then Some(libs.palette(ev.container)) else Some(libs.palette(ev.pod)))
  {
    ColouredLast(libs, d, ev);
    var before :| SameSource(before, ev) && ShowLine(libs, d, ev).value == Colored(libs, d, before);
  }

  // ---- What a query makes of a line ----

  /** A result that is neither an error, nor null, nor false. */
  predicate IsTruthy(output: Option<Json>) {
    output.Some? && output.value != Null && output.value != Bool(false)
  }

  lemma {:induction false} SomeResult(outputs: seq<Option<Json>>)
    ensures (exists v :: v in Results(outputs) && Truthy(v)) <==> exists o :: o in outputs && IsTruthy(o)
    decreases |outputs|
  {
    if outputs != [] {
      var first, rest := outputs[0], outputs[1..];
      SomeResult(rest);
      assert outputs == [first] + rest;
      assert (exists o :: o in outputs && IsTruthy(o)) <==> IsTruthy(first) || exists o :: o in rest && IsTruthy(o);
      if first.Some? {
        assert Results(outputs) == [first.value] + Results(rest);
        assert (exists v :: v in Results(outputs) && Truthy(v))
           <==> Truthy(first.value) || exists v :: v in Results(rest) && Truthy(v);
      }
    }
  }

  /** Errors of single results are left out; the others stay in order. */
  lemma {:induction false} ResultsAppend(a: seq<Option<Json>>, b: seq<Option<Json>>)
    ensures Results(a + b) == Results(a) + Results(b)
    ensures Results([None]) == [] && forall v :: Results([Some(v)]) == [v]
    decreases |a|
  {
    if a == [] {
      assert a + b == b;
    } else {
      assert (a + b)[1..] == a[1..] + b;
      ResultsAppend(a[1..], b);
    }
  }

  /** As a filter the query shows the lines for which some result is truthy, as they are; a line that is no JSON is
      hidden. */
  lemma LineFiltered(libs: Libraries, d: Display, ev: LogEvent, query: Query)
    requires d.jq == Some((query, Filter)) && ev.structured.None?
    ensures var doc, shown := Document(libs, d, ev.message), ShowLine(libs, d, ev);
            && (shown.Some? <==>
                  && !Hidden(d, ev.message)
                  && doc.Some? && exists output :: output in query(doc.value.doc) && IsTruthy(output))
            && (shown.Some? ==> SameLine(shown.value, Labelled(libs, d, ev)) && shown.value.message == ev.message)
  {
    ObjectStarts(libs, ev.message);
    HiddenIsNotKept(d, ev.message);
    var doc := Document(libs, d, ev.message);
    assert Labelled(libs, d, ev).structured == doc && Labelled(libs, d, ev).message == ev.message;
    if doc.Some? {
      var results := Results(query(doc.value.doc));
      SomeResult(query(doc.value.doc));
      assert (exists i :: 0 <= i < |results| && Truthy(results[i])) <==> exists v :: v in results && Truthy(v);
    }
  }

  /** The text of the results, one per line. */
  ghost function ResultText(libs: Libraries, outputs: seq<Option<Json>>): string {
    Join(Rendered(libs, Results(outputs)), '\n')
  }

  /** The message a query that replaces or appends leaves: a line that is no JSON keeps its own. */
  ghost function NewMessage(libs: Libraries, d: Display, message: string, query: Query, append: bool): string {
    match Document(libs, d, message)
    case None => message
    case Some(parsed) =>
      var text := ResultText(libs, query(parsed.doc));
      if append then message + " | " + text else text
  }

  /** Otherwise it replaces the message by its results, or appends them; it hides nothing by itself, and the patterns
      are for the old message or the new one, as `filterOn` says. */
  lemma LineRewritten(libs: Libraries, d: Display, ev: LogEvent, query: Query, append: bool)
    requires d.jq == Some((query, if append then Append else Replace)) && ev.structured.None?
    ensures var message, shown := NewMessage(libs, d, ev.message, query, append), ShowLine(libs, d, ev);
            && (shown.None? <==> Hidden(d, if d.filterOn == Original then ev.message else message))
            && (shown.Some? ==>
                  SameLine(shown.value, Labelled(libs, d, ev).(message := message, structured := None)))
  {
    ObjectStarts(libs, ev.message);
    HiddenIsNotKept(d, ev.message);
    HiddenIsNotKept(d, NewMessage(libs, d, ev.message, query, append));
    assert Labelled(libs, d, ev).structured == Document(libs, d, ev.message);
    assert Labelled(libs, d, ev).message == ev.message;
  }
}
