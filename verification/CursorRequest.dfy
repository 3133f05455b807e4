/**
 Timestamps and log requests: the resolver that dates undated lines, the one second overlap,
 and the request built when a stream is opened again. Timestamps are nanoseconds since the Unix epoch.
 */
module CursorRequest {
  import opened Wrappers

  const OVERLAP: int := 1_000_000_000
  const MICROSECOND: int := 1_000
  const MAX_UNDATED_RUN: nat := 1_000_000

  datatype PodLogRequest = PodLogRequest(
    follow: bool, tail: Option<nat>, sinceSeconds: Option<nat>, sinceTime: Option<int>, previous: bool)

  /** Printing and parsing of instants as RFC 3339 text (section 5.6 of RFC 3339).
      `min` is the earliest instant the date type can hold, `max` the last one that has a four-digit year. */
  datatype TimeText = TimeText(min: int, max: int, render: int -> string, parse: string -> Option<int>) {
    ghost predicate Lawful() {
      && min <= -OVERLAP
      && 0 <= max
      && forall t :: -OVERLAP <= t <= max ==> parse(render(t)) == Some(t)
    }
  }

  /** Where a stream is resumed for a cursor at `last`. */
  function OverlapSinceTime(tt: TimeText, last: int): Option<int> {
    var back := if tt.min <= last - OVERLAP then last - OVERLAP else last;
    tt.parse(tt.render(back))
  }

  function PodLogRequestForReopen(tt: TimeText, base: PodLogRequest, last: Option<int>, reopen: bool): PodLogRequest {
    if !reopen || last.None? then base else
    match OverlapSinceTime(tt, last.value)
    case None => base
    case Some(since) => base.(tail := None, sinceSeconds := None, sinceTime := Some(since))
  }

  /** What is sent to the server. */
  datatype LogParams = LogParams(
    follow: bool, timestamps: bool, tailLines: Option<nat>, sinceSeconds: Option<nat>, sinceTime: Option<int>,
    previous: bool)

  function BuildLogParams(request: PodLogRequest): LogParams {
    LogParams(request.follow, true, request.tail, if request.sinceTime.Some? then None else request.sinceSeconds,
              request.sinceTime, request.previous)
  }

  /** A request the server answers with every line from `sinceTime` on (or with the whole log): what is sent has no line
      limit and no relative window. */
  predicate AnswersInFull(request: PodLogRequest) {
    BuildLogParams(request).tailLines.None? && BuildLogParams(request).sinceSeconds.None?
  }

  lemma CursorRequestResumesOneSecondBack(tt: TimeText, base: PodLogRequest, last: int)
    requires tt.Lawful() && 0 <= last && last - OVERLAP <= tt.max
    ensures var request := PodLogRequestForReopen(tt, base, Some(last), true);
            && AnswersInFull(request) && request.sinceTime == Some(last - OVERLAP)
            && BuildLogParams(request) == LogParams(base.follow, true, None, None, Some(last - OVERLAP), base.previous)
  {
    assert tt.parse(tt.render(last - OVERLAP)) == Some(last - OVERLAP);
  }

  /** The first request, and a reopen without a cursor, send what was asked for; of a window and an absolute start, only
      the start. */
  lemma FirstRequestIsAsAsked(tt: TimeText, base: PodLogRequest, last: Option<int>, reopen: bool)
    requires !reopen || last.None?
    ensures var sent := BuildLogParams(PodLogRequestForReopen(tt, base, last, reopen));
            && sent.follow == base.follow && sent.previous == base.previous && sent.timestamps
            && sent.tailLines == base.tail && sent.sinceTime == base.sinceTime
            && sent.sinceSeconds == match base.sinceTime case Some(_) => None case None => base.sinceSeconds
  {
  }

  /** A cursor whose start cannot be written and read back repeats the first request, as if there were none. */
  lemma UnreadableCursorIsDropped(tt: TimeText, base: PodLogRequest, last: int)
    requires tt.parse(tt.render(if last - OVERLAP < tt.min then last else last - OVERLAP)).None?
    ensures PodLogRequestForReopen(tt, base, Some(last), true) == base
  {
  }

  // ---- Dating of lines ----

  /** The stamp given to a line whose prefix parsed to `parsed`, after a line stamped `last`. */
  function Resolved(last: Option<int>, parsed: Option<int>): int {
    match parsed
    case Some(t) => t
    case None => if last.Some? then last.value + MICROSECOND else 0
  }

  class LogLineTimestampResolver {
    var last: Option<int>

    constructor ()
      ensures last == None
    {
      last := None;
    }

    method Resolve(parsed: Option<int>) returns (stamp: int)
      modifies this
      ensures stamp == Resolved(old(last), parsed) && last == Some(stamp)
      ensures match (parsed, old(last))
              case (Some(t), _) => stamp == t
              case (None, Some(before)) => stamp == before + MICROSECOND
              case (None, None) => stamp == 0
    {
      if parsed.Some? {
        last := parsed;
        return parsed.value;
      }
      stamp := if last.Some? then last.value + MICROSECOND else 0;
      last := Some(stamp);
    }
  }

  /** The stamp of the last of `lines`, or `last` when there is none. */
  function ResolvedThrough(last: Option<int>, lines: seq<Option<int>>): (r: Option<int>)
    ensures lines != [] ==> r.Some?
    decreases |lines|
  {
    if lines == [] then last
    else Some(Resolved(ResolvedThrough(last, lines[..|lines| - 1]), lines[|lines| - 1]))
  }

  lemma {:induction false} UndatedLinesDrift(last: Option<int>, lines: seq<Option<int>>, dated: int, n: nat)
    ensures ResolvedThrough(last, lines + [Some(dated)] + seq(n, _ => None)) == Some(dated + n * MICROSECOND)
  {
    var all := lines + [Some(dated)] + seq(n, _ => None);
    if n == 0 {
      assert all == lines + [Some(dated)];
    } else {
      UndatedLinesDrift(last, lines, dated, n - 1);
      assert all[..|all| - 1] == lines + [Some(dated)] + seq(n - 1, _ => None);
    }
  }

  /** The overlap covers a run of undated lines exactly up to one million of them. */
  lemma OverlapCoversUndatedRun(tt: TimeText, last: Option<int>, lines: seq<Option<int>>, dated: int, n: nat)
    requires tt.Lawful() && 0 <= dated && dated + n * MICROSECOND - OVERLAP <= tt.max
    ensures var cursor := ResolvedThrough(last, lines + [Some(dated)] + seq(n, _ => None));
            && cursor.Some?
            && OverlapSinceTime(tt, cursor.value).Some?
            && (OverlapSinceTime(tt, cursor.value).value <= dated <==> n <= MAX_UNDATED_RUN)
  {
    UndatedLinesDrift(last, lines, dated, n);
    var back := dated + n * MICROSECOND - OVERLAP;
    assert tt.parse(tt.render(back)) == Some(back);
  }
}
