/**
 Opening a container's log and cutting it into lines: the retry of the request, the framing of the bytes, and the split
 of each line into its stamp and its message.
 */
module LogLines {
  import opened Wrappers
  import opened AttachLoop
  import opened CursorRequest

  // ---- Opening ----

  const RETRY_BACKOFF_MS: nat := 200

  datatype OpenAnswer = Opened | ApiError(code: nat) | OtherError

  /** An error that asking again does not cure: too many requests is not one. */
  predicate IsClientError(answer: OpenAnswer) {
    answer.ApiError? && 400 <= answer.code < 500 && answer.code != 429
  }

  /** The longest time slept before attempt number `attempts`. */
  function RetryBackoff(attempts: nat): nat {
    if attempts <= 1 then 0 else RetryBackoff(attempts - 1) + BackoffCap(RETRY_BACKOFF_MS, attempts - 2)
  }

  lemma RetryBackoffTable()
    ensures RetryBackoff(2) == 200 && RetryBackoff(3) == 600
  {
    assert Pow2(0) == 1 && Pow2(1) == 2;
  }

  /** An error that may be gone at the next request: too many requests, an error of the server, or none of the API's. */
  ghost predicate MayPass(answer: OpenAnswer) {
    match answer
    case Opened => false
    case ApiError(code) => code < 400 || code == 429 || 500 <= code
    case OtherError => true
  }

  /** The first `n` answers all call for another request. */
  ghost predicate AskedAgain(answers: seq<OpenAnswer>, n: nat)
    requires n <= |answers|
  {
    forall i :: 0 <= i < n ==> MayPass(answers[i])
  }

  /** `answers[i]` is what the server answers to the i-th request. Only errors that may pass are asked again, and at
      most `maxAttempts` times in all. */
  method LogStreamWithRetry(answers: seq<OpenAnswer>, rolls: seq<nat>, maxAttempts: nat)
    returns (ok: bool, attempts: nat, slept: nat)
    requires maxAttempts <= |answers| && 0 < |answers| <= |rolls|
    ensures 0 < attempts <= |answers| && AskedAgain(answers, attempts - 1)
    ensures ok == answers[attempts - 1].Opened?
    ensures attempts <= maxAttempts || attempts == 1
    ensures !ok && attempts < maxAttempts ==>
              var last := answers[attempts - 1];
              last.ApiError? && 400 <= last.code < 500 && last.code != 429
    ensures slept <= RetryBackoff(attempts)
  {
    attempts, slept := 1, 0;
    while true
      invariant 0 < attempts <= |answers| && (attempts <= maxAttempts || attempts == 1)
      invariant AskedAgain(answers, attempts - 1)
      invariant slept <= RetryBackoff(attempts)
      decreases |answers| - attempts
    {
      if answers[attempts - 1].Opened? { return true, attempts, slept; }
      if IsClientError(answers[attempts - 1]) || attempts >= maxAttempts { return false, attempts, slept; }
      var delay := FullJitterBackoff(RETRY_BACKOFF_MS, attempts - 1, rolls[attempts - 1]);
      slept, attempts := slept + delay, attempts + 1;
    }
  }

  // ---- Framing ----

  newtype Byte = x: int | 0 <= x < 256
  type Bytes = seq<Byte>

  const LF: Byte := 10
  const CR: Byte := 13
  const SPACE: Byte := 32

  /** How far `read_until` reads. */
  function FrameLength(input: Bytes): (n: nat)
    ensures n <= |input| && (input != [] ==> 0 < n)
  {
    if input == [] then 0 else if input[0] == LF then 1 else 1 + FrameLength(input[1..])
  }

  /** The first line feed is the last byte read. */
  lemma {:induction false} FrameEnds(input: Bytes)
    ensures forall i :: 0 <= i < FrameLength(input) - 1 ==> input[i] != LF
    ensures FrameLength(input) < |input| ==> input[FrameLength(input) - 1] == LF
  {
    if input != [] && input[0] != LF {
      FrameEnds(input[1..]);
      forall i | 0 <= i < FrameLength(input) - 1 ensures input[i] != LF {
        if i > 0 { assert input[i] == input[1..][i - 1]; }
      }
    }
  }

  function Frames(input: Bytes): seq<Bytes>
    decreases |input|
  {
    if input == [] then []
    else [input[..FrameLength(input)]] + Frames(input[FrameLength(input)..])
  }

  function Concat(frames: seq<Bytes>): Bytes
    decreases |frames|
  {
    if frames == [] then [] else frames[0] + Concat(frames[1..])
  }

  predicate IsLine(frame: Bytes) {
    frame != [] && LF !in frame[..|frame| - 1]
  }

  /** No byte is lost or moved, and a frame is a line: a line feed ends it, or the log ends there. */
  lemma {:induction false} FramesAreLines(input: Bytes)
    ensures Concat(Frames(input)) == input
    ensures forall i :: 0 <= i < |Frames(input)| ==>
              IsLine(Frames(input)[i]) && (LF in Frames(input)[i] || i == |Frames(input)| - 1)
    decreases |input|
  {
    if input != [] {
      var n := FrameLength(input);
      var first, rest := input[..n], input[n..];
      FrameEnds(input);
      FramesAreLines(rest);
      assert input == first + rest && Frames(input) == [first] + Frames(rest);
      assert IsLine(first) by { assert first[..n - 1] == input[..n - 1]; }
      assert rest != [] ==> first[n - 1] == LF;
    }
  }

  /** A line feed always ends a frame, so what follows it is cut by itself. */
  lemma {:induction false} FramesAppend(a: Bytes, b: Bytes)
    requires a != [] ==> a[|a| - 1] == LF
    ensures Frames(a + b) == Frames(a) + Frames(b)
    decreases |a|
  {
    if a == [] {
      assert a + b == b;
    } else {
      var n := FrameLength(a);
      FramesAppend(a[n..], b);
      FramesOfSum(a, b);
      assert [a[..n]] + (Frames(a[n..]) + Frames(b)) == [a[..n]] + Frames(a[n..]) + Frames(b);
    }
  }

  lemma FramesOfSum(a: Bytes, b: Bytes)
    requires LF in a
    ensures var n := FrameLength(a);
            Frames(a) == [a[..n]] + Frames(a[n..]) && Frames(a + b) == [a[..n]] + Frames(a[n..] + b)
  {
    var n := FrameLength(a);
    FirstFrame(a, b);
    assert (a + b)[..n] == a[..n] && (a + b)[n..] == a[n..] + b;
  }

  lemma {:induction false} FirstFrame(a: Bytes, b: Bytes)
    requires LF in a
    ensures FrameLength(a + b) == FrameLength(a)
    decreases |a|
  {
    assert (a + b)[1..] == a[1..] + b;
    if a[0] != LF { FirstFrame(a[1..], b); }
  }

  // ---- Splitting a line ----

  /** How stamps are written and read, and how bytes are read as text. A stamp that the date type holds reads back. */
  datatype Codec = Codec(stamp: int -> Bytes, parse: Bytes -> Option<int>, decode: Bytes -> string) {
    predicate ReadsStamp(t: int) {
      parse(stamp(t)) == Some(t) && SPACE !in stamp(t) && LF !in stamp(t)
    }
  }

  function Without(raw: Bytes, last: Byte): Bytes {
    if raw != [] && raw[|raw| - 1] == last then raw[..|raw| - 1] else raw
  }

  function TrimLineEnd(raw: Bytes): Bytes {
    Without(Without(raw, LF), CR)
  }

  function SpaceAt(raw: Bytes): (n: nat)
    ensures n <= |raw| && SPACE !in raw[..n] && (n < |raw| ==> raw[n] == SPACE)
  {
    if raw == [] || raw[0] == SPACE then 0
    else
      assert raw[..1 + SpaceAt(raw[1..])] == [raw[0]] + raw[1..][..SpaceAt(raw[1..])];
      1 + SpaceAt(raw[1..])
  }

  /** The stamp, if the line has one, and the bytes of the message. */
  function SplitLogLine(c: Codec, line: Bytes): (Option<int>, Bytes) {
    var raw := TrimLineEnd(line);
    var n := SpaceAt(raw);
    if n < |raw| && c.parse(raw[..n]).Some? then (c.parse(raw[..n]), raw[n + 1..]) else (None, raw)
  }

  function Split(c: Codec, frames: seq<Bytes>): (r: seq<(Option<int>, Bytes)>)
    ensures |r| == |frames|
  {
    seq(|frames|, i requires 0 <= i < |frames| => SplitLogLine(c, frames[i]))
  }

  function Stamps(c: Codec, frames: seq<Bytes>): seq<Option<int>>
    decreases |frames|
  {
    if frames == [] then []
    else Stamps(c, frames[..|frames| - 1]) + [SplitLogLine(c, frames[|frames| - 1]).0]
  }

  function LastStamp(c: Codec, frames: seq<Bytes>): Option<int> {
    ResolvedThrough(None, Stamps(c, frames))
  }

  /** Each line has its own stamp, or one after the line before. */
  function Events(c: Codec, frames: seq<Bytes>): seq<(int, string)>
    decreases |frames|
  {
    if frames == [] then []
    else
      var stamp := LastStamp(c, frames);
      Events(c, frames[..|frames| - 1])
      + [(if stamp.Some? then stamp.value else 0, c.decode(SplitLogLine(c, frames[|frames| - 1]).1))]
  }

  lemma OneMore(c: Codec, frames: seq<Bytes>, buf: Bytes, stamp: int)
    requires stamp == Resolved(LastStamp(c, frames), SplitLogLine(c, buf).0)
    ensures LastStamp(c, frames + [buf]) == Some(stamp)
    ensures Events(c, frames + [buf]) == Events(c, frames) + [(stamp, c.decode(SplitLogLine(c, buf).1))]
  {
    var more, stamps := frames + [buf], Stamps(c, frames);
    assert more[..|more| - 1] == frames;
    assert (stamps + [SplitLogLine(c, buf).0])[..|stamps|] == stamps;
  }

  predicate Ended(frame: Bytes) {
    frame != [] && frame[|frame| - 1] == LF
  }

  /** The first `n` frames are all of them; or those that are ended, when the reader fails. */
  predicate AllRead(input: Bytes, n: nat, failure: Option<string>) {
    if failure.None? then n == |Frames(input)|
    else forall i :: 0 <= i < |Frames(input)| ==> (i < n <==> Ended(Frames(input)[i]))
  }

  lemma {:induction false} ConcatAppend(a: seq<Bytes>, b: seq<Bytes>)
    ensures Concat(a + b) == Concat(a) + Concat(b)
    decreases |a|
  {
    if a == [] {
      assert a + b == b;
    } else {
      assert (a + b)[1..] == a[1..] + b;
      ConcatAppend(a[1..], b);
    }
  }

  /** What an error loses has no line feed: of the bytes that were given, at most the beginning of one line. */
  lemma FailureLosesPartOfALine(input: Bytes, n: nat, error: string)
    requires n <= |Frames(input)| && AllRead(input, n, Some(error))
    ensures exists lost :: input == Concat(Frames(input)[..n]) + lost && LF !in lost
  {
    var frames := Frames(input);
    FramesAreLines(input);
    ConcatAppend(frames[..n], frames[n..]);
    assert frames == frames[..n] + frames[n..];
    var lost := Concat(frames[n..]);
    if n < |frames| {
      assert !Ended(frames[n]) && IsLine(frames[n]) && n == |frames| - 1;
      assert frames[n..] == [frames[n]] && frames[n..][1..] == [];
      assert Concat([]) == [] && lost == frames[n];
    }
    assert input == Concat(frames[..n]) + lost && LF !in lost;
  }

  /** What is left after `frames` were read. */
  ghost predicate Remains(input: Bytes, frames: seq<Bytes>, rest: Bytes) {
    Frames(input) == frames + Frames(rest)
  }

  lemma FramesRead(input: Bytes, frames: seq<Bytes>, rest: Bytes)
    requires Remains(input, frames, rest)
    ensures |frames| <= |Frames(input)| && Frames(input)[..|frames|] == frames
  {
  }

  /** `events` are those of the frames read so far. */
  ghost predicate ReadSoFar(c: Codec, input: Bytes, frames: seq<Bytes>, rest: Bytes, events: seq<(int, string)>) {
    Remains(input, frames, rest) && |events| == |frames| && events == Events(c, frames)
  }

  lemma NextFrame(input: Bytes, frames: seq<Bytes>, rest: Bytes)
    requires Remains(input, frames, rest) && rest != []
    ensures Remains(input, frames + [rest[..FrameLength(rest)]], rest[FrameLength(rest)..])
  {
    var n := FrameLength(rest);
    assert frames + ([rest[..n]] + Frames(rest[n..])) == frames + [rest[..n]] + Frames(rest[n..]);
  }

  lemma OneMoreRead(c: Codec, input: Bytes, frames: seq<Bytes>, rest: Bytes, events: seq<(int, string)>,
                    event: (int, string))
    requires ReadSoFar(c, input, frames, rest, events) && rest != []
    requires Events(c, frames + [rest[..FrameLength(rest)]]) == Events(c, frames) + [event]
    ensures ReadSoFar(c, input, frames + [rest[..FrameLength(rest)]], rest[FrameLength(rest)..], events + [event])
  {
    NextFrame(input, frames, rest);
  }

  lemma EventsRead(c: Codec, input: Bytes, frames: seq<Bytes>, rest: Bytes, events: seq<(int, string)>)
    requires ReadSoFar(c, input, frames, rest, events)
    ensures |events| <= |Frames(input)| && events == Events(c, Frames(input)[..|events|])
    ensures |events| == |Frames(input)| ==> events == Events(c, Frames(input))
  {
    FramesRead(input, frames, rest);
    if |frames| == |Frames(input)| { assert Frames(input)[..|frames|] == Frames(input); }
  }

  predicate AllEnded(frames: seq<Bytes>) {
    forall f :: f in frames ==> Ended(f)
  }

  lemma RestIsNotRead(input: Bytes, frames: seq<Bytes>, rest: Bytes, failure: Option<string>)
    requires Remains(input, frames, rest) && (failure.Some? ==> AllEnded(frames))
    requires if failure.Some? then !Ended(rest[..FrameLength(rest)]) else rest == []
    ensures AllRead(input, |frames|, failure)
  {
    if failure.Some? { UnendedIsLast(rest); }
  }

  /** One line: `frames` are those read before. */
  method ReadLine(c: Codec, rest: Bytes, resolver: LogLineTimestampResolver, ghost frames: seq<Bytes>)
    returns (event: (int, string))
    requires resolver.last == LastStamp(c, frames)
    modifies resolver
    ensures var buf := rest[..FrameLength(rest)];
            && resolver.last == LastStamp(c, frames + [buf])
            && Events(c, frames + [buf]) == Events(c, frames) + [event]
  {
    var buf := rest[..FrameLength(rest)];
    var line := SplitLogLine(c, buf);
    var stamp := resolver.Resolve(line.0);
    OneMore(c, frames, buf, stamp);
    event := (stamp, c.decode(line.1));
  }

  /** The reader gives `input` and then ends, or fails with an error. `cancelAt` is the number of lines after which
      the token is seen cancelled. Without an error every line is given, an unended last one included; with one, the
      line the error falls into is lost, and the error comes last. */
  method ReadLines(c: Codec, input: Bytes, failure: Option<string>, cancelAt: Option<nat>)
    returns (events: seq<(int, string)>, error: Option<string>)
    ensures |events| <= |Frames(input)| && events == Events(c, Frames(input)[..|events|])
    ensures cancelAt.None? && failure.None? ==> events == Events(c, Frames(input)) && error == None
    ensures cancelAt.Some? ==> |events| <= cancelAt.value && (|events| == cancelAt.value ==> error == None)
    ensures cancelAt.None? || |events| < cancelAt.value ==> error == failure && AllRead(input, |events|, failure)
  {
    var resolver := new LogLineTimestampResolver();
    var rest := input;
    ghost var frames: seq<Bytes> := [];
    events, error := [], None;
    while cancelAt.None? || |events| < cancelAt.value
      invariant fresh(resolver) && resolver.last == LastStamp(c, frames)
      invariant ReadSoFar(c, input, frames, rest, events)
      invariant cancelAt.Some? ==> |events| <= cancelAt.value
      invariant failure.Some? ==> AllEnded(frames)
      decreases |rest|
    {
      var n := FrameLength(rest);
      if n == 0 || (failure.Some? && rest[n - 1] != LF) {
        error := failure;
        RestIsNotRead(input, frames, rest, failure);
        break;
      }
      var event := ReadLine(c, rest, resolver, frames);
      OneMoreRead(c, input, frames, rest, events, event);
      events := events + [event];
      frames := frames + [rest[..n]];
      rest := rest[n..];
    }
    EventsRead(c, input, frames, rest, events);
  }

  lemma UnendedIsLast(input: Bytes)
    requires !Ended(input[..FrameLength(input)])
    ensures forall f :: f in Frames(input) ==> !Ended(f)
  {
    if input != [] {
      var n := FrameLength(input);
      FrameEnds(input);
      assert n == |input| && input[n..] == [];
    }
  }

  // ---- Reading back what the server writes ----

  /** A message, with its stamp if it has one. */
  type Entry = (Option<int>, Bytes)

  function LineOf(c: Codec, e: Entry): Bytes {
    (if e.0.Some? then c.stamp(e.0.value) + [SPACE] else []) + e.1 + [LF]
  }

  function Written(c: Codec, entries: seq<Entry>): Bytes
    decreases |entries|
  {
    if entries == [] then [] else LineOf(c, entries[0]) + Written(c, entries[1..])
  }

  predicate StampReads(c: Codec, e: Entry) {
    e.0.Some? ==> c.ReadsStamp(e.0.value)
  }

  predicate StampsRead(c: Codec, entries: seq<Entry>) {
    forall e :: e in entries ==> StampReads(c, e)
  }

  /** What stands before the first space, if there is one, is no stamp. */
  predicate StartsUndated(c: Codec, message: Bytes) {
    forall n :: 0 <= n < |message| && message[n] == SPACE && SPACE !in message[..n] ==> c.parse(message[..n]).None?
  }

  predicate Unchanged(c: Codec, e: Entry) {
    && (e.1 == [] || e.1[|e.1| - 1] != CR)
    && (e.0.None? ==> StartsUndated(c, e.1))
  }

  predicate Readable(c: Codec, e: Entry) {
    LF !in e.1 && Unchanged(c, e)
  }

  lemma {:induction false} SpaceAfter(a: Bytes, b: Bytes)
    requires SPACE !in a
    ensures SpaceAt(a + [SPACE] + b) == |a|
    decreases |a|
  {
    var s := a + [SPACE] + b;
    if a != [] {
      assert s[1..] == a[1..] + [SPACE] + b;
      SpaceAfter(a[1..], b);
    }
  }

  lemma DatedLineSplits(c: Codec, t: int, message: Bytes)
    requires c.ReadsStamp(t)
    ensures SplitLogLine(c, LineOf(c, (Some(t), message))) == (Some(t), Without(message, CR))
  {
    var line, head := LineOf(c, (Some(t), message)), c.stamp(t) + [SPACE];
    assert Without(line, LF) == head + message;
    assert TrimLineEnd(line) == head + Without(message, CR);
    SpaceAfter(c.stamp(t), Without(message, CR));
    assert (head + Without(message, CR))[..|c.stamp(t)|] == c.stamp(t);
    assert (head + Without(message, CR))[|head|..] == Without(message, CR);
  }

  lemma FirstSpace(message: Bytes, k: nat)
    requires k < |message| && message[k] == SPACE && SPACE !in message[..k]
    ensures SpaceAt(message) == k
  {
    var n := SpaceAt(message);
    assert forall j :: 0 <= j < n ==> message[..n][j] == message[j];
    assert forall j :: 0 <= j < k ==> message[..k][j] == message[j];
  }

  lemma StartsUndatedAt(c: Codec, message: Bytes)
    ensures var n := SpaceAt(message);
            StartsUndated(c, message) <==> n == |message| || c.parse(message[..n]).None?
  {
    forall k | 0 <= k < |message| && message[k] == SPACE && SPACE !in message[..k] ensures SpaceAt(message) == k {
      FirstSpace(message, k);
    }
  }

  lemma Trimmed(message: Bytes)
    ensures TrimLineEnd(message + [LF]) == Without(message, CR)
  {
    assert Without(message + [LF], LF) == message;
  }

  lemma SplitOfTrimmed(c: Codec, line: Bytes, raw: Bytes)
    requires TrimLineEnd(line) == raw
    ensures if StartsUndated(c, raw) then SplitLogLine(c, line) == (None, raw) else SplitLogLine(c, line).0.Some?
  {
    StartsUndatedAt(c, raw);
  }

  lemma UndatedLineSplits(c: Codec, message: Bytes)
    ensures SplitLogLine(c, LineOf(c, (None, message))) == (None, message)
            <==> (message == [] || message[|message| - 1] != CR) && StartsUndated(c, message)
  {
    assert LineOf(c, (None, message)) == message + [LF];
    Trimmed(message);
    SplitOfTrimmed(c, message + [LF], Without(message, CR));
    assert message != [] && message[|message| - 1] == CR ==> |Without(message, CR)| < |message|;
  }

  lemma LineSplits(c: Codec, e: Entry)
    requires StampReads(c, e)
    ensures SplitLogLine(c, LineOf(c, e)) == e <==> Unchanged(c, e)
  {
    match e.0
    case None => UndatedLineSplits(c, e.1);
    case Some(t) => DatedLineSplits(c, t, e.1);
  }

  lemma LineFrames(c: Codec, e: Entry)
    requires StampReads(c, e)
    ensures LF !in e.1 ==> Frames(LineOf(c, e)) == [LineOf(c, e)]
    ensures |Frames(LineOf(c, e))| >= if LF in e.1 then 2 else 1
  {
    var line, head := LineOf(c, e), if e.0.Some? then c.stamp(e.0.value) + [SPACE] else [];
    var n := FrameLength(line);
    FrameEnds(line);
    assert line == head + e.1 + [LF] && line[|line| - 1] == LF;
    if LF !in e.1 {
      assert LF !in line[..|line| - 1] by { assert line[..|line| - 1] == head + e.1; }
      assert forall i :: 0 <= i < |line| - 1 ==> line[..|line| - 1][i] == line[i] && line[i] != LF;
      assert n == |line| && line[n..] == [] && line[..n] == line;
    } else {
      var i :| 0 <= i < |e.1| && e.1[i] == LF;
      assert line[|head| + i] == LF;
      assert n < |line| && Frames(line) == [line[..n]] + Frames(line[n..]) && Frames(line[n..]) != [];
    }
  }

  lemma {:induction false} AtLeastALineEach(c: Codec, entries: seq<Entry>)
    requires StampsRead(c, entries)
    ensures |Frames(Written(c, entries))| >= |entries|
    ensures (exists e :: e in entries && LF in e.1) ==> |Frames(Written(c, entries))| > |entries|
    decreases |entries|
  {
    if entries != [] {
      LineFrames(c, entries[0]);
      FramesAppend(LineOf(c, entries[0]), Written(c, entries[1..]));
      AtLeastALineEach(c, entries[1..]);
    }
  }

  lemma {:induction false} LinesSplit(c: Codec, entries: seq<Entry>)
    requires StampsRead(c, entries) && forall e :: e in entries ==> LF !in e.1
    ensures |Frames(Written(c, entries))| == |entries|
    ensures forall i :: 0 <= i < |entries| ==> Frames(Written(c, entries))[i] == LineOf(c, entries[i])
    decreases |entries|
  {
    if entries != [] {
      LineFrames(c, entries[0]);
      FramesAppend(LineOf(c, entries[0]), Written(c, entries[1..]));
      LinesSplit(c, entries[1..]);
    }
  }

  /** What the server writes, dated or not, is read back entry by entry exactly when no message holds a line feed or
      ends with a carriage return, and no undated one starts with what reads as a stamp. */
  lemma ReadsBack(c: Codec, entries: seq<Entry>)
    requires StampsRead(c, entries)
    ensures Split(c, Frames(Written(c, entries))) == entries <==> forall e :: e in entries ==> Readable(c, e)
  {
    if e :| e in entries && LF in e.1 {
      AtLeastALineEach(c, entries);
      assert !Readable(c, e);
    } else {
      LinesSplit(c, entries);
      SplitIsEntries(c, Frames(Written(c, entries)), entries);
    }
  }

  lemma SplitIsEntries(c: Codec, frames: seq<Bytes>, entries: seq<Entry>)
    requires StampsRead(c, entries) && |frames| == |entries| && forall e :: e in entries ==> LF !in e.1
    requires forall i :: 0 <= i < |entries| ==> frames[i] == LineOf(c, entries[i])
    ensures Split(c, frames) == entries <==> forall e :: e in entries ==> Readable(c, e)
  {
    var read := Split(c, frames);
    forall i | 0 <= i < |entries| ensures read[i] == entries[i] <==> Readable(c, entries[i]) {
      assert entries[i] in entries;
      LineSplits(c, entries[i]);
    }
    if e :| e in entries && !Readable(c, e) {
      var i :| 0 <= i < |entries| && entries[i] == e;
      assert read[i] != entries[i];
    } else {
      assert forall i :: 0 <= i < |entries| ==> Readable(c, entries[i]);
    }
  }

  lemma {:induction false} EventEach(c: Codec, frames: seq<Bytes>)
    ensures |Events(c, frames)| == |frames|
    decreases |frames|
  {
    if frames != [] { EventEach(c, frames[..|frames| - 1]); }
  }

  /** Later lines do not change what has been output. */
  lemma {:induction false} EventStays(c: Codec, frames: seq<Bytes>, upTo: seq<Bytes>, i: nat)
    requires i < |upTo| && upTo <= frames
    ensures |Events(c, frames)| == |frames| && |Events(c, upTo)| == |upTo|
    ensures Events(c, frames)[i] == Events(c, upTo)[i]
    decreases |frames|
  {
    EventEach(c, frames);
    EventEach(c, upTo);
    if |upTo| < |frames| {
      EventStays(c, frames[..|frames| - 1], upTo, i);
    } else {
      assert upTo == frames;
    }
  }

  lemma LastStampOut(c: Codec, frames: seq<Bytes>)
    ensures |Events(c, frames)| == |frames|
    ensures LastStamp(c, frames) == if frames == [] then None else Some(Events(c, frames)[|frames| - 1].0)
  {
    EventEach(c, frames);
    if frames != [] { EventEach(c, frames[..|frames| - 1]); }
  }

  lemma LastEvent(c: Codec, frames: seq<Bytes>, e: Entry)
    requires frames != [] && SplitLogLine(c, frames[|frames| - 1]) == e
    ensures var i, events := |frames| - 1, Events(c, frames);
            && |events| == i + 1
            && events[i] == (Resolved(if i == 0 then None else Some(events[i - 1].0), e.0), c.decode(e.1))
  {
    var before, last := frames[..|frames| - 1], frames[|frames| - 1];
    LastStampOut(c, before);
    OneMore(c, before, last, Resolved(LastStamp(c, before), e.0));
    assert frames == before + [last];
  }

  /** A line comes out with its own stamp, or with one after the line before. */
  lemma EventAt(c: Codec, frames: seq<Bytes>, upTo: seq<Bytes>, i: nat, e: Entry)
    requires |upTo| == i + 1 && upTo <= frames && SplitLogLine(c, upTo[i]) == e
    ensures |Events(c, frames)| == |frames|
    ensures Events(c, frames)[i]
         == (Resolved(if i == 0 then None else Some(Events(c, frames)[i - 1].0), e.0), c.decode(e.1))
  {
    LastEvent(c, upTo, e);
    EventStays(c, frames, upTo, i);
    if i > 0 { EventStays(c, frames, upTo, i - 1); }
  }

  /** So every entry that reads back is output with its text, and with its stamp: without one it follows the entry
      before by a microsecond, or is dated to the epoch. */
  lemma EntriesComeOut(c: Codec, entries: seq<Entry>, i: nat)
    requires StampsRead(c, entries) && i < |entries| && forall e :: e in entries ==> Readable(c, e)
    ensures var events := Events(c, Frames(Written(c, entries)));
            && |events| == |entries| && events[i].1 == c.decode(entries[i].1)
            && events[i].0 == match entries[i].0
                              case Some(t) => t
                              case None => if i == 0 then 0 else events[i - 1].0 + MICROSECOND
  {
    var frames := Frames(Written(c, entries));
    ReadsBack(c, entries);
    assert |Split(c, frames)| == |frames| && Split(c, frames)[i] == SplitLogLine(c, frames[i]);
    EventAt(c, frames, frames[..i + 1], i, entries[i]);
  }
}
