/** Log levels: how a level field is classified, and how levels compare with the exit threshold. */
module Levels {
  import opened Wrappers

  datatype LogLevel = Error | Warn | Info | Debug | Trace | Other(raw: string)
  datatype ExitOnLevel = OnTrace | OnDebug | OnInfo | OnWarn | OnError

  function LowerChar(c: char): char {
    if 'A' <= c <= 'Z' then (c as int + 32) as char else c
  }

  function Lower(s: string): (r: string)
    ensures |r| == |s| && forall i :: 0 <= i < |s| ==> r[i] == LowerChar(s[i])
  {
    seq(|s|, i requires 0 <= i < |s| => LowerChar(s[i]))
  }

  predicate EqIgnoreCase(s: string, t: string) {
    Lower(s) == Lower(t)
  }

  function ClassifyStr(s: string): LogLevel {
    if EqIgnoreCase(s, "error") || EqIgnoreCase(s, "err") || EqIgnoreCase(s, "fatal") then Error
    else if EqIgnoreCase(s, "warn") || EqIgnoreCase(s, "warning") then Warn
    else if EqIgnoreCase(s, "info") then Info
    else if EqIgnoreCase(s, "debug") then Debug
    else if EqIgnoreCase(s, "trace") then Trace
    else Other(s)
  }

  function Rank(level: ExitOnLevel): nat {
    match level
    case OnTrace => 0
    case OnDebug => 1
    case OnInfo => 2
    case OnWarn => 3
    case OnError => 4
  }

  function EventLevelRank(level: LogLevel): nat {
    match level
    case Trace => 0
    case Debug => 1
    case Info => 2
    case Warn => 3
    case Error => 4
    case Other(s) =>
      if EqIgnoreCase(s, "error") || EqIgnoreCase(s, "err") || EqIgnoreCase(s, "fatal") then 4
      else if EqIgnoreCase(s, "warn") || EqIgnoreCase(s, "warning") then 3
      else if EqIgnoreCase(s, "info") then 2
      else if EqIgnoreCase(s, "debug") then 1
      else if EqIgnoreCase(s, "trace") then 0
      else 2
  }

  function TrimStart(s: string, white: char -> bool): string {
    if s != "" && white(s[0]) then TrimStart(s[1..], white) else s
  }

  function TrimEnd(s: string, white: char -> bool): string {
    if s != "" && white(s[|s| - 1]) then TrimEnd(s[..|s| - 1], white) else s
  }

  function Trim(s: string, white: char -> bool): string {
    TrimEnd(TrimStart(s, white), white)
  }

  /** The threshold given on the command line. */
  function ParseExitOnLevel(raw: string, white: char -> bool): Option<ExitOnLevel> {
    var s := Lower(Trim(raw, white));
    if s == "trace" then Some(OnTrace)
    else if s == "debug" then Some(OnDebug)
    else if s == "info" then Some(OnInfo)
    else if s == "warn" || s == "warning" then Some(OnWarn)
    else if s == "error" || s == "err" || s == "fatal" then Some(OnError)
    else None
  }

  // ---- The order of levels ----

  const LEVELS: seq<LogLevel> := [Trace, Debug, Info, Warn, Error]
  const THRESHOLDS: seq<ExitOnLevel> := [OnTrace, OnDebug, OnInfo, OnWarn, OnError]
  const WORDS: seq<seq<string>> := [["trace"], ["debug"], ["info"], ["warn", "warning"], ["error", "err", "fatal"]]

  /** Capitals become small letters, and nothing else changes. */
  lemma LowerLetters()
    ensures Lower("ABCDEFGHIJKLMNOPQRSTUVWXYZ") == "abcdefghijklmnopqrstuvwxyz"
    ensures forall c :: c !in "ABCDEFGHIJKLMNOPQRSTUVWXYZ" ==> LowerChar(c) == c
  {
    var capitals := "ABCDEFGHIJKLMNOPQRSTUVWXYZ";
    forall c | 'A' <= c <= 'Z' ensures c in capitals {
      assert capitals[c as int - 'A' as int] == c;
    }
  }

  lemma {:induction false} TrimmedStart(s: string, white: char -> bool)
    ensures var t := TrimStart(s, white);
            && |t| <= |s| && t == s[|s| - |t|..] && (t != "" ==> !white(t[0]))
            && forall i :: 0 <= i < |s| - |t| ==> white(s[i])
    decreases |s|
  {
    if s != "" && white(s[0]) {
      TrimmedStart(s[1..], white);
      forall i | 0 <= i < |s| - |TrimStart(s, white)| ensures white(s[i]) {
        if i > 0 { assert s[i] == s[1..][i - 1]; }
      }
    }
  }

  lemma {:induction false} TrimmedEnd(s: string, white: char -> bool)
    ensures var t := TrimEnd(s, white);
            && |t| <= |s| && t == s[..|t|] && (t != "" ==> !white(t[|t| - 1]))
            && forall i :: |t| <= i < |s| ==> white(s[i])
    decreases |s|
  {
    if s != "" && white(s[|s| - 1]) { TrimmedEnd(s[..|s| - 1], white); }
  }

  /** What is cut off at both ends is white, and what is left neither begins nor ends white. */
  lemma Trimmed(s: string, white: char -> bool)
    ensures var n, t := |s| - |TrimStart(s, white)|, Trim(s, white);
            && 0 <= n && n + |t| <= |s| && t == s[n..n + |t|]
            && (t != "" ==> !white(t[0]) && !white(t[|t| - 1]))
            && forall i :: 0 <= i < n || n + |t| <= i < |s| ==> white(s[i])
  {
    var u, t := TrimStart(s, white), Trim(s, white);
    TrimmedStart(s, white);
    TrimmedEnd(u, white);
    var n := |s| - |u|;
    assert t == s[n..n + |t|];
    forall i | 0 <= i < n || n + |t| <= i < |s| ensures white(s[i]) {
      if i >= n { assert s[i] == u[i - n]; }
    }
  }

  lemma LevelWords(s: string)
    ensures forall i :: 0 <= i < 5 ==> (ClassifyStr(s) == LEVELS[i] <==> Lower(s) in WORDS[i])
    ensures ClassifyStr(s).Other? ==> ClassifyStr(s) == Other(s)
  {
    LowerWords();
  }

  lemma ThresholdWords(raw: string, white: char -> bool)
    ensures forall i :: 0 <= i < 5 ==>
              (ParseExitOnLevel(raw, white) == Some(THRESHOLDS[i]) <==> Lower(Trim(raw, white)) in WORDS[i])
  {
  }

  /** The level counted for an event: the one its word names, or info for a word that is none. */
  function Counted(level: LogLevel): LogLevel {
    if level.Other? then (if ClassifyStr(level.raw).Other? then Info else ClassifyStr(level.raw)) else level
  }

  /** In the order trace, debug, info, warn, error, the level is the threshold's or a later one. */
  ghost predicate Reaches(level: LogLevel, threshold: ExitOnLevel) {
    exists i, j :: 0 <= i <= j < 5 && threshold == THRESHOLDS[i] && Counted(level) == LEVELS[j]
  }

  lemma RanksReach(level: LogLevel, threshold: ExitOnLevel)
    ensures Rank(threshold) <= EventLevelRank(level) <==> Reaches(level, threshold)
  {
    LowerWords();
    assert THRESHOLDS[Rank(threshold)] == threshold && LEVELS[EventLevelRank(level)] == Counted(level);
    forall i | 0 <= i < 5 && THRESHOLDS[i] == threshold ensures i == Rank(threshold) {}
    forall j | 0 <= j < 5 && LEVELS[j] == Counted(level) ensures j == EventLevelRank(level) {}
  }

  lemma LowerWords()
    ensures Lower("error") == "error" && Lower("err") == "err" && Lower("fatal") == "fatal"
    ensures Lower("warn") == "warn" && Lower("warning") == "warning" && Lower("info") == "info"
    ensures Lower("debug") == "debug" && Lower("trace") == "trace"
  {
  }

  /** The command line knows exactly the words that classification knows, and gives them the same rank. A word neither
      knows ranks as info, and classifying a level first never changes its rank. */
  lemma ThresholdsMatchLevels(raw: string, white: char -> bool)
    ensures var word := Trim(raw, white);
            && (ParseExitOnLevel(raw, white).Some? <==> !ClassifyStr(word).Other?)
            && (ParseExitOnLevel(raw, white).Some? ==>
                  Rank(ParseExitOnLevel(raw, white).value) == EventLevelRank(ClassifyStr(word)))
            && (ClassifyStr(word).Other? ==> EventLevelRank(ClassifyStr(word)) == Rank(OnInfo))
            && EventLevelRank(Other(word)) == EventLevelRank(ClassifyStr(word))
  {
    LowerWords();
  }
}
