/**
 Looking up a field of a JSON document by a dot path: through a JSON Pointer for one JSON library,
 by walking the keys for the other one.
 */
module DotPath {
  import opened Wrappers
  import opened Text

  datatype Json =
    | Null
    | Bool(b: bool)
    | Number(text: string)
    | Str(s: string)
    | Arr(items: seq<Json>)
    | Obj(fields: map<string, Json>)

  const USIZE_MAX: nat := 0xFFFF_FFFF_FFFF_FFFF

  // ---- JSON Pointer (sections 3 and 4 of RFC 6901) ----

  /** `str::replace` of the two characters `a b` by `c`. */
  function ReplacePair(s: string, a: char, b: char, c: char): string {
    if |s| < 2 then s
    else if s[0] == a && s[1] == b then [c] + ReplacePair(s[2..], a, b, c)
    else [s[0]] + ReplacePair(s[1..], a, b, c)
  }

  /** Section 4: first "~1" becomes "/", then "~0" becomes "~". */
  function Unescape(token: string): string {
    ReplacePair(ReplacePair(token, '~', '1', '/'), '~', '0', '~')
  }

  predicate Digits(s: string) {
    s != "" && forall i :: 0 <= i < |s| ==> '0' <= s[i] <= '9'
  }

  function DigitsValue(s: string): nat
    requires Digits(s)
  {
    (if |s| == 1 then 0 else 10 * DigitsValue(s[..|s| - 1])) + (s[|s| - 1] as int - '0' as int)
  }

  /** The array index a reference token stands for: decimal digits without a leading zero that fit the index type. */
  function ArrayIndex(token: string): Option<nat> {
    if Digits(token) && (token[0] == '0' ==> |token| == 1) && DigitsValue(token) <= USIZE_MAX
    then Some(DigitsValue(token)) else None
  }

  /** A number as it is written. */
  function Decimal(n: nat): string {
    (if n < 10 then "" else Decimal(n / 10)) + [(n % 10 + '0' as int) as char]
  }

  lemma {:induction false} DecimalDigits(n: nat)
    ensures Digits(Decimal(n)) && DigitsValue(Decimal(n)) == n
    ensures Decimal(n)[0] == '0' <==> n == 0
    decreases n
  {
    if n >= 10 {
      DecimalDigits(n / 10);
      assert Decimal(n)[..|Decimal(n)| - 1] == Decimal(n / 10);
      assert Decimal(n)[0] == Decimal(n / 10)[0];
    }
  }

  lemma {:induction false} DigitsDecimal(s: string)
    requires Digits(s) && (s[0] == '0' ==> |s| == 1)
    ensures Decimal(DigitsValue(s)) == s
    ensures |s| > 1 ==> DigitsValue(s) >= 10
    decreases |s|
  {
    if |s| > 1 {
      var before, last := s[..|s| - 1], s[|s| - 1];
      LastDigit(s);
      DigitsDecimal(before);
      var n, digit := DigitsValue(before), last as int - '0' as int;
      NextDigit(n, digit);
      assert Decimal(DigitsValue(s)) == before + [last];
    } else {
      OneDigit(s);
    }
  }

  lemma OneDigit(s: string)
    requires Digits(s) && |s| == 1
    ensures Decimal(DigitsValue(s)) == s
  {
    assert s == [s[0]];
  }

  lemma LastDigit(s: string)
    requires Digits(s) && |s| > 1
    ensures var before, last := s[..|s| - 1], s[|s| - 1];
            && s == before + [last] && Digits(before) && before[0] == s[0]
            && DigitsValue(s) == 10 * DigitsValue(before) + (last as int - '0' as int)
            && (|before| == 1 && before[0] != '0' ==> DigitsValue(before) > 0)
  {
  }

  lemma NextDigit(n: nat, digit: nat)
    requires n > 0 && digit < 10
    ensures Decimal(10 * n + digit) == Decimal(n) + [(digit + '0' as int) as char]
  {
  }

  /** A token stands for an index exactly when it is a number as it is written that fits the index type. */
  lemma IndexIsDecimal(token: string, n: nat)
    ensures ArrayIndex(token) == Some(n) <==> token == Decimal(n) && n <= USIZE_MAX
  {
    DecimalDigits(n);
    if ArrayIndex(token) == Some(n) { DigitsDecimal(token); }
    assert token == Decimal(n) && token[0] == '0' ==> |token| == 1;
  }

  function Descend(doc: Json, token: string): Option<Json> {
    match doc
    case Obj(fields) => if token in fields then Some(fields[token]) else None
    case Arr(items) =>
      var i := ArrayIndex(token);
      if i.Some? && i.value < |items| then Some(items[i.value]) else None
    case _ => None
  }

  function DescendAll(doc: Json, tokens: seq<string>): Option<Json>
    decreases |tokens|
  {
    if tokens == [] then Some(doc)
    else
      var next := Descend(doc, tokens[0]);
      if next.None? then None else DescendAll(next.value, tokens[1..])
  }

  function Mapped(parts: seq<string>, f: string -> string): (r: seq<string>)
    ensures |r| == |parts| && forall i :: 0 <= i < |r| ==> r[i] == f(parts[i])
  {
    seq(|parts|, i requires 0 <= i < |parts| => f(parts[i]))
  }

  /** The reference tokens of a pointer. */
  function Tokens(pointer: string): Option<seq<string>> {
    if pointer == "" then Some([])
    else if pointer[0] != '/' then None
    else Some(Mapped(SplitOn(pointer, '/')[1..], Unescape))
  }

  function Evaluate(doc: Json, pointer: string): Option<Json> {
    var tokens := Tokens(pointer);
    if tokens.None? then None else DescendAll(doc, tokens.value)
  }

  // ---- Dot paths ----

  /** `p.replace('/', "~1")`: a '~' is left as it is. */
  function Escape(segment: string): string {
    if segment == "" then ""
    else (if segment[0] == '/' then "~1" else [segment[0]]) + Escape(segment[1..])
  }

  function JsonPointerFromDotPath(path: string): string {
    if path == "" then "" else "/" + Join(Mapped(SplitOn(path, '.'), Escape), '/')
  }

  function NonEmpty(segments: seq<string>): seq<string>
    decreases |segments|
  {
    if segments == [] then []
    else if segments[0] == "" then NonEmpty(segments[1..])
    else [segments[0]] + NonEmpty(segments[1..])
  }

  function DotPathKeys(path: string): seq<string> {
    NonEmpty(SplitOn(path, '.'))
  }

  /** The value under a list of keys: only objects are entered. */
  function Walk(doc: Json, keys: seq<string>): Option<Json>
    decreases |keys|
  {
    if keys == [] then Some(doc)
    else if doc.Obj? && keys[0] in doc.fields then Walk(doc.fields[keys[0]], keys[1..])
    else None
  }

  method ValDotPathWithKeys(doc: Json, keys: seq<string>) returns (found: Option<Json>)
    ensures found == Walk(doc, keys)
  {
    var current := doc;
    for i := 0 to |keys|
      invariant Walk(doc, keys) == Walk(current, keys[i..])
    {
      if !(current.Obj? && keys[i] in current.fields) { return None; }
      current := current.fields[keys[i]];
    }
    return Some(current);
  }

  /** The keys split off while walking. */
  method ValDotPath(doc: Json, path: string) returns (found: Option<Json>)
    ensures found == Walk(doc, DotPathKeys(path))
  {
    var current := doc;
    var segments := SplitOn(path, '.');
    for i := 0 to |segments|
      invariant Walk(doc, DotPathKeys(path)) == Walk(current, NonEmpty(segments[i..]))
    {
      if segments[i] == "" { continue; }
      if !(current.Obj? && segments[i] in current.fields) { return None; }
      current := current.fields[segments[i]];
    }
    return Some(current);
  }

  function AsStr(value: Option<Json>): Option<string> {
    if value.Some? && value.value.Str? then Some(value.value.s) else None
  }

  datatype Parsed = Serde(doc: Json) | Jaq(doc: Json)

  /** The string under a dot path, looked up the way of the library that parsed the document. */
  function LevelStr(parsed: Parsed, path: string): Option<string> {
    match parsed
    case Serde(doc) => AsStr(Evaluate(doc, JsonPointerFromDotPath(path)))
    case Jaq(doc) => AsStr(Walk(doc, DotPathKeys(path)))
  }

  /** Only strings are found. */
  lemma StringsAreFound(doc: Json, path: string, s: string)
    ensures LevelStr(Jaq(doc), path) == Some(s) <==> Walk(doc, DotPathKeys(path)) == Some(Str(s))
    ensures LevelStr(Serde(doc), path) == Some(s) <==> Evaluate(doc, JsonPointerFromDotPath(path)) == Some(Str(s))
  {
  }

  // ---- Escaping and unescaping ----

  predicate HasPair(s: string, a: char, b: char) {
    exists i :: 0 <= i < |s| - 1 && s[i] == a && s[i + 1] == b
  }

  lemma {:induction false} ReplaceLength(s: string, a: char, b: char, c: char)
    ensures |ReplacePair(s, a, b, c)| <= |s|
    ensures HasPair(s, a, b) ==> |ReplacePair(s, a, b, c)| < |s|
    ensures !HasPair(s, a, b) ==> ReplacePair(s, a, b, c) == s
  {
    if |s| >= 2 {
      if s[0] == a && s[1] == b {
        ReplaceLength(s[2..], a, b, c);
      } else {
        ReplaceLength(s[1..], a, b, c);
        if HasPair(s, a, b) {
          var i :| 0 <= i < |s| - 1 && s[i] == a && s[i + 1] == b;
          assert s[1..][i - 1] == a && s[1..][i] == b;
        } else {
          var t := s[1..];
          forall i | 0 <= i < |t| - 1 ensures !(t[i] == a && t[i + 1] == b) {
            assert t[i] == s[i + 1] && t[i + 1] == s[i + 2];
          }
        }
      }
    }
  }

  /** Escaped slashes come back, whatever else the segment holds. */
  lemma {:induction false} EscapedSlashes(p: string)
    ensures ReplacePair(Escape(p), '~', '1', '/') == ReplacePair(p, '~', '1', '/')
  {
    if p == "" {
    } else if p[0] == '/' {
      EscapedSlashes(p[1..]);
      assert Escape(p)[2..] == Escape(p[1..]);
      assert p == [p[0]] + p[1..];
    } else if |p| == 1 {
      assert Escape(p) == p;
    } else if p[0] == '~' && p[1] == '1' {
      EscapedPair(p);
      EscapedSlashes(p[2..]);
    } else {
      EscapedSlashes(p[1..]);
      assert Escape(p)[1..] == Escape(p[1..]) && Escape(p[1..]) != "";
      assert Escape(p)[1] == '1' ==> p[1] == '1';
    }
  }

  lemma EscapedPair(p: string)
    requires |p| >= 2 && p[0] == '~' && p[1] == '1'
    ensures |Escape(p)| >= 2 && Escape(p)[0] == '~' && Escape(p)[1] == '1' && Escape(p)[2..] == Escape(p[2..])
  {
    assert Escape(p[1..]) == "1" + Escape(p[1..][1..]) && p[1..][1..] == p[2..];
    assert Escape(p) == "~1" + Escape(p[2..]);
  }

  /** A segment that reads as an escape sequence by itself is changed; no other is. */
  predicate Clean(segment: string) {
    !HasPair(segment, '~', '0') && !HasPair(segment, '~', '1')
  }

  lemma UnescapeEscape(p: string)
    ensures Unescape(Escape(p)) == p <==> Clean(p)
  {
    EscapedSlashes(p);
    ReplaceLength(p, '~', '1', '/');
    ReplaceLength(ReplacePair(p, '~', '1', '/'), '~', '0', '~');
  }

  lemma {:induction false} EscapeHasNoSlash(p: string)
    ensures '/' !in Escape(p)
  {
    if p != "" { EscapeHasNoSlash(p[1..]); }
  }

  /** The tokens of the pointer made from a path. */
  function PointerTokens(path: string): seq<string> {
    if path == "" then [] else Mapped(Mapped(SplitOn(path, '.'), Escape), Unescape)
  }

  lemma PointerTokensAre(path: string)
    ensures Tokens(JsonPointerFromDotPath(path)) == Some(PointerTokens(path))
  {
    if path != "" {
      var parts := Mapped(SplitOn(path, '.'), Escape);
      forall p | p in parts ensures '/' !in p {
        var i :| 0 <= i < |parts| && parts[i] == p;
        EscapeHasNoSlash(SplitOn(path, '.')[i]);
      }
      var pointer := "/" + Join(parts, '/');
      assert pointer[1..] == Join(parts, '/');
      SplitJoin(parts, '/');
      assert SplitOn(pointer, '/') == [""] + parts;
    }
  }

  // ---- When the two lookups agree ----

  predicate GoodPath(path: string) {
    path == "" || forall p :: p in SplitOn(path, '.') ==> p != "" && Clean(p)
  }

  lemma {:induction false} NonEmptyKeeps(segments: seq<string>)
    ensures |NonEmpty(segments)| <= |segments|
    ensures "" in segments ==> |NonEmpty(segments)| < |segments|
    ensures "" !in segments ==> NonEmpty(segments) == segments
    decreases |segments|
  {
    if segments != [] { NonEmptyKeeps(segments[1..]); }
  }

  lemma SameKeys(path: string)
    ensures PointerTokens(path) == DotPathKeys(path) <==> GoodPath(path)
  {
    var segments := SplitOn(path, '.');
    NonEmptyKeeps(segments);
    if path != "" {
      forall i | 0 <= i < |segments| ensures PointerTokens(path)[i] == segments[i] <==> Clean(segments[i]) {
        UnescapeEscape(segments[i]);
      }
      if GoodPath(path) {
        assert forall i :: 0 <= i < |segments| ==> segments[i] in segments;
      }
    }
  }

  /** No array is met before the keys are used up. */
  predicate NoArrayOn(doc: Json, keys: seq<string>)
    decreases |keys|
  {
    keys == [] || (!doc.Arr? && (doc.Obj? && keys[0] in doc.fields ==> NoArrayOn(doc.fields[keys[0]], keys[1..])))
  }

  lemma {:induction false} DescendIsWalk(doc: Json, keys: seq<string>)
    requires NoArrayOn(doc, keys) || forall k :: k in keys ==> ArrayIndex(k).None?
    ensures DescendAll(doc, keys) == Walk(doc, keys)
    decreases |keys|
  {
    if keys != [] && doc.Obj? && keys[0] in doc.fields { DescendIsWalk(doc.fields[keys[0]], keys[1..]); }
  }

  /** One string below `keys`. */
  function Chain(keys: seq<string>, leaf: Json): Json
    decreases |keys|
  {
    if keys == [] then leaf else Obj(map[keys[0] := Chain(keys[1..], leaf)])
  }

  lemma {:induction false} ChainHolds(keys: seq<string>, leaf: Json, rest: seq<string>)
    ensures Walk(Chain(keys, leaf), keys + rest) == Walk(leaf, rest)
    ensures DescendAll(Chain(keys, leaf), keys + rest) == DescendAll(leaf, rest)
    ensures NoArrayOn(leaf, rest) ==> NoArrayOn(Chain(keys, leaf), keys + rest)
    decreases |keys|
  {
    if keys == [] {
      assert keys + rest == rest;
    } else {
      assert (keys + rest)[1..] == keys[1..] + rest;
      ChainHolds(keys[1..], leaf, rest);
    }
  }

  lemma {:induction false} ChainHoldsOnly(keys: seq<string>, s: string, tokens: seq<string>)
    requires AsStr(DescendAll(Chain(keys, Str(s)), tokens)).Some?
    ensures tokens == keys
    decreases |keys|
  {
    if keys != [] && tokens != [] {
      ChainHoldsOnly(keys[1..], s, tokens[1..]);
      assert tokens == [tokens[0]] + tokens[1..] && keys == [keys[0]] + keys[1..];
    }
  }

  ghost predicate Agrees(doc: Json, path: string) {
    LevelStr(Serde(doc), path) == LevelStr(Jaq(doc), path)
  }

  /** Both representations of a document have the same string under the path, for all documents without an array on the
      way, exactly when no segment is empty and none holds "~0" or "~1". (The empty path stands for the document.) */
  lemma LookupsAgree(path: string)
    ensures (forall doc :: NoArrayOn(doc, DotPathKeys(path)) ==> Agrees(doc, path)) <==> GoodPath(path)
  {
    PointerTokensAre(path);
    SameKeys(path);
    if GoodPath(path) {
      forall doc | NoArrayOn(doc, DotPathKeys(path)) ensures Agrees(doc, path) {
        DescendIsWalk(doc, DotPathKeys(path));
      }
    } else {
      BadPathDisagrees(path);
    }
  }

  lemma BadPathDisagrees(path: string)
    requires PointerTokens(path) != DotPathKeys(path)
    ensures exists doc :: NoArrayOn(doc, DotPathKeys(path)) && !Agrees(doc, path)
  {
    var keys := DotPathKeys(path);
    var doc := Chain(keys, Str("error"));
    ChainHolds(keys, Str("error"), []);
    assert keys + [] == keys;
    PointerTokensAre(path);
    if Agrees(doc, path) { ChainHoldsOnly(keys, "error", PointerTokens(path)); }
  }

  /** With arrays allowed they agree on all documents exactly when, besides, no segment is an array index. */
  lemma LookupsAgreeOnArrays(path: string)
    ensures (forall doc :: Agrees(doc, path))
            <==> GoodPath(path) && forall k :: k in DotPathKeys(path) ==> ArrayIndex(k).None?
  {
    var keys := DotPathKeys(path);
    if !GoodPath(path) {
      SameKeys(path);
      BadPathDisagrees(path);
    } else if exists k :: k in keys && ArrayIndex(k).Some? {
      var i :| 0 <= i < |keys| && ArrayIndex(keys[i]).Some?;
      IndexDisagrees(path, i);
    } else {
      forall doc ensures Agrees(doc, path) { AgreesWithoutIndex(doc, path); }
    }
  }

  lemma IndexDisagrees(path: string, i: nat)
    requires GoodPath(path) && i < |DotPathKeys(path)| && ArrayIndex(DotPathKeys(path)[i]).Some?
    ensures exists doc :: !Agrees(doc, path)
  {
    var keys := DotPathKeys(path);
    PointerTokensAre(path);
    SameKeys(path);
    ArrayDisagrees(keys, i, ArrayIndex(keys[i]).value);
    var doc {:trigger Walk(doc, keys)} :| AsStr(DescendAll(doc, keys)) != AsStr(Walk(doc, keys));
    assert !Agrees(doc, path);
  }

  lemma AgreesWithoutIndex(doc: Json, path: string)
    requires GoodPath(path) && forall k :: k in DotPathKeys(path) ==> ArrayIndex(k).None?
    ensures Agrees(doc, path)
  {
    PointerTokensAre(path);
    SameKeys(path);
    DescendIsWalk(doc, DotPathKeys(path));
  }

  lemma ArrayDisagrees(keys: seq<string>, i: nat, n: nat)
    requires i < |keys| && ArrayIndex(keys[i]) == Some(n)
    ensures exists doc {:trigger Walk(doc, keys)} :: AsStr(DescendAll(doc, keys)) != AsStr(Walk(doc, keys))
  {
    var below := Chain(keys[i + 1..], Str("error"));
    var list := Arr(seq(n + 1, _ => below));
    var doc := Chain(keys[..i], list);
    assert DescendAll(below, keys[i + 1..]) == Some(Str("error")) by {
      assert keys[i + 1..] + [] == keys[i + 1..];
      ChainHolds(keys[i + 1..], Str("error"), []);
    }
    ListDisagrees(keys[i..], n, below);
    assert DescendAll(doc, keys) == DescendAll(list, keys[i..]) && Walk(doc, keys) == Walk(list, keys[i..]) by {
      assert keys == keys[..i] + keys[i..];
      ChainHolds(keys[..i], list, keys[i..]);
    }
    assert AsStr(DescendAll(doc, keys)) != AsStr(Walk(doc, keys));
  }

  lemma ListDisagrees(keys: seq<string>, n: nat, below: Json)
    requires keys != [] && ArrayIndex(keys[0]) == Some(n)
    ensures var list := Arr(seq(n + 1, _ => below));
            DescendAll(list, keys) == DescendAll(below, keys[1..]) && Walk(list, keys) == None
  {
  }
}
