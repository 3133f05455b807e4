/**
 From a workload's label selector to the selector text of a list or watch request, and what that text means.
 */
module Selector {
  import opened Wrappers
  import opened Text

  type Labels = map<string, string>

  /** A sorted map, as it iterates. */
  type Entries = seq<(string, string)>

  datatype Requirement = Requirement(key: string, operator: string, values: Option<seq<string>>)
  datatype LabelSelector = LabelSelector(matchLabels: Option<Entries>, matchExpressions: Option<seq<Requirement>>)
  datatype Kind = Pod | Workload

  // ---- Printing ----

  function Equality(e: (string, string)): string {
    e.0 + "=" + e.1
  }

  function Equalities(m: Entries): (r: seq<string>)
    ensures |r| == |m| && forall i :: 0 <= i < |r| ==> r[i] == Equality(m[i])
  {
    seq(|m|, i requires 0 <= i < |m| => Equality(m[i]))
  }

  function BtreeToLabelSelector(m: Entries): string {
    Join(Equalities(m), ',')
  }

  function ValuesOf(req: Requirement): seq<string> {
    if req.values.Some? then req.values.value else []
  }

  predicate IsSetOperator(operator: string) {
    operator == "In" || operator == "NotIn"
  }

  function SetWord(operator: string): string {
    if operator == "In" then "in" else "notin"
  }

  function MatchExpressionFragment(req: Requirement): Option<string> {
    if IsSetOperator(req.operator) then
      if ValuesOf(req) == [] then None
      else Some(req.key + " " + SetWord(req.operator) + " (" + Join(Sort(ValuesOf(req), StringLe), ',') + ")")
    else if req.operator == "Exists" then Some(req.key)
    else if req.operator == "DoesNotExist" then Some("!" + req.key)
    else None
  }

  function Fragments(reqs: seq<Requirement>): seq<string>
    decreases |reqs|
  {
    if reqs == [] then []
    else
      var before, last := Fragments(reqs[..|reqs| - 1]), MatchExpressionFragment(reqs[|reqs| - 1]);
      if last.None? then before else before + [last.value]
  }

  function OrNone<T>(m: Option<seq<T>>): seq<T> {
    if m.Some? then m.value else []
  }

  /** The template's labels stand in for a selector that has nothing at all. */
  function Parts(ls: LabelSelector, template: Option<Entries>): seq<string> {
    var labels, reqs := OrNone(ls.matchLabels), OrNone(ls.matchExpressions);
    Equalities(labels) + Fragments(reqs) + (if labels == [] && reqs == [] then Equalities(OrNone(template)) else [])
  }

  function LabelSelectorFor(kind: Kind, name: string): string {
    if kind == Pod then "metadata.name=" + name else "app=" + name
  }

  method PushEqualities(before: seq<string>, m: Entries) returns (parts: seq<string>)
    ensures parts == before + Equalities(m)
  {
    parts := before;
    for i := 0 to |m|
      invariant parts == before + Equalities(m)[..i]
    {
      parts := parts + [Equality(m[i])];
    }
  }

  method PushFragments(before: seq<string>, reqs: seq<Requirement>) returns (parts: seq<string>)
    ensures parts == before + Fragments(reqs)
  {
    parts := before;
    for i := 0 to |reqs|
      invariant parts == before + Fragments(reqs[..i])
    {
      assert reqs[..i + 1][..i] == reqs[..i];
      var fragment := MatchExpressionFragment(reqs[i]);
      if fragment.Some? { parts := parts + [fragment.value]; }
    }
    assert reqs[..|reqs|] == reqs;
  }

  method LabelSelectorFromMeta(ls: LabelSelector, template: Option<Entries>, name: string) returns (text: string)
    ensures text == if Parts(ls, template) == [] then "app=" + name
                    else Join(Sort(Parts(ls, template), StringLe), ',')
  {
    var parts := [];
    if ls.matchLabels.Some? { parts := PushEqualities(parts, ls.matchLabels.value); }
    if ls.matchExpressions.Some? { parts := PushFragments(parts, ls.matchExpressions.value); }
    assert parts == Equalities(OrNone(ls.matchLabels)) + Fragments(OrNone(ls.matchExpressions));
    if OrNone(ls.matchLabels) == [] && OrNone(ls.matchExpressions) == [] && template.Some? {
      parts := PushEqualities(parts, template.value);
    }
    assert parts == Parts(ls, template);
    if parts == [] { return "app=" + name; }
    text := Join(Sort(parts, StringLe), ',');
  }

  // ---- Meaning of a selector ----

  /** `other` is whatever operators mean that are not known here. */
  predicate Means(req: Requirement, labels: Labels, other: (Requirement, Labels) -> bool) {
    if req.operator == "In" then req.key in labels && labels[req.key] in ValuesOf(req)
    else if req.operator == "NotIn" then req.key !in labels || labels[req.key] !in ValuesOf(req)
    else if req.operator == "Exists" then req.key in labels
    else if req.operator == "DoesNotExist" then req.key !in labels
    else other(req, labels)
  }

  predicate HasLabels(m: Entries, labels: Labels) {
    forall e :: e in m ==> e.0 in labels && labels[e.0] == e.1
  }

  predicate Matches(ls: LabelSelector, labels: Labels, other: (Requirement, Labels) -> bool) {
    && HasLabels(OrNone(ls.matchLabels), labels)
    && forall r :: r in OrNone(ls.matchExpressions) ==> Means(r, labels, other)
  }

  // ---- Meaning of the text (Kubernetes documentation, "Labels and Selectors") ----

  datatype Condition =
    | Equals(key: string, value: string)
    | In(key: string, values: seq<string>)
    | NotIn(key: string, values: seq<string>)
    | Exists(key: string)
    | DoesNotExist(key: string)

  predicate Holds(c: Condition, labels: Labels) {
    match c
    case Equals(k, v) => k in labels && labels[k] == v
    case In(k, vs) => k in labels && labels[k] in vs
    case NotIn(k, vs) => k !in labels || labels[k] !in vs
    case Exists(k) => k in labels
    case DoesNotExist(k) => k !in labels
  }

  predicate WordChar(c: char) {
    'a' <= c <= 'z' || 'A' <= c <= 'Z' || '0' <= c <= '9' || c == '-' || c == '_' || c == '.' || c == '/'
  }

  predicate Word(s: string) {
    forall i :: 0 <= i < |s| ==> WordChar(s[i])
  }

  predicate IsKey(s: string) {
    s != "" && Word(s)
  }

  predicate Words(values: seq<string>) {
    forall v :: v in values ==> Word(v)
  }

  /** A list of values in parentheses. It is not empty. */
  function ParseValues(s: string): Option<seq<string>> {
    if |s| > 2 && s[0] == '(' && s[|s| - 1] == ')' && Words(SplitOn(s[1..|s| - 1], ','))
    then Some(SplitOn(s[1..|s| - 1], ',')) else None
  }

  function ParseCondition(s: string): Option<Condition> {
    var sides, words := SplitOn(s, '='), SplitOn(s, ' ');
    if s != "" && s[0] == '!' then (if IsKey(s[1..]) then Some(DoesNotExist(s[1..])) else None)
    else if IsKey(s) then Some(Exists(s))
    else if |sides| == 2 then (if IsKey(sides[0]) && Word(sides[1]) then Some(Equals(sides[0], sides[1])) else None)
    else if |words| == 3 && IsKey(words[0]) && ParseValues(words[2]).Some? then
      if words[1] == "in" then Some(In(words[0], ParseValues(words[2]).value))
      else if words[1] == "notin" then Some(NotIn(words[0], ParseValues(words[2]).value))
      else None
    else None
  }

  /** Commas separate conditions, except between parentheses. */
  function SplitTop(s: string, inside: bool): (parts: seq<string>)
    ensures parts != []
  {
    if s == "" then [""]
    else if s[0] == ',' && !inside then [""] + SplitTop(s[1..], false)
    else
      var rest := SplitTop(s[1..], s[0] == '(' || (inside && s[0] != ')'));
      [[s[0]] + rest[0]] + rest[1..]
  }

  predicate Parses(text: string) {
    forall p :: p in SplitTop(text, false) ==> ParseCondition(p).Some?
  }

  predicate Selects(text: string, labels: Labels)
    requires Parses(text)
  {
    forall p :: p in SplitTop(text, false) ==> Holds(ParseCondition(p).value, labels)
  }

  // ---- Splitting undoes joining ----

  /** Whether reading `s` ends between parentheses; none when a comma outside of them is met. */
  function Scan(s: string, inside: bool): Option<bool> {
    if s == "" then Some(inside)
    else if s[0] == ',' && !inside then None
    else Scan(s[1..], s[0] == '(' || (inside && s[0] != ')'))
  }

  lemma {:induction false} ScanAppend(a: string, b: string, inside: bool)
    requires Scan(a, inside).Some?
    ensures Scan(a + b, inside) == Scan(b, Scan(a, inside).value)
  {
    if a == "" {
      assert a + b == b;
    } else {
      assert (a + b)[1..] == a[1..] + b;
      ScanAppend(a[1..], b, a[0] == '(' || (inside && a[0] != ')'));
    }
  }

  lemma {:induction false} ScanPlain(s: string, inside: bool)
    requires forall i :: 0 <= i < |s| ==> s[i] != '(' && s[i] != ')' && (s[i] == ',' ==> inside)
    ensures Scan(s, inside) == Some(inside)
  {
    if s != "" { ScanPlain(s[1..], inside); }
  }

  lemma SplitTopPart(part: string, rest: string, inside: bool)
    requires Scan(part, inside).Some?
    ensures var tail := SplitTop(rest, Scan(part, inside).value);
            SplitTop(part + rest, inside) == [part + tail[0]] + tail[1..]
  {
    SplitTopEnds(part, rest, inside);
    var all := SplitTop(part + rest, inside);
    assert all == [all[0]] + all[1..];
  }

  lemma {:induction false} SplitTopEnds(part: string, rest: string, inside: bool)
    requires Scan(part, inside).Some?
    ensures var (all, tail) := (SplitTop(part + rest, inside), SplitTop(rest, Scan(part, inside).value));
            all[0] == part + tail[0] && all[1..] == tail[1..]
  {
    if part == "" {
      assert part + rest == rest;
      assert part + SplitTop(rest, inside)[0] == SplitTop(rest, inside)[0];
    } else {
      var next := part[0] == '(' || (inside && part[0] != ')');
      SplitTopEnds(part[1..], rest, next);
      SplitTopFirst(part, rest, inside, next);
      AfterFirst(part, SplitTop(rest, Scan(part, inside).value)[0]);
    }
  }

  lemma AfterFirst(part: string, more: string)
    requires part != ""
    ensures [part[0]] + (part[1..] + more) == part + more
  {
  }

  lemma SplitTopFirst(part: string, rest: string, inside: bool, next: bool)
    requires part != "" && (part[0] != ',' || inside) && next == (part[0] == '(' || (inside && part[0] != ')'))
    ensures var tail := SplitTop(part[1..] + rest, next);
            SplitTop(part + rest, inside) == [[part[0]] + tail[0]] + tail[1..]
  {
    assert (part + rest)[1..] == part[1..] + rest;
  }

  lemma {:induction false} SplitTopJoin(parts: seq<string>)
    requires parts != [] && forall p :: p in parts ==> Scan(p, false) == Some(false)
    ensures SplitTop(Join(parts, ','), false) == parts
  {
    if |parts| == 1 {
      SplitTopAlone(parts[0]);
    } else {
      var first, rest := parts[0], parts[1..];
      SplitTopJoin(rest);
      SplitTopComma(first, Join(rest, ','));
      JoinFirst(parts, ',');
      assert parts == [first] + rest;
    }
  }

  lemma JoinFirst(parts: seq<string>, sep: char)
    requires |parts| > 1
    ensures Join(parts, sep) == parts[0] + ([sep] + Join(parts[1..], sep))
  {
  }

  lemma SplitTopAlone(part: string)
    requires Scan(part, false) == Some(false)
    ensures SplitTop(part, false) == [part]
  {
    SplitTopPart(part, "", false);
    assert part + "" == part;
  }

  lemma SplitTopComma(part: string, rest: string)
    requires Scan(part, false) == Some(false)
    ensures SplitTop(part + ("," + rest), false) == [part] + SplitTop(rest, false)
  {
    assert ("," + rest)[1..] == rest;
    assert SplitTop("," + rest, false) == [""] + SplitTop(rest, false);
    SplitTopPart(part, "," + rest, false);
    assert part + "" == part;
  }

  // ---- Parsing undoes printing ----

  lemma NoSplit(s: string, sep: char)
    requires sep !in s
    ensures SplitOn(s, sep) == [s]
  {
    SplitPart(s, "", sep);
    assert s + "" == s;
  }

  lemma EqualityParses(e: (string, string))
    requires IsKey(e.0) && Word(e.1)
    ensures Scan(Equality(e), false) == Some(false)
    ensures ParseCondition(Equality(e)) == Some(Equals(e.0, e.1))
  {
    var text := Equality(e);
    ScanPlain(text, false);
    assert Join([e.0, e.1], '=') == text by { assert [e.0, e.1][1..] == [e.1]; }
    SplitJoin([e.0, e.1], '=');
    assert text[0] == e.0[0] && text[|e.0|] == '=';
  }

  lemma SortedValues(values: seq<string>)
    ensures var sorted := Sort(values, StringLe);
            && |sorted| == |values| && (sorted == [""] <==> values == [""])
            && forall v :: v in sorted <==> v in values
  {
    StringOrder();
    SortSorts(values, StringLe);
    var sorted := Sort(values, StringLe);
    assert |sorted| == |multiset(sorted)| == |values|;
    forall v ensures v in sorted <==> v in values {
      assert v in sorted <==> v in multiset(sorted);
    }
    if |values| == 1 { assert values[0] in sorted && sorted[0] in values; }
  }

  lemma {:induction false} JoinedWords(parts: seq<string>)
    requires Words(parts) && parts != []
    ensures var inner := Join(parts, ',');
            && (forall i :: 0 <= i < |inner| ==> WordChar(inner[i]) || inner[i] == ',')
            && (inner == "" <==> parts == [""])
    decreases |parts|
  {
    if |parts| == 1 {
      assert parts[0] in parts && parts == [parts[0]];
    } else {
      assert parts[0] in parts;
      JoinedWords(parts[1..]);
    }
  }

  lemma ValuesParse(parts: seq<string>)
    requires Words(parts) && parts != []
    ensures var s := "(" + Join(parts, ',') + ")";
            && Scan(s, false) == Some(false)
            && ' ' !in s && '=' !in s
            && ParseValues(s) == if parts == [""] then None else Some(parts)
  {
    var inner := Join(parts, ',');
    JoinedWords(parts);
    InParenthesesScans(inner);
    forall p | p in parts ensures ',' !in p { assert Word(p); }
    SplitJoin(parts, ',');
    var s := "(" + inner + ")";
    assert s[1..|s| - 1] == inner;
  }

  lemma InParenthesesScans(inner: string)
    requires forall i :: 0 <= i < |inner| ==> inner[i] != '(' && inner[i] != ')'
    ensures Scan("(" + inner + ")", false) == Some(false)
  {
    var s := "(" + inner + ")";
    ScanPlain(inner, true);
    ScanAppend(inner, ")", true);
    assert s[1..] == inner + ")";
  }

  function SetText(key: string, word: string, list: string): string {
    key + " " + word + " " + list
  }

  lemma JoinThree(a: string, b: string, c: string, sep: char)
    ensures Join([a, b, c], sep) == a + [sep] + b + [sep] + c
  {
    assert [a, b, c][1..] == [b, c] && [b, c][1..] == [c];
    assert Join([b, c], sep) == b + [sep] + c;
  }

  lemma SetTextScans(key: string, word: string, list: string)
    requires Word(key) && Word(word) && Scan(list, false) == Some(false)
    ensures Scan(SetText(key, word, list), false) == Some(false)
  {
    var head := key + " " + word + " ";
    ScanPlain(head, false);
    ScanAppend(head, list, false);
    assert SetText(key, word, list) == head + list;
  }

  lemma SetTextSplits(key: string, word: string, list: string)
    requires IsKey(key) && Word(word) && ' ' !in list && '=' !in list
    ensures var s := SetText(key, word, list);
            && SplitOn(s, ' ') == [key, word, list] && SplitOn(s, '=') == [s]
            && s != "" && s[0] != '!' && !IsKey(s)
  {
    var s := SetText(key, word, list);
    JoinThree(key, word, list, ' ');
    assert Join([key, word, list], ' ') == s;
    SplitJoin([key, word, list], ' ');
    NoSplit(s, '=');
    assert s[0] == key[0] && s[|key|] == ' ';
  }

  lemma SetTextParses(key: string, word: string, list: string)
    requires IsKey(key) && (word == "in" || word == "notin") && ' ' !in list && '=' !in list
    ensures ParseCondition(SetText(key, word, list))
            == match ParseValues(list)
               case None => None
               case Some(vs) => Some(if word == "in" then In(key, vs) else NotIn(key, vs))
  {
    SetTextSplits(key, word, list);
  }

  predicate ProperRequirement(req: Requirement) {
    IsKey(req.key) && Words(ValuesOf(req))
  }

  /** A requirement that is printed reads back with its meaning, except for the one value list that prints as "()". */
  lemma FragmentParses(req: Requirement)
    requires ProperRequirement(req) && MatchExpressionFragment(req).Some?
    ensures var s := MatchExpressionFragment(req).value;
            && Scan(s, false) == Some(false)
            && (ParseCondition(s).Some? <==> !(IsSetOperator(req.operator) && ValuesOf(req) == [""]))
            && (ParseCondition(s).Some? ==>
                  forall labels, other :: Holds(ParseCondition(s).value, labels) <==> Means(req, labels, other))
  {
    var s := MatchExpressionFragment(req).value;
    if IsSetOperator(req.operator) {
      var sorted := Sort(ValuesOf(req), StringLe);
      SortedValues(ValuesOf(req));
      ValuesParse(sorted);
      var list := "(" + Join(sorted, ',') + ")";
      assert s == SetText(req.key, SetWord(req.operator), list);
      SetTextScans(req.key, SetWord(req.operator), list);
      SetTextParses(req.key, SetWord(req.operator), list);
    } else {
      ScanPlain(s, false);
      if req.operator == "DoesNotExist" { assert s[1..] == req.key; }
    }
  }

  // ---- Results ----

  /** Keys and values have the label syntax, as in any object the API server accepts. */
  ghost predicate Proper(ls: LabelSelector) {
    && (forall e :: e in OrNone(ls.matchLabels) ==> IsKey(e.0) && Word(e.1))
    && (forall r :: r in OrNone(ls.matchExpressions) ==> ProperRequirement(r))
  }

  /** The one list of values that cannot be printed. */
  predicate OnlyEmptyValue(req: Requirement) {
    IsSetOperator(req.operator) && ValuesOf(req) == [""]
  }

  /** The operator is known, and its set, if it takes one, is not empty. */
  predicate Supported(req: Requirement) {
    match req.operator
    case "In" => ValuesOf(req) != []
    case "NotIn" => ValuesOf(req) != []
    case "Exists" => true
    case "DoesNotExist" => true
    case _ => false
  }

  ghost predicate PartFrom(p: string, ls: LabelSelector) {
    || (exists e :: e in OrNone(ls.matchLabels) && p == Equality(e))
    || (exists r :: r in OrNone(ls.matchExpressions) && MatchExpressionFragment(r) == Some(p))
  }

  lemma {:induction false} FragmentsAre(reqs: seq<Requirement>, p: string)
    ensures p in Fragments(reqs) <==> exists r :: r in reqs && MatchExpressionFragment(r) == Some(p)
    decreases |reqs|
  {
    if reqs != [] {
      FragmentsAre(reqs[..|reqs| - 1], p);
      assert reqs == reqs[..|reqs| - 1] + [reqs[|reqs| - 1]];
    }
  }

  lemma PartsAre(ls: LabelSelector, p: string)
    requires OrNone(ls.matchLabels) != [] || OrNone(ls.matchExpressions) != []
    ensures p in Parts(ls, None) <==> PartFrom(p, ls)
  {
    FragmentsAre(OrNone(ls.matchExpressions), p);
    var labels := OrNone(ls.matchLabels);
    if e :| e in labels && p == Equality(e) {
      var i :| 0 <= i < |labels| && labels[i] == e;
      assert Equalities(labels)[i] == p;
    }
    if p in Equalities(labels) {
      var i :| 0 <= i < |labels| && Equalities(labels)[i] == p;
      assert labels[i] in labels;
    }
  }

  /** The parts of a text that was sorted and joined. */
  lemma TextParts(parts: seq<string>, text: string)
    requires parts != [] && text == Join(Sort(parts, StringLe), ',')
    requires forall p :: p in parts ==> Scan(p, false) == Some(false)
    ensures forall p :: p in SplitTop(text, false) <==> p in parts
  {
    SortedValues(parts);
    SplitTopJoin(Sort(parts, StringLe));
  }

  lemma PartScans(ls: LabelSelector, p: string)
    requires Proper(ls) && PartFrom(p, ls)
    ensures Scan(p, false) == Some(false)
    ensures ParseCondition(p).Some? || exists r :: r in OrNone(ls.matchExpressions) && OnlyEmptyValue(r)
  {
    if e :| e in OrNone(ls.matchLabels) && p == Equality(e) {
      EqualityParses(e);
    } else {
      var r :| r in OrNone(ls.matchExpressions) && MatchExpressionFragment(r) == Some(p);
      FragmentParses(r);
    }
  }

  /** Of a selector of which something is printed, the text can be read unless some list of values is just the empty
      string, and then it means the labels and the requirements that were not skipped. */
  lemma TextMeansPrinted(ls: LabelSelector, text: string, labels: Labels, other: (Requirement, Labels) -> bool)
    requires Proper(ls) && (OrNone(ls.matchLabels) != [] || OrNone(ls.matchExpressions) != [])
    requires Parts(ls, None) != [] && text == Join(Sort(Parts(ls, None), StringLe), ',')
    ensures Parses(text) <==> forall r :: r in OrNone(ls.matchExpressions) ==> !OnlyEmptyValue(r)
    ensures Parses(text) ==>
              (Selects(text, labels) <==>
                 && HasLabels(OrNone(ls.matchLabels), labels)
                 && forall r :: r in OrNone(ls.matchExpressions) && Supported(r) ==> Means(r, labels, other))
  {
    PrintedParses(ls, text, labels, other);
    if Parses(text) {
      PrintedParts(ls, text);
      forall p | p in SplitTop(text, false)
        ensures HasLabels(OrNone(ls.matchLabels), labels) && MeansPrinted(ls, labels, other) ==>
                  Holds(ParseCondition(p).value, labels)
      {
        PartHolds(ls, p, labels, other);
      }
      if Selects(text, labels) { SelectsMeans(ls, text, labels, other); }
    }
  }

  /** All requirements that are printed are met. */
  predicate MeansPrinted(ls: LabelSelector, labels: Labels, other: (Requirement, Labels) -> bool) {
    forall r :: r in OrNone(ls.matchExpressions) && Supported(r) ==> Means(r, labels, other)
  }

  lemma PrintedParses(ls: LabelSelector, text: string, labels: Labels, other: (Requirement, Labels) -> bool)
    requires Proper(ls) && (OrNone(ls.matchLabels) != [] || OrNone(ls.matchExpressions) != [])
    requires Parts(ls, None) != [] && text == Join(Sort(Parts(ls, None), StringLe), ',')
    ensures Parses(text) <==> forall r :: r in OrNone(ls.matchExpressions) ==> !OnlyEmptyValue(r)
  {
    PrintedParts(ls, text);
    if r :| r in OrNone(ls.matchExpressions) && OnlyEmptyValue(r) {
      PrintedPart(ls, r, labels, other);
      assert MatchExpressionFragment(r).value in SplitTop(text, false);
    }
  }

  /** A part that can be read holds when what it was printed for is met. */
  lemma PartHolds(ls: LabelSelector, p: string, labels: Labels, other: (Requirement, Labels) -> bool)
    requires Proper(ls) && p in Parts(ls, None) && ParseCondition(p).Some?
    requires OrNone(ls.matchLabels) != [] || OrNone(ls.matchExpressions) != []
    ensures HasLabels(OrNone(ls.matchLabels), labels) && MeansPrinted(ls, labels, other) ==>
              Holds(ParseCondition(p).value, labels)
  {
    PartsAre(ls, p);
    if e :| e in OrNone(ls.matchLabels) && p == Equality(e) {
      PrintedLabel(ls, e);
    } else {
      var r :| r in OrNone(ls.matchExpressions) && MatchExpressionFragment(r) == Some(p);
      PrintedPart(ls, r, labels, other);
    }
  }

  lemma SelectsMeans(ls: LabelSelector, text: string, labels: Labels, other: (Requirement, Labels) -> bool)
    requires Proper(ls) && Parses(text) && Selects(text, labels)
    requires forall p :: p in SplitTop(text, false) <==> p in Parts(ls, None)
    ensures HasLabels(OrNone(ls.matchLabels), labels) && MeansPrinted(ls, labels, other)
  {
    forall e | e in OrNone(ls.matchLabels) ensures e.0 in labels && labels[e.0] == e.1 {
      PrintedLabel(ls, e);
      assert Equality(e) in SplitTop(text, false);
    }
    forall r | r in OrNone(ls.matchExpressions) && Supported(r) ensures Means(r, labels, other) {
      PrintedPart(ls, r, labels, other);
      assert MatchExpressionFragment(r).value in SplitTop(text, false);
    }
  }

  lemma PrintedParts(ls: LabelSelector, text: string)
    requires Proper(ls) && (OrNone(ls.matchLabels) != [] || OrNone(ls.matchExpressions) != [])
    requires Parts(ls, None) != [] && text == Join(Sort(Parts(ls, None), StringLe), ',')
    ensures forall p :: p in SplitTop(text, false) <==> p in Parts(ls, None)
    ensures forall p :: p in Parts(ls, None) ==>
              ParseCondition(p).Some? || exists r :: r in OrNone(ls.matchExpressions) && OnlyEmptyValue(r)
  {
    forall p | p in Parts(ls, None)
      ensures Scan(p, false) == Some(false)
      ensures ParseCondition(p).Some? || exists r :: r in OrNone(ls.matchExpressions) && OnlyEmptyValue(r)
    {
      PartsAre(ls, p);
      PartScans(ls, p);
    }
    TextParts(Parts(ls, None), text);
  }

  /** The requirement is printed, as a text that can be read unless its values are just the empty one, and then with its
      own meaning. */
  ghost predicate PartOf(ls: LabelSelector, r: Requirement, labels: Labels, other: (Requirement, Labels) -> bool) {
    MatchExpressionFragment(r).Some? &&
    var part := MatchExpressionFragment(r).value;
    && part in Parts(ls, None)
    && (ParseCondition(part).Some? <==> !OnlyEmptyValue(r))
    && (ParseCondition(part).Some? ==> (Holds(ParseCondition(part).value, labels) <==> Means(r, labels, other)))
  }

  lemma PrintedLabel(ls: LabelSelector, e: (string, string))
    requires Proper(ls) && e in OrNone(ls.matchLabels)
    ensures Equality(e) in Parts(ls, None) && ParseCondition(Equality(e)) == Some(Equals(e.0, e.1))
  {
    EqualityParses(e);
    assert PartFrom(Equality(e), ls);
    PartsAre(ls, Equality(e));
  }

  lemma PrintedPart(ls: LabelSelector, r: Requirement, labels: Labels, other: (Requirement, Labels) -> bool)
    requires Proper(ls) && r in OrNone(ls.matchExpressions) && Supported(r)
    ensures PartOf(ls, r, labels, other)
  {
    var part := MatchExpressionFragment(r).value;
    FragmentParses(r);
    assert PartFrom(part, ls);
    PartsAre(ls, part);
  }

  /** So it is satisfied by all labels that satisfy the selector, and, if nothing was skipped, by no others. */
  lemma TextMeansSelector(ls: LabelSelector, text: string, labels: Labels, other: (Requirement, Labels) -> bool)
    requires Proper(ls) && (OrNone(ls.matchLabels) != [] || OrNone(ls.matchExpressions) != [])
    requires Parts(ls, None) != [] && text == Join(Sort(Parts(ls, None), StringLe), ',')
    requires forall r :: r in OrNone(ls.matchExpressions) ==> !OnlyEmptyValue(r)
    ensures Parses(text) && (Matches(ls, labels, other) ==> Selects(text, labels))
    ensures (forall r :: r in OrNone(ls.matchExpressions) ==> Supported(r)) ==>
              (Selects(text, labels) <==> Matches(ls, labels, other))
  {
    TextMeansPrinted(ls, text, labels, other);
  }

  /** A requirement for the empty value is satisfied by labels, and its text cannot be read. */
  lemma EmptyValueCannotBeRead(key: string, other: (Requirement, Labels) -> bool)
    requires IsKey(key)
    ensures var ls := LabelSelector(None, Some([Requirement(key, "In", Some([""]))]));
            var text := key + " in ()";
            && Proper(ls) && Parts(ls, None) == [text] && !Parses(text)
            && Matches(ls, map[key := ""], other)
  {
    var req := Requirement(key, "In", Some([""]));
    var ls, text := LabelSelector(None, Some([req])), key + " in ()";
    assert [""][1..] == [] && Sort([""], StringLe) == [""];
    assert ValuesOf(req) != [] && IsSetOperator(req.operator) && SetWord(req.operator) == "in";
    assert text == key + " " + "in" + " (" + Join([""], ',') + ")";
    assert [req][..0] == [] && Fragments([req]) == [text];
    assert Parts(ls, None) == [text];
    assert [text][1..] == [] && Sort([text], StringLe) == [text];
    assert OnlyEmptyValue(req) && req in OrNone(ls.matchExpressions);
    TextMeansPrinted(ls, text, map[], other);
  }

  /** Labels meet what the requirements with unknown operators mean. */
  predicate UnknownHold(reqs: seq<Requirement>, labels: Labels, other: (Requirement, Labels) -> bool) {
    forall r :: r in reqs && !IsSetOperator(r.operator) ==> other(r, labels)
  }

  /** When everything is skipped, the text falls back to the name. Then it holds wherever the selector does exactly
      when the selector holds nowhere, because of an empty `In`, or unknown operators ask for the name. */
  lemma FallbackWidens(ls: LabelSelector, name: string, other: (Requirement, Labels) -> bool)
    requires Word(name) && Parts(ls, None) == []
    ensures Parses("app=" + name)
    ensures (forall labels :: Matches(ls, labels, other) ==> Selects("app=" + name, labels))
            <==> (exists r :: r in OrNone(ls.matchExpressions) && r.operator == "In")
                 || (forall labels :: UnknownHold(OrNone(ls.matchExpressions), labels, other) ==>
                                        "app" in labels && labels["app"] == name)
  {
    var text, reqs := "app=" + name, OrNone(ls.matchExpressions);
    FallbackText(name);
    AllSkipped(ls);
    forall labels ensures Matches(ls, labels, other) <==>
                            (forall r :: r in reqs ==> r.operator != "In") && UnknownHold(reqs, labels, other)
    {
      SkippedMeaning(ls, labels, other);
    }
    forall labels ensures Selects(text, labels) <==> "app" in labels && labels["app"] == name {
      FallbackSelects(name, labels);
    }
  }

  /** With the operators that are known, that is when and only when there is an empty `In`. */
  lemma FallbackWidensKnown(ls: LabelSelector, name: string, other: (Requirement, Labels) -> bool)
    requires Word(name) && Parts(ls, None) == []
    requires forall r :: r in OrNone(ls.matchExpressions) ==> IsSetOperator(r.operator)
    ensures Parses("app=" + name)
    ensures (forall labels :: Matches(ls, labels, other) ==> Selects("app=" + name, labels))
            <==> exists r :: r in OrNone(ls.matchExpressions) && r.operator == "In"
  {
    FallbackWidens(ls, name, other);
    assert UnknownHold(OrNone(ls.matchExpressions), map[], other);
  }

  lemma AllSkipped(ls: LabelSelector)
    requires Parts(ls, None) == []
    ensures OrNone(ls.matchLabels) == []
    ensures forall r :: r in OrNone(ls.matchExpressions) ==> !Supported(r)
  {
    var reqs := OrNone(ls.matchExpressions);
    assert |Equalities(OrNone(ls.matchLabels))| == 0;
    forall r | r in reqs ensures !Supported(r) {
      if Supported(r) { FragmentsAre(reqs, MatchExpressionFragment(r).value); }
    }
  }

  lemma SkippedMeaning(ls: LabelSelector, labels: Labels, other: (Requirement, Labels) -> bool)
    requires OrNone(ls.matchLabels) == [] && forall r :: r in OrNone(ls.matchExpressions) ==> !Supported(r)
    ensures Matches(ls, labels, other) <==>
              (forall r :: r in OrNone(ls.matchExpressions) ==> r.operator != "In")
              && UnknownHold(OrNone(ls.matchExpressions), labels, other)
  {
    forall r | r in OrNone(ls.matchExpressions)
      ensures Means(r, labels, other) <==> r.operator != "In" && (IsSetOperator(r.operator) || other(r, labels))
    {
      assert IsSetOperator(r.operator) ==> ValuesOf(r) == [];
      assert r.operator != "Exists" && r.operator != "DoesNotExist";
    }
  }

  lemma FallbackText(name: string)
    requires Word(name)
    ensures SplitTop("app=" + name, false) == ["app=" + name]
    ensures ParseCondition("app=" + name) == Some(Equals("app", name))
  {
    EqualityParses(("app", name));
    SplitTopJoin([Equality(("app", name))]);
    assert Join([Equality(("app", name))], ',') == "app=" + name;
  }

  lemma FallbackSelects(name: string, labels: Labels)
    requires Word(name)
    ensures Parses("app=" + name)
    ensures Selects("app=" + name, labels) <==> "app" in labels && labels["app"] == name
  {
    FallbackText(name);
    assert SplitTop("app=" + name, false)[0] == "app=" + name;
  }

  /** So it need not hold where the selector does. */
  lemma FallbackCanNarrow(key: string, name: string, other: (Requirement, Labels) -> bool)
    requires IsKey(key) && Word(name)
    ensures var ls := LabelSelector(None, Some([Requirement(key, "NotIn", Some([]))]));
            && Proper(ls) && Parts(ls, None) == [] && Matches(ls, map[], other)
            && Parses("app=" + name) && !Selects("app=" + name, map[])
  {
    var req := Requirement(key, "NotIn", Some([]));
    assert [req][..0] == [] && Fragments([req]) == [];
    FallbackSelects(name, map[]);
  }

  /** The text of plain labels: a service's selector, or template labels standing in for a selector. */
  lemma TextMeansLabels(m: Entries, text: string, labels: Labels)
    requires m != [] && forall e :: e in m ==> IsKey(e.0) && Word(e.1)
    requires text == BtreeToLabelSelector(m) || text == Join(Sort(Equalities(m), StringLe), ',')
    ensures Parses(text) && (Selects(text, labels) <==> HasLabels(m, labels))
  {
    var parts := Equalities(m);
    forall i | 0 <= i < |m|
      ensures Scan(parts[i], false) == Some(false)
      ensures ParseCondition(parts[i]) == Some(Equals(m[i].0, m[i].1))
    {
      assert m[i] in m;
      EqualityParses(m[i]);
    }
    if text == BtreeToLabelSelector(m) { SplitTopJoin(parts); } else { TextParts(parts, text); }
    assert forall p :: p in SplitTop(text, false) <==> p in parts;
    forall e | e in m ensures Equality(e) in parts && ParseCondition(Equality(e)) == Some(Equals(e.0, e.1)) {
      var i :| 0 <= i < |m| && m[i] == e;
      assert parts[i] == Equality(e);
    }
  }

  /** Template labels are printed exactly when the selector has nothing at all, and then only they are. */
  lemma TemplateStandsIn(ls: LabelSelector, template: Option<Entries>)
    ensures if OrNone(ls.matchLabels) == [] && OrNone(ls.matchExpressions) == []
            then Parts(ls, template) == Equalities(OrNone(template))
            else Parts(ls, template) == Parts(ls, None)
  {
  }

  // ---- One selector for several namespaces ----

  /** As `dedup`: of equal neighbours the first is kept. */
  function Dedup(s: seq<string>): seq<string> {
    if |s| < 2 then s
    else if s[0] == s[1] then Dedup(s[1..])
    else [s[0]] + Dedup(s[1..])
  }

  lemma {:induction false} DedupOne(s: seq<string>)
    requires s != []
    ensures Dedup(s) != [] && Dedup(s)[0] == s[0]
    ensures |Dedup(s)| == 1 <==> forall x :: x in s ==> x == s[0]
  {
    if |s| >= 2 {
      DedupOne(s[1..]);
      assert s[1..][0] == s[1] && s[1] in s;
      forall x ensures x in s <==> x == s[0] || x in s[1..] { assert s == [s[0]] + s[1..]; }
    }
  }

  /** The common selector if all are the same, else the fallback. */
  method UnifyLabelSelectors(selectors: seq<string>, kind: Kind, name: string) returns (text: string)
    ensures text == if selectors != [] && (forall x :: x in selectors ==> x == selectors[0]) then selectors[0]
                    else match kind case Pod => "metadata.name=" + name case Workload => "app=" + name
  {
    if selectors == [] { return LabelSelectorFor(kind, name); }
    var sorted := Sort(selectors, StringLe);
    SortedValues(selectors);
    assert sorted[0] in selectors && selectors[0] in sorted;
    var unique := Dedup(sorted);
    DedupOne(sorted);
    if |unique| == 1 { return unique[0]; }
    text := LabelSelectorFor(kind, name);
  }
}
