/** The line parser: an AdGuard-style subset of rules, one per line. */
module BlocklistParser {
  import opened Wrappers
  import opened Messages
  import opened Text

  datatype ParsedLine = Skip | Block(rule: string) | Exception(rule: string) | Unsupported

  function BeforeHash(s: string): string {
    if s == "" || s[0] == '#' then "" else [s[0]] + BeforeHash(s[1..])
  }

  /** The leading characters up to the first whitespace. */
  function Word(s: string): (w: string)
    ensures w <= s
  {
    if s == "" || IsSpace(s[0]) then "" else [s[0]] + Word(s[1..])
  }

  function Words(s: string): seq<string>
    decreases |s|
  {
    var t := TrimStart(s);
    TrimStartShorter(s);
    if t == "" then [] else [Word(t)] + Words(t[|Word(t)|..])
  }

  lemma {:induction false} TrimStartShorter(s: string)
    ensures |TrimStart(s)| <= |s|
    ensures TrimStart(s) != "" ==> !IsSpace(TrimStart(s)[0])
  {
    if s != "" && IsSpace(s[0]) { TrimStartShorter(s[1..]); }
  }

  predicate LooksLikeIp(token: string) {
    token != "" && ('0' <= token[0] <= '9' || token[0] == ':')
  }

  predicate LooksLikeDomain(domain: string) {
    && '.' in domain
    && (forall i :: 0 <= i < |domain| ==> !IsSpace(domain[i]))
    && !StartsWith(domain, "/")
    && '*' !in domain
  }

  function TryParseHosts(rest: string): Option<string> {
    var parts := Words(rest);
    if |parts| < 2 then None
    else if !LooksLikeIp(parts[0]) then None
    else
      var domain := Normalize(parts[1]);
      if domain == "" || !LooksLikeDomain(domain) then None else Some(domain)
  }

  function RuleLine(isException: bool, rule: string): ParsedLine {
    if isException then Exception(rule) else Block(rule)
  }

  function DomainLine(isException: bool, text: string): ParsedLine {
    var domain := Normalize(text);
    if domain == "" || !LooksLikeDomain(domain) then Unsupported else RuleLine(isException, domain)
  }

  function AnchoredText(rest: string): string {
    if EndsWith(rest, "^") then rest[..|rest| - 1] else rest
  }

  /** A rule with its comment, surrounding whitespace and "@@" mark taken off. */
  function ParseBody(isException: bool, rest: string): ParsedLine {
    if StartsWith(rest, "||") then DomainLine(isException, AnchoredText(rest[2..]))
    else
      match TryParseHosts(rest)
      case Some(domain) => RuleLine(isException, domain)
      case None => DomainLine(isException, rest)
  }

  /** The body of a line with the mark, if it has one, taken off. */
  function ParseMarked(body: string): ParsedLine {
    if StartsWith(body, "@@") then ParseBody(true, body[2..]) else ParseBody(false, body)
  }

  predicate HasModifier(trimmed: string) {
    '$' in trimmed || Contains(trimmed, "##") || Contains(trimmed, "#@#") || Contains(trimmed, "#?#")
  }

  function ParseLine(line: string): ParsedLine {
    var trimmed := Trim(line);
    if trimmed == "" then Skip
    else if StartsWith(trimmed, "#") || StartsWith(trimmed, "!") then Skip
    else if HasModifier(trimmed) then Unsupported
    else
      var body := Trim(BeforeHash(trimmed));
      if body == "" then Skip else ParseMarked(body)
  }

  // ---- every rule the parser emits is well formed ----

  predicate WellFormedRule(rule: string) {
    && rule != "" && '.' in rule && rule[0] != '/'
    && forall i :: 0 <= i < |rule| ==>
         !IsSpace(rule[i]) && LowerChar(rule[i]) == rule[i] && rule[i] != '*' && rule[i] != '#' && rule[i] != '$'
  }

  predicate Plain(s: string) {
    '#' !in s && '$' !in s
  }

  lemma {:induction false} TrimStartKeeps(s: string)
    ensures forall c :: c in TrimStart(s) ==> c in s
  {
    if s != "" && IsSpace(s[0]) { TrimStartKeeps(s[1..]); }
  }

  lemma {:induction false} TrimEndKeeps(s: string)
    ensures forall c :: c in TrimEnd(s) ==> c in s
  {
    if s != "" && IsSpace(s[|s| - 1]) { TrimEndKeeps(s[..|s| - 1]); }
  }

  lemma TrimKeeps(s: string)
    ensures forall c :: c in Trim(s) ==> c in s
  {
    TrimStartKeeps(s);
    TrimEndKeeps(TrimStart(s));
  }

  lemma {:induction false} BeforeHashKeeps(s: string)
    ensures '#' !in BeforeHash(s) && forall c :: c in BeforeHash(s) ==> c in s
  {
    if s != "" && s[0] != '#' { BeforeHashKeeps(s[1..]); }
  }

  lemma {:induction false} WordsKeep(s: string)
    ensures forall i, c :: 0 <= i < |Words(s)| && c in Words(s)[i] ==> c in s
    decreases |s|
  {
    var t := TrimStart(s);
    TrimStartShorter(s);
    TrimStartKeeps(s);
    if t != "" {
      var rest := t[|Word(t)|..];
      WordsKeep(rest);
      forall i, c | 0 <= i < |Words(s)| && c in Words(s)[i] ensures c in s {
        if i > 0 {
          assert Words(s)[i] == Words(rest)[i - 1];
          assert c in rest;
          assert c in t;
        } else {
          var j :| 0 <= j < |Word(t)| && Word(t)[j] == c;
          assert t[j] == c;
        }
      }
    }
  }

  /** Normalised text with no '#' or '$' that looks like a domain is a well-formed rule. */
  lemma NormalizedIsWellFormed(text: string)
    requires Plain(text) && LooksLikeDomain(Normalize(text))
    ensures WellFormedRule(Normalize(text))
  {
    var t := Trim(text);
    TrimKeeps(text);
    forall i | 0 <= i < |t| ensures Lower(t)[i] != '#' && Lower(t)[i] != '$' && LowerChar(Lower(t)[i]) == Lower(t)[i] {
      assert t[i] in t;
    }
  }

  lemma BodyIsWellFormed(isException: bool, rest: string)
    requires Plain(rest)
    ensures ParseBody(isException, rest).Block? ==> WellFormedRule(ParseBody(isException, rest).rule)
    ensures ParseBody(isException, rest).Exception? ==> WellFormedRule(ParseBody(isException, rest).rule)
  {
    if StartsWith(rest, "||") {
      var text := AnchoredText(rest[2..]);
      if LooksLikeDomain(Normalize(text)) { NormalizedIsWellFormed(text); }
    } else if TryParseHosts(rest).Some? {
      WordsKeep(rest);
      NormalizedIsWellFormed(Words(rest)[1]);
    } else if LooksLikeDomain(Normalize(rest)) {
      NormalizedIsWellFormed(rest);
    }
  }

  /** Over every line: an emitted rule is lower case and dotted, without whitespace, '*', '#' or '$'. */
  lemma EmittedRulesAreWellFormed(line: string)
    ensures ParseLine(line).Block? ==> WellFormedRule(ParseLine(line).rule)
    ensures ParseLine(line).Exception? ==> WellFormedRule(ParseLine(line).rule)
  {
    var trimmed := Trim(line);
    if '$' !in trimmed {
      BeforeHashKeeps(trimmed);
      TrimKeeps(BeforeHash(trimmed));
      var body := Trim(BeforeHash(trimmed));
      BodyIsWellFormed(false, body);
      if StartsWith(body, "@@") { BodyIsWellFormed(true, body[2..]); }
    }
  }

  // ---- lines without a rule ----

  predicate IsBlank(line: string) {
    forall i :: 0 <= i < |line| ==> IsSpace(line[i])
  }

  /** The first character of a line that is not whitespace, and its place. */
  predicate FirstMark(line: string, i: int) {
    0 <= i < |line| && !IsSpace(line[i]) && forall j :: 0 <= j < i ==> IsSpace(line[j])
  }

  lemma {:induction false} TrimEndOfBlank(s: string)
    ensures TrimEnd(s) == "" <==> IsBlank(s)
  {
    if s != "" {
      if IsSpace(s[|s| - 1]) {
        TrimEndOfBlank(s[..|s| - 1]);
        assert s == s[..|s| - 1] + [s[|s| - 1]];
      }
    }
  }

  lemma {:induction false} TrimStartFirst(s: string)
    ensures |TrimStart(s)| <= |s| && (IsBlank(s) <==> TrimStart(s) == "")
    ensures !IsBlank(s) ==> FirstMark(s, |s| - |TrimStart(s)|) && TrimStart(s)[0] == s[|s| - |TrimStart(s)|]
  {
    if s != "" && IsSpace(s[0]) {
      TrimStartFirst(s[1..]);
      var t := s[1..];
      assert forall j :: 1 <= j < |s| ==> s[j] == t[j - 1];
      if IsBlank(t) { assert forall j :: 1 <= j < |s| ==> IsSpace(s[j]); }
      TrimStartShorter(t);
    }
  }

  lemma TrimFirst(line: string) returns (i: nat)
    ensures Trim(line) == "" <==> IsBlank(line)
    ensures !IsBlank(line) ==> FirstMark(line, i) && Trim(line)[0] == line[i]
  {
    TrimStartFirst(line);
    TrimStartShorter(line);
    var t := TrimStart(line);
    TrimEndOfBlank(t);
    i := |line| - |t|;
    if t != "" {
      assert !IsBlank(t);
      TrimEndStarts(t);
    }
  }

  lemma {:induction false} TrimEndStarts(s: string)
    ensures TrimEnd(s) <= s
  {
    if s != "" && IsSpace(s[|s| - 1]) { TrimEndStarts(s[..|s| - 1]); }
  }

  lemma BodyIsNotSkipped(isException: bool, rest: string)
    ensures !ParseBody(isException, rest).Skip?
  {
  }

  lemma TrimmedSkips(line: string)
    requires Trim(line) != "" && !IsSpace(Trim(line)[0])
    ensures ParseLine(line).Skip? <==> Trim(line)[0] == '#' || Trim(line)[0] == '!'
  {
    var t := Trim(line);
    StartsIff(t, '#');
    StartsIff(t, '!');
    if t[0] != '#' && t[0] != '!' {
      BodyIsThere(t);
      var body := Trim(BeforeHash(t));
      BodyIsNotSkipped(false, body);
      if StartsWith(body, "@@") { BodyIsNotSkipped(true, body[2..]); }
    }
  }

  /** Over every line: it is passed over exactly if it is blank or its first mark is '#' or '!'. */
  lemma SkippedIff(line: string)
    ensures ParseLine(line).Skip? <==>
              IsBlank(line) || exists i :: FirstMark(line, i) && (line[i] == '#' || line[i] == '!')
  {
    var i := TrimFirst(line);
    if !IsBlank(line) {
      forall j | FirstMark(line, j) ensures j == i as int {
      }
      assert FirstMark(line, i);
      TrimmedSkips(line);
    }
  }

  lemma StartsIff(s: string, c: char)
    requires s != ""
    ensures StartsWith(s, [c]) <==> s[0] == c
  {
    assert s[..1] == [s[0]];
  }

  /** What stands before a comment is not blank when the line does not start with one. */
  lemma BodyIsThere(t: string)
    requires t != "" && !IsSpace(t[0]) && t[0] != '#'
    ensures Trim(BeforeHash(t)) != ""
  {
    var b := BeforeHash(t);
    assert b[0] == t[0];
    var i := TrimFirst(b);
  }

  predicate HoldsAt(line: string, i: nat, marker: string) {
    i + |marker| <= |line| && line[i..i + |marker|] == marker
  }

  /** The markers of what is not supported: options, and element hiding in its three forms. */
  ghost predicate HasMarker(line: string) {
    || (exists i :: 0 <= i < |line| && line[i] == '$')
    || (exists i: nat :: HoldsAt(line, i, "##"))
    || (exists i: nat :: HoldsAt(line, i, "#@#"))
    || (exists i: nat :: HoldsAt(line, i, "#?#"))
  }

  lemma {:induction false} TrimStartWhole(s: string) returns (head: string)
    ensures s == head + TrimStart(s) && AllSpace(head)
  {
    if s != "" && IsSpace(s[0]) {
      var rest := TrimStartWhole(s[1..]);
      head := [s[0]] + rest;
      assert s == [s[0]] + s[1..];
    } else {
      head := "";
    }
  }

  lemma MiddleHolds(head: string, m: string, tail: string, i: nat, marker: string)
    requires AllSpace(head) && AllSpace(tail) && marker != ""
    requires forall j :: 0 <= j < |marker| ==> !IsSpace(marker[j])
    requires HoldsAt(head + m + tail, i, marker)
    ensures |head| <= i && i + |marker| <= |head| + |m| && HoldsAt(m, i - |head|, marker)
  {
    var line := head + m + tail;
    assert forall j :: 0 <= j < |marker| ==> line[i + j] == line[i..i + |marker|][j] == marker[j];
    assert forall j :: 0 <= j < |head| ==> line[j] == head[j] && IsSpace(line[j]);
    assert forall j :: |head| + |m| <= j < |line| ==> line[j] == tail[j - |head| - |m|] && IsSpace(line[j]);
    assert !IsSpace(line[i + 0]) && !IsSpace(line[i + (|marker| - 1)]);
    assert m[i - |head|..i - |head| + |marker|] == line[i..i + |marker|];
  }

  /** A marker, made of no whitespace, survives trimming. */
  lemma MarkerSurvives(line: string, i: nat, marker: string) returns (k: nat)
    requires HoldsAt(line, i, marker) && marker != ""
    requires forall j :: 0 <= j < |marker| ==> !IsSpace(marker[j])
    ensures HoldsAt(Trim(line), k, marker)
  {
    var head := TrimStartWhole(line);
    var tail := TrimEndSplits(TrimStart(line));
    assert line == head + Trim(line) + tail;
    MiddleHolds(head, Trim(line), tail, i, marker);
    k := i - |head|;
  }

  lemma HeldIsContained(s: string, k: nat, marker: string)
    requires HoldsAt(s, k, marker)
    ensures Contains(s, marker)
    ensures |marker| == 1 ==> marker[0] in s
  {
    assert s[k..][..|marker|] == s[k..k + |marker|];
    assert StartsWith(s[k..], marker);
    if |marker| == 1 { assert s[k] == s[k..k + 1][0]; }
  }

  /** Over every line: one that is not passed over and holds such a marker anywhere gives no rule. */
  lemma MarkedIsUnsupported(line: string)
    requires !ParseLine(line).Skip? && HasMarker(line)
    ensures ParseLine(line) == Unsupported
  {
    MarkerIsModifier(line);
    var i := TrimFirst(line);
    if IsBlank(line) { SkippedIff(line); }
  }

  lemma MarkerIsModifier(line: string)
    requires HasMarker(line)
    ensures HasModifier(Trim(line))
  {
    if i :| 0 <= i < |line| && line[i] == '$' {
      assert line[i..i + 1] == "$";
      var k := MarkerSurvives(line, i, "$");
      HeldIsContained(Trim(line), k, "$");
    } else if i: nat :| HoldsAt(line, i, "##") {
      var k := MarkerSurvives(line, i, "##");
      HeldIsContained(Trim(line), k, "##");
    } else if i: nat :| HoldsAt(line, i, "#@#") {
      var k := MarkerSurvives(line, i, "#@#");
      HeldIsContained(Trim(line), k, "#@#");
    } else {
      var i: nat :| HoldsAt(line, i, "#?#");
      var k := MarkerSurvives(line, i, "#?#");
      HeldIsContained(Trim(line), k, "#?#");
    }
  }

  // ---- the parser inverts the printers of the supported syntaxes ----

  /** A hosts line may go on after the domain, with further names. */
  datatype Style = Bare | Anchored | AnchoredClosed | Hosts(ip: string, gap: string, more: string)

  predicate CleanChar(c: char) {
    !IsSpace(c) && LowerChar(c) == c
    && c != '#' && c != '$' && c != '*' && c != '^' && c != '|' && c != '@' && c != '!' && c != '/'
  }

  predicate CleanDomain(d: string) {
    '.' in d && forall i :: 0 <= i < |d| ==> CleanChar(d[i])
  }

  predicate StyleOk(style: Style) {
    style.Hosts? ==>
      && LooksLikeIp(style.ip) && Plain(style.ip)
      && (forall i :: 0 <= i < |style.ip| ==> !IsSpace(style.ip[i]))
      && style.gap != "" && AllSpace(style.gap)
      && (style.more != "" ==> IsSpace(style.more[0]) && !IsSpace(style.more[|style.more| - 1]) && Plain(style.more))
  }

  function Body(style: Style, d: string): string {
    match style
    case Bare => d
    case Anchored => "||" + d
    case AnchoredClosed => "||" + d + "^"
    case Hosts(ip, gap, more) => ip + gap + d + more
  }

  function Core(isException: bool, style: Style, d: string): string {
    (if isException then "@@" else "") + Body(style, d)
  }

  function Comment(comment: Option<string>): string {
    match comment
    case None => ""
    case Some(text) => "#" + text
  }

  /** A rule written on a line: whitespace around it, and perhaps a comment after it. */
  function PrintLine(indent: string, isException: bool, style: Style, d: string, gap: string,
                     comment: Option<string>): string {
    indent + Core(isException, style, d) + gap + Comment(comment)
  }

  /** Starts and ends with a character that is not whitespace. */
  predicate Tight(s: string) {
    s != "" && !IsSpace(s[0]) && !IsSpace(s[|s| - 1])
  }

  lemma {:induction false} TrimStartOf(ws: string, s: string)
    requires AllSpace(ws) && s != "" && !IsSpace(s[0])
    ensures TrimStart(ws + s) == s
  {
    if ws == "" {
      assert ws + s == s;
    } else {
      assert (ws + s)[1..] == ws[1..] + s;
      TrimStartOf(ws[1..], s);
    }
  }

  lemma {:induction false} TrimEndOf(s: string, ws: string)
    requires AllSpace(ws) && s != "" && !IsSpace(s[|s| - 1])
    ensures TrimEnd(s + ws) == s
  {
    if ws == "" {
      assert s + ws == s;
    } else {
      assert (s + ws)[..|s + ws| - 1] == s + ws[..|ws| - 1];
      TrimEndOf(s, ws[..|ws| - 1]);
    }
  }

  lemma TrimOf(before: string, s: string, after: string)
    requires AllSpace(before) && AllSpace(after) && Tight(s)
    ensures Trim(before + s + after) == s
  {
    assert before + s + after == before + (s + after);
    TrimStartOf(before, s + after);
    TrimEndOf(s, after);
  }

  lemma {:induction false} TrimEndSplits(s: string) returns (tail: string)
    ensures s == TrimEnd(s) + tail && AllSpace(tail)
    ensures TrimEnd(s) != "" ==> !IsSpace(TrimEnd(s)[|TrimEnd(s)| - 1])
  {
    if s != "" && IsSpace(s[|s| - 1]) {
      var rest := TrimEndSplits(s[..|s| - 1]);
      tail := rest + [s[|s| - 1]];
      assert s == s[..|s| - 1] + [s[|s| - 1]];
    } else {
      tail := "";
    }
  }

  lemma {:induction false} BeforeHashOf(s: string, text: string)
    requires '#' !in s
    ensures BeforeHash(s + "#" + text) == s
  {
    if s == "" {
      assert s + "#" + text == "#" + text;
    } else {
      assert (s + "#" + text)[1..] == s[1..] + "#" + text;
      BeforeHashOf(s[1..], text);
    }
  }

  lemma {:induction false} BeforeNoHash(s: string)
    requires '#' !in s
    ensures BeforeHash(s) == s
  {
    if s != "" { BeforeNoHash(s[1..]); }
  }

  lemma BodyIsTight(style: Style, d: string)
    requires CleanDomain(d) && StyleOk(style)
    ensures Tight(Body(style, d)) && Plain(Body(style, d)) && Body(style, d)[0] != '!'
  {
    assert d != "" && CleanChar(d[0]) && CleanChar(d[|d| - 1]);
    assert '#' !in d && '$' !in d;
    if style.Hosts? {
      var s := style.ip + style.gap + d + style.more;
      assert '#' !in style.gap && '$' !in style.gap;
      assert s[|s| - 1] == (if style.more == "" then d[|d| - 1] else style.more[|style.more| - 1]);
      assert s[0] == style.ip[0];
    }
  }

  lemma CoreIsTight(isException: bool, style: Style, d: string)
    requires CleanDomain(d) && StyleOk(style)
    ensures Tight(Core(isException, style, d)) && Plain(Core(isException, style, d))
    ensures Core(isException, style, d)[0] != '!'
  {
    BodyIsTight(style, d);
    var mark := if isException then "@@" else "";
    var body := Body(style, d);
    assert Core(isException, style, d) == mark + body;
    assert (mark + body)[|mark + body| - 1] == body[|body| - 1];
    assert (mark + body)[0] == if isException then '@' else body[0];
  }

  /** With at most one '#' in it, a line holds no cosmetic marker. */
  lemma OneHashIsNoMarker(s: string, text: string)
    requires Plain(s) && Plain(text)
    ensures !HasModifier(s) && !HasModifier(s + "#" + text)
  {
    NoMarker(s, 0);
    forall i | 0 <= i < |s + "#" + text| && i != |s| ensures (s + "#" + text)[i] != '#' {
      if i < |s| { assert s[i] in s; } else { assert text[i - |s| - 1] in text; }
    }
    NoMarker(s + "#" + text, |s|);
  }

  lemma NoMarker(s: string, at: int)
    requires forall i :: 0 <= i < |s| && i != at ==> s[i] != '#'
    requires '$' !in s
    ensures !HasModifier(s)
  {
    forall i | 0 <= i <= |s|
      ensures !StartsWith(s[i..], "##") && !StartsWith(s[i..], "#@#") && !StartsWith(s[i..], "#?#")
    {
      NoMarkerAt(s, at, i, "##");
      NoMarkerAt(s, at, i, "#@#");
      NoMarkerAt(s, at, i, "#?#");
    }
  }

  lemma NoMarkerAt(s: string, at: int, i: nat, marker: string)
    requires forall j :: 0 <= j < |s| && j != at ==> s[j] != '#'
    requires i <= |s| && |marker| >= 2 && marker[0] == '#' && marker[|marker| - 1] == '#'
    ensures !StartsWith(s[i..], marker)
  {
  }

  lemma {:induction false} NormalizeClean(d: string)
    requires CleanDomain(d)
    ensures Normalize(d) == d && LooksLikeDomain(d)
  {
    assert CleanChar(d[0]) && CleanChar(d[|d| - 1]);
    assert Lower(d) == d;
  }

  lemma {:induction false} WordOf(w: string, rest: string)
    requires forall i :: 0 <= i < |w| ==> !IsSpace(w[i])
    requires rest == "" || IsSpace(rest[0])
    ensures Word(w + rest) == w
  {
    if w == "" {
      assert w + rest == rest;
    } else {
      assert (w + rest)[1..] == w[1..] + rest;
      WordOf(w[1..], rest);
    }
  }

  lemma WordsOfOne(gap: string, w: string)
    requires AllSpace(gap) && w != "" && forall i :: 0 <= i < |w| ==> !IsSpace(w[i])
    ensures Words(gap + w) == [w]
  {
    TrimStartOf(gap, w);
    WordOf(w, "");
    assert w + "" == w;
    assert w[|w|..] == "";
    assert Words("") == [];
  }

  lemma SecondWord(gap: string, d: string, more: string)
    requires AllSpace(gap) && d != "" && forall i :: 0 <= i < |d| ==> !IsSpace(d[i])
    requires more == "" || IsSpace(more[0])
    ensures Words(gap + (d + more)) != [] && Words(gap + (d + more))[0] == d
  {
    TrimStartOf(gap, d + more);
    WordOf(d, more);
  }

  lemma TwoWords(ip: string, gap: string, d: string, more: string)
    requires ip != "" && (forall i :: 0 <= i < |ip| ==> !IsSpace(ip[i]))
    requires gap != "" && AllSpace(gap)
    requires d != "" && forall i :: 0 <= i < |d| ==> !IsSpace(d[i])
    requires more == "" || IsSpace(more[0])
    ensures var words := Words(ip + gap + d + more); |words| >= 2 && words[0] == ip && words[1] == d
  {
    var rest := gap + (d + more);
    assert ip + gap + d + more == ip + rest;
    WordOf(ip, rest);
    FirstWord(ip, rest);
    SecondWord(gap, d, more);
  }

  lemma FirstWord(w: string, rest: string)
    requires w != "" && !IsSpace(w[0]) && Word(w + rest) == w
    ensures Words(w + rest) == [w] + Words(rest)
  {
    assert TrimStart(w + rest) == w + rest;
    assert (w + rest)[|w|..] == rest;
  }

  lemma StartsOtherwise(s: string, t: string)
    requires t != "" && (s == "" || s[0] != t[0])
    ensures !StartsWith(s, t)
  {
    if |t| <= |s| { assert s[..|t|][0] == s[0]; }
  }

  lemma NoHostsInOneWord(d: string)
    requires CleanDomain(d)
    ensures TryParseHosts(d) == None
  {
    assert d != "";
    WordsOfOne("", d);
    assert "" + d == d;
    assert |Words(d)| == 1;
  }

  lemma BareParses(isException: bool, d: string)
    requires CleanDomain(d)
    ensures ParseBody(isException, d) == RuleLine(isException, d)
  {
    assert d != "" && CleanChar(d[0]);
    NormalizeClean(d);
    NoHostsInOneWord(d);
    StartsOtherwise(d, "||");
  }

  lemma AnchoredIs(isException: bool, text: string)
    ensures ParseBody(isException, "||" + text) == DomainLine(isException, AnchoredText(text))
  {
    assert ("||" + text)[..2] == "||" && ("||" + text)[2..] == text;
  }

  lemma AnchoredParses(isException: bool, d: string)
    requires CleanDomain(d)
    ensures ParseBody(isException, "||" + d) == RuleLine(isException, d)
  {
    assert d != "" && CleanChar(d[|d| - 1]);
    NormalizeClean(d);
    AnchoredIs(isException, d);
    assert d[|d| - 1..] == [d[|d| - 1]];
  }

  lemma AnchoredClosedParses(isException: bool, d: string)
    requires CleanDomain(d)
    ensures ParseBody(isException, "||" + d + "^") == RuleLine(isException, d)
  {
    var text := d + "^";
    NormalizeClean(d);
    AnchoredIs(isException, text);
    assert "||" + d + "^" == "||" + text;
    assert text[|text| - 1..] == "^" && text[..|text| - 1] == d;
  }

  lemma HostsParses(isException: bool, ip: string, gap: string, d: string, more: string)
    requires CleanDomain(d) && StyleOk(Hosts(ip, gap, more))
    ensures ParseBody(isException, ip + gap + d + more) == RuleLine(isException, d)
  {
    var s := ip + gap + d + more;
    assert d != "";
    NormalizeClean(d);
    TwoWords(ip, gap, d, more);
    assert s[0] == ip[0];
    StartsOtherwise(s, "||");
    assert TryParseHosts(s) == Some(d);
  }

  lemma BodyParses(isException: bool, style: Style, d: string)
    requires CleanDomain(d) && StyleOk(style)
    ensures ParseBody(isException, Body(style, d)) == RuleLine(isException, d)
  {
    match style
    case Bare => BareParses(isException, d);
    case Anchored => AnchoredParses(isException, d);
    case AnchoredClosed => AnchoredClosedParses(isException, d);
    case Hosts(ip, gap, more) => HostsParses(isException, ip, gap, d, more);
  }

  lemma BodyHasNoMark(style: Style, d: string)
    requires CleanDomain(d) && StyleOk(style)
    ensures !StartsWith(Body(style, d), "@@")
  {
    assert d != "" && CleanChar(d[0]);
    assert Body(style, d)[0] != '@';
  }

  lemma CoreParses(isException: bool, style: Style, d: string)
    requires CleanDomain(d) && StyleOk(style)
    ensures ParseMarked(Core(isException, style, d)) == RuleLine(isException, d)
  {
    BodyParses(isException, style, d);
    BodyHasNoMark(style, d);
    MarkIsTakenOff(Body(style, d));
    assert "" + Body(style, d) == Body(style, d);
  }

  lemma MarkIsTakenOff(body: string)
    ensures ParseMarked("@@" + body) == ParseBody(true, body)
  {
    assert ("@@" + body)[..2] == "@@" && ("@@" + body)[2..] == body;
  }

  lemma TrimmedLine(indent: string, core: string, gap: string, comment: Option<string>) returns (text: string)
    requires AllSpace(indent) && AllSpace(gap) && Tight(core) && Plain(core)
    requires comment.Some? ==> Plain(comment.value)
    ensures Plain(text)
    ensures Trim(indent + core + gap + Comment(comment)) ==
            if comment.None? then core else core + gap + "#" + text
  {
    match comment
    case None =>
      text := "";
      assert indent + core + gap + Comment(comment) == indent + core + gap;
      TrimOf(indent, core, gap);
    case Some(c) =>
      text := TrimEnd(c);
      TrimEndKeeps(c);
      TrimmedComment(indent, core, gap, c);
      assert indent + core + gap + Comment(comment) == indent + core + gap + "#" + c;
  }

  lemma TrimmedComment(indent: string, core: string, gap: string, c: string)
    requires AllSpace(indent) && Tight(core)
    ensures Trim(indent + core + gap + "#" + c) == core + gap + "#" + TrimEnd(c)
  {
    var text := TrimEnd(c);
    var tail := TrimEndSplits(c);
    CommentIsTight(core, gap, text);
    TrimmedParts(indent, core + gap + "#", text, tail);
    Regroup(indent, core, gap, "#", c);
  }

  lemma Regroup(a: string, b: string, c: string, d: string, e: string)
    ensures a + b + c + d + e == a + (b + c + d) + e
  {
  }

  lemma TrimmedParts(indent: string, head: string, text: string, tail: string)
    requires AllSpace(indent) && AllSpace(tail) && Tight(head + text)
    ensures Trim(indent + head + (text + tail)) == head + text
  {
    TrimOf(indent, head + text, tail);
    assert indent + head + (text + tail) == indent + (head + text) + tail;
  }

  lemma CommentIsTight(core: string, gap: string, text: string)
    requires Tight(core) && (text != "" ==> !IsSpace(text[|text| - 1]))
    ensures Tight(core + gap + "#" + text)
  {
    var s := core + gap + "#" + text;
    assert s[0] == core[0];
    assert s[|s| - 1] == if text == "" then '#' else text[|text| - 1];
  }

  /** A trimmed line with nothing unsupported in it is parsed for what stands before its comment. */
  lemma TrimmedParses(s: string, core: string)
    requires s != "" && Trim(s) == s && s[0] != '#' && s[0] != '!' && !HasModifier(s)
    requires Trim(BeforeHash(s)) == core != ""
    ensures ParseLine(s) == ParseMarked(core)
  {
    StartsOtherwise(s, "#");
    StartsOtherwise(s, "!");
  }

  lemma CommentedParses(core: string, gap: string, text: string)
    requires Tight(core) && Plain(core) && core[0] != '!' && AllSpace(gap) && Plain(text)
    requires Trim(core + gap + "#" + text) == core + gap + "#" + text
    ensures ParseLine(core + gap + "#" + text) == ParseMarked(core)
  {
    var s := core + gap + "#" + text;
    PlainThenSpace(core, gap);
    OneHashIsNoMarker(core + gap, text);
    CommentGoes(core, gap, text);
    assert core[0] in core;
    assert s[0] == core[0];
    TrimmedParses(s, core);
  }

  lemma CommentGoes(core: string, gap: string, text: string)
    requires Tight(core) && Plain(core) && AllSpace(gap)
    ensures Trim(BeforeHash(core + gap + "#" + text)) == core
  {
    PlainThenSpace(core, gap);
    BeforeHashOf(core + gap, text);
    TrimEndOf(core, gap);
    assert (core + gap)[0] == core[0];
  }

  lemma PlainThenSpace(core: string, gap: string)
    requires Plain(core) && AllSpace(gap)
    ensures Plain(core + gap)
  {
    forall i | 0 <= i < |gap| ensures gap[i] != '#' && gap[i] != '$' { assert IsSpace(gap[i]); }
  }

  lemma UncommentedParses(core: string)
    requires Tight(core) && Plain(core) && core[0] != '!'
    ensures ParseLine(core) == ParseMarked(core)
  {
    OneHashIsNoMarker(core, "");
    BeforeNoHash(core);
    TrimOf("", core, "");
    assert "" + core + "" == core;
    assert core[0] in core;
    TrimmedParses(core, core);
  }

  lemma {:induction false} TrimTwice(s: string)
    ensures Trim(Trim(s)) == Trim(s)
  {
    TrimStartShorter(s);
    var t := TrimStart(s);
    var tail := TrimEndSplits(t);
    if Trim(s) != "" { assert Trim(s)[0] == t[0]; }
  }

  lemma ParseLineTrims(s: string)
    ensures ParseLine(s) == ParseLine(Trim(s))
  {
    TrimTwice(s);
  }

  /**
   * For every clean lower-case dotted domain, every supported syntax of it, plain or with
   * the "@@" mark, parses back to that domain, under surrounding whitespace and a trailing comment.
   */
  lemma ParserInvertsPrinter(indent: string, isException: bool, style: Style, d: string, gap: string,
                             comment: Option<string>)
    requires CleanDomain(d) && StyleOk(style) && AllSpace(indent) && AllSpace(gap)
    requires comment.Some? ==> Plain(comment.value)
    ensures ParseLine(PrintLine(indent, isException, style, d, gap, comment)) == RuleLine(isException, d)
  {
    var core := Core(isException, style, d);
    var line := PrintLine(indent, isException, style, d, gap, comment);
    CoreIsTight(isException, style, d);
    CoreParses(isException, style, d);
    var text := TrimmedLine(indent, core, gap, comment);
    ParseLineTrims(line);
    TrimTwice(line);
    if comment.None? { UncommentedParses(core); } else { CommentedParses(core, gap, text); }
  }
}
