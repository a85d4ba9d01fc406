/** The Make dep-info reader (scripts/native_provenance.py, `make_words` and `depinfo`): reading back
    every rule line that encodes a list of targets and a list of sources. */
module DepInfo {
  import opened Results
  import opened Text

  datatype Problem = TrailingEscape | UnsupportedExpression | UnsupportedRule

  /** Python's `str.isspace`. */
  predicate IsSpace(c: char) {
    c in "\t\n\U{0b}\U{0c}\r\U{1c}\U{1d}\U{1e}\U{1f} \U{85}\U{a0}\U{1680}\U{2028}\U{2029}\U{202f}\U{205f}\U{3000}"
    || '\U{2000}' <= c <= '\U{200a}'
  }

  /** Where Python's `str.splitlines` ends a line; CR is listed although text mode has already made
      it LF. */
  predicate IsLineEnd(c: char) {
    c in "\n\U{0b}\U{0c}\r\U{1c}\U{1d}\U{1e}\U{85}\U{2028}\U{2029}"
  }

  /******* Words *******/

  type Reading = Result<seq<string>, Problem>

  function Prepend(words: seq<string>, r: Reading): Reading {
    match r
    case Ok(more) => Ok(words + more)
    case Err(e) => Err(e)
  }

  /** The words of s, the first of which continues `word`. */
  function Words(s: string, word: string): Reading {
    if s == "" then Ok(if word == "" then [] else [word])
    else if s[0] == '\\' then
      if |s| == 1 then Err(TrailingEscape) else Words(s[2..], word + [s[1]])
    else if s[0] == '$' then
      if |s| == 1 || s[1] != '$' then Err(UnsupportedExpression) else Words(s[2..], word + "$")
    else if IsSpace(s[0]) then
      if word == "" then Words(s[1..], "") else Prepend([word], Words(s[1..], ""))
    else Words(s[1..], word + [s[0]])
  }

  lemma PrependTwice(a: seq<string>, b: seq<string>, r: Reading)
    ensures Prepend(a, Prepend(b, r)) == Prepend(a + b, r)
    ensures Prepend([], r) == r
  {
    if r.Ok? {
      assert a + (b + r.value) == a + b + r.value;
      assert [] + r.value == r.value;
    }
  }

  method MakeWords(value: string) returns (r: Reading)
    ensures r == Words(value, "")
  {
    var words: seq<string>, word, i := [], "", 0;
    assert value[0..] == value;
    PrependTwice([], [], Words(value, ""));
    while i < |value|
      invariant i <= |value|
      invariant Prepend(words, Words(value[i..], word)) == Words(value, "")
    {
      var c := value[i];
      if c == '\\' {
        i := i + 1;
        if i == |value| { return Err(TrailingEscape); }
        word := word + [value[i]];
      } else if c == '$' {
        if i + 1 == |value| || value[i + 1] != '$' { return Err(UnsupportedExpression); }
        word := word + "$";
        i := i + 1;
      } else if IsSpace(c) {
        if word != "" {
          PrependTwice(words, [word], Words(value[i + 1..], ""));
          words := words + [word];
          word := "";
        }
      } else {
        word := word + [c];
      }
      i := i + 1;
    }
    assert words + [] == words;
    if word != "" {
      words := words + [word];
    }
    return Ok(words);
  }

  /** One character as rustc and Make may write it: behind a backslash, `$` doubled, or bare. */
  predicate EncodesChar(c: char, e: string) {
    || e == ['\\', c]
    || (c == '$' && e == "$$")
    || (e == [c] && c != '\\' && c != '$' && !IsSpace(c))
  }

  predicate Encodes(w: string, e: string) {
    if w == "" then e == ""
    else
      || (|e| >= 2 && EncodesChar(w[0], e[..2]) && Encodes(w[1..], e[2..]))
      || (|e| >= 1 && EncodesChar(w[0], e[..1]) && Encodes(w[1..], e[1..]))
  }

  predicate EncodesAll(ws: seq<string>, es: seq<string>) {
    |ws| == |es| && forall i | 0 <= i < |ws| :: ws[i] != "" && Encodes(ws[i], es[i])
  }

  /** Words separated by one blank. */
  function Spaced(es: seq<string>): string {
    if es == [] then "" else if |es| == 1 then es[0] else es[0] + " " + Spaced(es[1..])
  }

  lemma {:induction false} WordRead(w: string, e: string, rest: string, word: string)
    requires Encodes(w, e)
    ensures Words(e + rest, word) == Words(rest, word + w)
  {
    if w == "" {
      assert e + rest == rest && word + w == word;
    } else {
      var n := if |e| >= 2 && EncodesChar(w[0], e[..2]) && Encodes(w[1..], e[2..]) then 2 else 1;
      WordRead(w[1..], e[n..], rest, word + [w[0]]);
      assert word + [w[0]] + w[1..] == word + w;
      assert (e + rest)[n..] == e[n..] + rest;
      assert e[..n][0] == e[0];
      assert n == 2 ==> e[..n][1] == e[1];
    }
  }

  lemma GapRead(w: string, e: string, rest: string)
    requires w != "" && Encodes(w, e)
    ensures Words(e + " " + rest, "") == Prepend([w], Words(rest, ""))
  {
    WordRead(w, e, " " + rest, "");
    assert e + (" " + rest) == e + " " + rest;
    assert (" " + rest)[1..] == rest && "" + w == w;
    assert IsSpace(' ');
  }

  lemma EncodesApart(ws: seq<string>, es: seq<string>)
    requires EncodesAll(ws, es) && |ws| > 1
    ensures Encodes(ws[0], es[0]) && EncodesAll(ws[1..], es[1..])
    ensures Spaced(es) == es[0] + " " + Spaced(es[1..])
  {
  }

  lemma OneWordRead(w: string, e: string)
    requires w != "" && Encodes(w, e)
    ensures Words(e, "") == Ok([w])
  {
    WordRead(w, e, "", "");
    assert e + "" == e && "" + w == w;
  }

  lemma PrependFirst(ws: seq<string>)
    requires ws != []
    ensures Prepend([ws[0]], Ok(ws[1..])) == Ok(ws)
  {
    assert [ws[0]] + ws[1..] == ws;
  }

  /** Every list of nonempty words is read back from every encoding of it. */
  lemma {:induction false} WordsRead(ws: seq<string>, es: seq<string>)
    requires EncodesAll(ws, es)
    ensures Words(Spaced(es), "") == Ok(ws)
  {
    if |ws| == 1 {
      OneWordRead(ws[0], es[0]);
      assert ws == [ws[0]];
    } else if ws != [] {
      EncodesApart(ws, es);
      WordsRead(ws[1..], es[1..]);
      GapRead(ws[0], es[0], Spaced(es[1..]));
      PrependFirst(ws);
    }
  }

  /******* Which texts are words *******/

  /** The text is made of escaped characters, doubled dollars and others. */
  predicate Whole(s: string) {
    if s == "" then true
    else if s[0] == '\\' then |s| >= 2 && Whole(s[2..])
    else if s[0] == '$' then |s| >= 2 && s[1] == '$' && Whole(s[2..])
    else Whole(s[1..])
  }

  lemma {:induction false} WholeReads(s: string, rest: string, word: string) returns (words: seq<string>, more: string)
    requires Whole(s)
    ensures Words(s + rest, word) == Prepend(words, Words(rest, more))
  {
    if s == "" {
      assert s + rest == rest;
      PrependTwice([], [], Words(rest, word));
      return [], word;
    }
    var n := if s[0] == '\\' || s[0] == '$' then 2 else 1;
    assert (s + rest)[n..] == s[n..] + rest;
    if IsSpace(s[0]) {
      words, more := WholeReads(s[1..], rest, "");
      PrependTwice([word], words, Words(rest, more));
      if word != "" { words := [word] + words; }
    } else {
      words, more := WholeReads(s[n..], rest, word + [s[n - 1]]);
    }
  }

  predicate LoneDollar(v: string) {
    v != "" && v[0] == '$' && (|v| == 1 || v[1] != '$')
  }

  lemma DollarAhead(v: string, word: string)
    requires LoneDollar(v)
    ensures Words(v, word) == Err(UnsupportedExpression)
  {
  }

  lemma PrependErr(words: seq<string>, r: Reading)
    requires r.Err?
    ensures Prepend(words, r) == r
  {
  }

  /** A dollar that is not doubled is refused wherever it stands. */
  lemma DollarRefused(s: string, v: string)
    requires Whole(s) && LoneDollar(v)
    ensures Words(s + v, "") == Err(UnsupportedExpression)
  {
    var words, more := WholeReads(s, v, "");
    DollarAhead(v, more);
    PrependErr(words, Words(v, more));
  }

  /** So is a backslash at the end that escapes nothing. */
  lemma DanglingBackslash(s: string)
    requires Whole(s)
    ensures Words(s + "\\", "") == Err(TrailingEscape)
  {
    var words, more := WholeReads(s, "\\", "");
  }

  /** There is no third refusal: every other text is read. */
  lemma WordsIff(s: string)
    ensures Words(s, "").Ok? <==> Whole(s)
    ensures Words(s, "") == Err(UnsupportedExpression) <==> exists u, v :: Whole(u) && LoneDollar(v) && s == u + v
    ensures Words(s, "") == Err(TrailingEscape) <==> exists u :: Whole(u) && s == u + "\\"
  {
    if Whole(s) {
      var words, more := WholeReads(s, "", "");
      assert s + "" == s;
    } else {
      var u, v := Stops(s);
      if v == "\\" { DanglingBackslash(u); } else { DollarRefused(u, v); }
    }
    if u, v :| Whole(u) && LoneDollar(v) && s == u + v { DollarRefused(u, v); }
    if u :| Whole(u) && s == u + "\\" { DanglingBackslash(u); }
  }

  lemma {:induction false} Stops(s: string) returns (u: string, v: string)
    requires !Whole(s)
    ensures Whole(u) && s == u + v && (v == "\\" || LoneDollar(v))
  {
    if s == "\\" || LoneDollar(s) {
      return "", s;
    }
    var n := if s[0] == '\\' || s[0] == '$' then 2 else 1;
    var front;
    front, v := Stops(s[n..]);
    u := s[..n] + front;
    assert u[n..] == front;
  }

  /******* The escaper that escapes everything it may *******/

  function EscapeChar(c: char): string {
    if c == '$' then "$$" else if IsSpace(c) || c in "#:\\" then ['\\', c] else [c]
  }

  function Escape(w: string): (e: string)
    ensures Encodes(w, e)
  {
    if w == "" then ""
    else
      var head := EscapeChar(w[0]);
      var e := head + Escape(w[1..]);
      assert e[..|head|] == head && e[|head|..] == Escape(w[1..]);
      e
  }

  function EscapeAll(ws: seq<string>): (es: seq<string>)
    ensures |es| == |ws|
    ensures forall i | 0 <= i < |ws| :: es[i] == Escape(ws[i])
  {
    if ws == [] then [] else [Escape(ws[0])] + EscapeAll(ws[1..])
  }

  /******* Rule lines *******/

  datatype Deps = Deps(targets: set<string>, sources: set<string>)

  const NO_DEPS := Deps({}, {})

  function Join(a: Deps, b: Deps): Deps {
    Deps(a.targets + b.targets, a.sources + b.sources)
  }

  /** Where the scan for the separating colon stops: at the colon, at the end of the line, or one
      past it behind a dangling backslash. */
  function Colon(line: string): (i: nat)
    ensures i <= |line| + 1
  {
    if line == "" then 0
    else if line[0] == '\\' then if |line| == 1 then 2 else 2 + Colon(line[2..])
    else if line[0] == ':' && (|line| == 1 || IsSpace(line[1])) then 0
    else 1 + Colon(line[1..])
  }

  method FindColon(line: string) returns (index: nat)
    ensures index == Colon(line)
  {
    index := 0;
    assert line[0..] == line;
    while index < |line|
      invariant index <= |line| + 1
      invariant index <= |line| ==> index + Colon(line[index..]) == Colon(line)
      invariant index == |line| + 1 ==> Colon(line) == index
    {
      if line[index] == '\\' {
        index := index + 2;
        continue;
      }
      if line[index] == ':' && (index + 1 == |line| || IsSpace(line[index + 1])) {
        break;
      }
      index := index + 1;
    }
  }

  predicate Skipped(line: string) {
    (forall c | c in line :: IsSpace(c)) || line[0] == '#'
  }

  function ReadLine(line: string): Result<Deps, Problem> {
    if Skipped(line) then Ok(NO_DEPS)
    else
      var i := Colon(line);
      if i == |line| then Err(UnsupportedRule)
      else
        var lhs := if i < |line| then line[..i] else line;
        var rhs := if i < |line| then line[i + 1..] else "";
        match Words(lhs, "")
        case Err(e) => Err(e)
        case Ok(targets) =>
          match Words(rhs, "")
          case Err(e) => Err(e)
          case Ok(sources) => Ok(Deps(set w | w in targets, set w | w in sources))
  }

  function ReadLines(lines: seq<string>): Result<Deps, Problem> {
    if lines == [] then Ok(NO_DEPS)
    else match ReadLine(lines[0])
      case Err(e) => Err(e)
      case Ok(deps) => After(deps, ReadLines(lines[1..]))
  }

  function After(deps: Deps, rest: Result<Deps, Problem>): Result<Deps, Problem> {
    match rest
    case Err(e) => Err(e)
    case Ok(more) => Ok(Join(deps, more))
  }

  /** `splitlines`: the last line needs no line end. */
  function Lines(s: string, line: string): seq<string> {
    if s == "" then if line == "" then [] else [line]
    else if IsLineEnd(s[0]) then [line] + Lines(s[1..], "")
    else Lines(s[1..], line + [s[0]])
  }

  function Read(text: string): Result<Deps, Problem> {
    ReadLines(Lines(Replace(LineFeeds(text), "\\\n", ""), ""))
  }

  method ReadRule(line: string) returns (r: Result<Deps, Problem>)
    requires !Skipped(line)
    ensures r == ReadLine(line)
  {
    var i := FindColon(line);
    if i == |line| { return Err(UnsupportedRule); }
    var lhs := MakeWords(if i < |line| then line[..i] else line);
    if lhs.Err? { return Err(lhs.error); }
    var rhs := MakeWords(if i < |line| then line[i + 1..] else "");
    if rhs.Err? { return Err(rhs.error); }
    return Ok(Deps(set w | w in lhs.value, set w | w in rhs.value));
  }

  method DepInfo(text: string) returns (r: Result<Deps, Problem>)
    ensures r == Read(text)
  {
    var lines := Lines(Replace(LineFeeds(text), "\\\n", ""), "");
    var found := NO_DEPS;
    assert lines[0..] == lines;
    AfterTwice(NO_DEPS, NO_DEPS, ReadLines(lines));
    for n := 0 to |lines|
      invariant After(found, ReadLines(lines[n..])) == ReadLines(lines)
    {
      assert lines[n..][1..] == lines[n + 1..];
      var rest := ReadLines(lines[n + 1..]);
      AfterTwice(found, NO_DEPS, rest);
      if !Skipped(lines[n]) {
        var rule := ReadRule(lines[n]);
        if rule.Err? { return rule; }
        AfterTwice(found, rule.value, rest);
        found := Join(found, rule.value);
      }
    }
    return Ok(found);
  }

  lemma AfterTwice(a: Deps, b: Deps, r: Result<Deps, Problem>)
    ensures After(a, After(b, r)) == After(Join(a, b), r)
    ensures After(NO_DEPS, r) == r
  {
    if r.Ok? {
      assert Join(a, Join(b, r.value)) == Join(Join(a, b), r.value);
      assert Join(NO_DEPS, r.value) == r.value;
    }
  }

  /******* Printing and reading back *******/

  /** A bare colon ends the encoded word, so that a blank behind it would end the targets. */
  predicate LooseEnd(e: string) {
    if e == "" then false
    else if e[0] == '\\' then |e| >= 2 && LooseEnd(e[2..])
    else e == ":" || LooseEnd(e[1..])
  }

  lemma ColonSkipsPair(w0: char, p: string, tail: string)
    requires |p| == 2 && EncodesChar(w0, p)
    ensures Colon(p + tail) == 2 + Colon(tail)
  {
    assert (p + tail)[2..] == tail && (p + tail)[1..][1..] == tail;
  }

  lemma ColonSkipsSingle(w0: char, p: string, tail: string)
    requires |p| == 1 && EncodesChar(w0, p) && (p[0] == ':' ==> tail != "" && !IsSpace(tail[0]))
    ensures Colon(p + tail) == 1 + Colon(tail)
  {
    assert (p + tail)[1..] == tail;
  }

  lemma ColonSkipsHead(w0: char, e: string, n: nat, rest: string)
    requires 1 <= n <= 2 && n <= |e| && EncodesChar(w0, e[..n])
    requires n == 1 && e[0] == ':' ==> e[1..] != "" && !IsSpace(e[1..][0])
    requires Colon(e[n..] + rest) == |e[n..]| + Colon(rest)
    ensures Colon(e + rest) == |e| + Colon(rest)
  {
    assert e + rest == e[..n] + (e[n..] + rest);
    if n == 2 {
      ColonSkipsPair(w0, e[..2], e[2..] + rest);
    } else {
      ColonSkipsSingle(w0, e[..1], e[1..] + rest);
    }
  }

  lemma LooseTail(w0: char, e: string, n: nat)
    requires !LooseEnd(e) && 1 <= n <= 2 && n <= |e| && EncodesChar(w0, e[..n])
    ensures !LooseEnd(e[n..]) && (n == 1 && e[0] == ':' ==> e[1..] != "")
  {
    assert e[..n][0] == e[0] && (n == 2 ==> e[..n][1] == e[1] && e[1..][1..] == e[2..]);
  }

  lemma {:induction false} ColonSkipsWord(w: string, e: string, rest: string)
    requires Encodes(w, e) && !LooseEnd(e) && rest != ""
    ensures Colon(e + rest) == |e| + Colon(rest)
  {
    if w == "" {
      assert e + rest == rest;
    } else {
      var n := if |e| >= 2 && EncodesChar(w[0], e[..2]) && Encodes(w[1..], e[2..]) then 2 else 1;
      LooseTail(w[0], e, n);
      if n == 1 && e[0] == ':' {
        EncodingStart(w[1..], e[1..]);
      }
      ColonSkipsWord(w[1..], e[n..], rest);
      ColonSkipsHead(w[0], e, n, rest);
    }
  }

  lemma EncodingStart(w: string, e: string)
    requires Encodes(w, e) && e != ""
    ensures !IsSpace(e[0])
  {
    assert w != "";
    if |e| >= 2 && EncodesChar(w[0], e[..2]) {
      assert e[..2][0] == e[0];
    } else {
      assert e[..1][0] == e[0];
    }
  }

  lemma ColonSkipsGap(w: string, e: string, rest: string)
    requires Encodes(w, e) && !LooseEnd(e)
    ensures Colon(e + " " + rest) == |e| + 1 + Colon(rest)
  {
    ColonSkipsWord(w, e, " " + rest);
    assert (" " + rest)[1..] == rest;
    assert e + " " + rest == e + (" " + rest);
  }

  lemma Regroup(a: string, b: string, c: string)
    ensures a + b + c == a + (b + c)
  {
  }

  lemma {:induction false} ColonSkipsWords(ws: seq<string>, es: seq<string>, rest: string)
    requires EncodesAll(ws, es) && rest != ""
    requires forall i | 0 <= i < |es| :: !LooseEnd(es[i])
    ensures Colon(Spaced(es) + rest) == |Spaced(es)| + Colon(rest)
  {
    if |ws| == 0 {
      assert Spaced(es) + rest == rest;
    } else if |ws| == 1 {
      ColonSkipsWord(ws[0], es[0], rest);
    } else {
      EncodesApart(ws, es);
      ColonSkipsWords(ws[1..], es[1..], rest);
      Regroup(es[0] + " ", Spaced(es[1..]), rest);
      ColonSkipsGap(ws[0], es[0], Spaced(es[1..]) + rest);
    }
  }

  /** A printed rule: the targets, a colon, and every source behind a blank. */
  function RuleText(ts: seq<string>, ss: seq<string>): string {
    Spaced(ts) + ":" + if ss == [] then "" else " " + Spaced(ss)
  }

  /** Any encoding of the words will do, as long as no target ends in a bare colon and the line does
      not start out as a comment. */
  ghost predicate Prints(targets: seq<string>, sources: seq<string>, ts: seq<string>, ss: seq<string>) {
    && EncodesAll(targets, ts) && EncodesAll(sources, ss)
    && (forall i | 0 <= i < |ts| :: !LooseEnd(ts[i]))
    && !StartsWith(RuleText(ts, ss), "#")
  }

  function DepsOf(targets: seq<string>, sources: seq<string>): Deps {
    Deps(set w | w in targets, set w | w in sources)
  }

  lemma RuleSplit(targets: seq<string>, ts: seq<string>, tail: string)
    requires EncodesAll(targets, ts)
    requires forall i | 0 <= i < |ts| :: !LooseEnd(ts[i])
    requires tail == "" || tail[0] == ' '
    ensures Colon(Spaced(ts) + ":" + tail) == |Spaced(ts)|
  {
    ColonSkipsWords(targets, ts, ":" + tail);
    assert Spaced(ts) + ":" + tail == Spaced(ts) + (":" + tail);
    assert tail != "" ==> (":" + tail)[1] == ' ' && IsSpace(' ');
  }

  lemma BlankSkipped(s: string)
    ensures Words(" " + s, "") == Words(s, "")
  {
    assert (" " + s)[1..] == s;
    assert IsSpace(' ');
  }

  lemma RuleLine(targets: seq<string>, ts: seq<string>, tail: string)
    requires EncodesAll(targets, ts)
    requires forall i | 0 <= i < |ts| :: !LooseEnd(ts[i])
    requires tail == "" || tail[0] == ' '
    requires !StartsWith(Spaced(ts) + ":" + tail, "#")
    ensures ReadLine(Spaced(ts) + ":" + tail) == match Words(tail, "")
      case Err(e) => Err(e)
      case Ok(sources) => Ok(DepsOf(targets, sources))
  {
    var line, i := Spaced(ts) + ":" + tail, |Spaced(ts)|;
    RuleSplit(targets, ts, tail);
    assert line[i] == ':' && line[..i] == Spaced(ts) && line[i + 1..] == tail;
    WordsRead(targets, ts);
    assert !Skipped(line) by {
      assert ':' in line && !IsSpace(':');
      assert line[..1] == [line[0]];
    }
  }

  lemma RuleRead(targets: seq<string>, sources: seq<string>, ts: seq<string>, ss: seq<string>)
    requires Prints(targets, sources, ts, ss)
    ensures ReadLine(RuleText(ts, ss)) == Ok(DepsOf(targets, sources))
  {
    RuleLine(targets, ts, if ss == [] then "" else " " + Spaced(ss));
    WordsRead(sources, ss);
    BlankSkipped(Spaced(ss));
  }

  /******* Whole files *******/

  datatype Item =
    | Blank
    | Note(text: string)
    | Rule(targets: seq<string>, sources: seq<string>, ts: seq<string>, ss: seq<string>)

  function ItemText(item: Item): string {
    match item
    case Blank => ""
    case Note(text) => "#" + text
    case Rule(_, _, ts, ss) => RuleText(ts, ss)
  }

  function FileText(items: seq<Item>): string {
    if items == [] then "" else ItemText(items[0]) + "\n" + FileText(items[1..])
  }

  function FileDeps(items: seq<Item>): Deps {
    if items == [] then NO_DEPS
    else Join(if items[0].Rule? then DepsOf(items[0].targets, items[0].sources) else NO_DEPS,
              FileDeps(items[1..]))
  }

  predicate OneLine(s: string) {
    forall c | c in s :: !IsLineEnd(c)
  }

  /** The line end behind s stays a line end: there is no backslash in front of it. */
  predicate Settled(s: string) {
    s == "" || s[|s| - 1] != '\\'
  }

  ghost predicate Printed(item: Item) {
    && OneLine(ItemText(item))
    && (item.Rule? ==> Prints(item.targets, item.sources, item.ts, item.ss))
  }

  lemma NoBreak(c: char, tail: string)
    requires tail != "" && (c != '\\' || tail[0] != '\n')
    ensures !StartsWith([c] + tail, "\\\n")
  {
    var s := [c] + tail;
    assert s[0] == c && s[1] == tail[0];
    assert s[..2] == [c, tail[0]];
  }

  lemma {:induction false} LineKept(t: string, rest: string)
    requires OneLine(t) && Settled(t)
    ensures Replace(t + "\n" + rest, "\\\n", "") == t + "\n" + Replace(rest, "\\\n", "")
  {
    if t == "" {
      ReplacePasses('\n', rest, "\\\n", "");
      assert t + "\n" + rest == ['\n'] + rest;
    } else {
      var tail := t[1..] + "\n" + rest;
      assert t + "\n" + rest == [t[0]] + tail;
      assert Settled(t[1..]);
      LineKept(t[1..], rest);
      assert IsLineEnd('\n');
      assert t[1..] == "" || tail[0] == t[1];
      NoBreak(t[0], tail);
      ReplaceSkips(t[0], tail, "\\\n", "");
    }
  }

  lemma {:induction false} LineSplit(t: string, c: char, rest: string, line: string)
    requires OneLine(t) && IsLineEnd(c)
    ensures Lines(t + [c] + rest, line) == [line + t] + Lines(rest, "")
  {
    if t == "" {
      assert (t + [c] + rest)[1..] == rest && line + t == line;
    } else {
      assert (t + [c] + rest)[1..] == t[1..] + [c] + rest;
      LineSplit(t[1..], c, rest, line + [t[0]]);
      assert line + [t[0]] + t[1..] == line + t;
    }
  }

  /** Blank lines, comments and rules in any order and any encoding: reading gives exactly the union
      of the targets and the union of the sources. */
  lemma {:induction false} FileRead(items: seq<Item>)
    requires forall i | 0 <= i < |items| :: Printed(items[i]) && Settled(ItemText(items[i]))
    ensures Read(FileText(items)) == Ok(FileDeps(items))
  {
    NoReturns(items);
    LineFeedsIdentity(FileText(items));
    FileKept(items);
    FileLines(items);
  }

  lemma {:induction false} NoReturns(items: seq<Item>)
    requires forall i | 0 <= i < |items| :: OneLine(ItemText(items[i]))
    ensures '\r' !in FileText(items)
  {
    assert IsLineEnd('\r');
    if items != [] {
      NoReturns(items[1..]);
      assert '\r' !in ItemText(items[0]);
    }
  }

  lemma {:induction false} FileKept(items: seq<Item>)
    requires forall i | 0 <= i < |items| :: Printed(items[i]) && Settled(ItemText(items[i]))
    ensures Replace(FileText(items), "\\\n", "") == FileText(items)
  {
    if items != [] {
      FileKept(items[1..]);
      LineKept(ItemText(items[0]), FileText(items[1..]));
    }
  }

  lemma {:induction false} FileLines(items: seq<Item>)
    requires forall i | 0 <= i < |items| :: Printed(items[i])
    ensures ReadLines(Lines(FileText(items), "")) == Ok(FileDeps(items))
  {
    if items != [] {
      var item, rest := items[0], FileText(items[1..]);
      FileLines(items[1..]);
      assert IsLineEnd('\n');
      LineSplit(ItemText(item), '\n', rest, "");
      assert "" + ItemText(item) == ItemText(item);
      assert Lines(FileText(items), "")[1..] == Lines(rest, "");
      ItemRead(item);
    }
  }

  lemma ItemRead(item: Item)
    requires Printed(item)
    ensures ReadLine(ItemText(item)) == Ok(if item.Rule? then DepsOf(item.targets, item.sources) else NO_DEPS)
  {
    if item.Rule? {
      RuleRead(item.targets, item.sources, item.ts, item.ss);
    }
  }

  /******* Where the reader loses a path *******/

  predicate Named(ws: seq<string>) {
    forall i | 0 <= i < |ws| :: ws[i] != ""
  }

  predicate AllOneLine(ws: seq<string>) {
    forall i | 0 <= i < |ws| :: OneLine(ws[i])
  }

  predicate Paths(ws: seq<string>) {
    Named(ws) && AllOneLine(ws)
  }

  function EscapedRule(targets: seq<string>, sources: seq<string>): string {
    RuleText(EscapeAll(targets), EscapeAll(sources))
  }

  predicate EndsInBackslash(ws: seq<string>) {
    ws != [] && ws[|ws| - 1] != "" && !Settled(ws[|ws| - 1])
  }

  lemma EscapeCharEnds(c: char)
    requires !IsLineEnd(c)
    ensures OneLine(EscapeChar(c)) && 1 <= |EscapeChar(c)| <= 2 && EscapeChar(c)[0] != '#'
    ensures |EscapeChar(c)| == 2 && c != '$' ==> EscapeChar(c) == ['\\', c]
    ensures |EscapeChar(c)| == 1 ==> EscapeChar(c) == [c] && c != ':' && c != '\\'
  {
    assert !IsLineEnd('$') && !IsLineEnd('\\');
  }

  lemma {:induction false} EscapeEnds(w: string)
    requires OneLine(w)
    ensures OneLine(Escape(w)) && !LooseEnd(Escape(w))
    ensures w != "" ==> Escape(w) != "" && Escape(w)[0] != '#'
  {
    if w != "" {
      EscapeCharEnds(w[0]);
      EscapeEnds(w[1..]);
      EscapeNotLoose(w[0], Escape(w[1..]));
    }
  }

  lemma {:induction false} EscapeAppends(front: string, c: char)
    ensures Escape(front + [c]) == Escape(front) + EscapeChar(c)
  {
    if front == "" {
      assert ([c])[1..] == "" && "" + [c] == [c];
    } else {
      EscapeAppends(front[1..], c);
      assert (front + [c])[1..] == front[1..] + [c];
    }
  }

  lemma EscapeCharLast(c: char)
    ensures EscapeChar(c) != "" && EscapeChar(c)[|EscapeChar(c)| - 1] == c
    ensures c == '\\' ==> EscapeChar(c) == "\\\\"
  {
  }

  lemma LastSettles(front: string, e: string)
    requires e != ""
    ensures Settled(front + e) <==> e[|e| - 1] != '\\'
  {
  }

  /** The escaped word ends in a backslash exactly if the word does, and then in two. */
  lemma EscapeSettles(w: string)
    requires w != ""
    ensures Settled(Escape(w)) <==> Settled(w)
    ensures !Settled(w) ==> Escape(w) == Escape(w[..|w| - 1]) + "\\\\"
  {
    var front, c := w[..|w| - 1], w[|w| - 1];
    assert w == front + [c];
    EscapeAppends(front, c);
    EscapeCharLast(c);
    LastSettles(Escape(front), EscapeChar(c));
  }

  lemma EscapeNotLoose(c: char, rest: string)
    requires !IsLineEnd(c) && !LooseEnd(rest)
    ensures !LooseEnd(EscapeChar(c) + rest)
  {
    var e := EscapeChar(c) + rest;
    EscapeCharEnds(c);
    assert e[|EscapeChar(c)|..] == rest;
    if c == '$' {
      assert e[1..] == ['$'] + rest && e[1..][1..] == rest;
    }
  }

  lemma {:induction false} SpacedEnds(ws: seq<string>)
    requires Paths(ws)
    ensures EncodesAll(ws, EscapeAll(ws)) && OneLine(Spaced(EscapeAll(ws)))
    ensures ws != [] ==> Spaced(EscapeAll(ws)) != "" && Spaced(EscapeAll(ws))[0] != '#'
  {
    if ws != [] {
      EscapeEnds(ws[0]);
      assert !IsLineEnd(' ');
      assert Paths(ws[1..]);
      SpacedEnds(ws[1..]);
      assert EscapeAll(ws)[1..] == EscapeAll(ws[1..]);
    }
  }

  lemma {:induction false} SpacedLast(es: seq<string>)
    requires es != [] && es[|es| - 1] != ""
    ensures Spaced(es) != "" && (Settled(Spaced(es)) <==> Settled(es[|es| - 1]))
  {
    if |es| > 1 {
      SpacedLast(es[1..]);
      LastSettles(es[0] + " ", Spaced(es[1..]));
    }
  }

  lemma SpacedSettles(ws: seq<string>)
    requires Paths(ws)
    ensures Settled(Spaced(EscapeAll(ws))) <==> !EndsInBackslash(ws)
  {
    if ws != [] {
      EscapeSettles(ws[|ws| - 1]);
      EscapeEnds(ws[|ws| - 1]);
      SpacedLast(EscapeAll(ws));
    }
  }

  lemma RuleSettles(front: string, back: string)
    requires OneLine(front) && OneLine(back)
    ensures OneLine(front + ":" + (" " + back)) && OneLine(front + ":")
    ensures back != "" ==> (Settled(front + ":" + (" " + back)) <==> Settled(back))
    ensures Settled(front + ":" + "")
  {
    assert !IsLineEnd(':') && !IsLineEnd(' ');
    assert front + ":" + "" == front + ":";
  }

  lemma EscapedRuleSettles(targets: seq<string>, sources: seq<string>)
    requires Paths(targets) && Paths(sources)
    ensures OneLine(EscapedRule(targets, sources))
    ensures Settled(EscapedRule(targets, sources)) <==> !EndsInBackslash(sources)
  {
    SpacedEnds(targets);
    SpacedEnds(sources);
    SpacedSettles(sources);
    RuleSettles(Spaced(EscapeAll(targets)), Spaced(EscapeAll(sources)));
    assert Spaced(EscapeAll(targets)) + ":" + "" == Spaced(EscapeAll(targets)) + ":";
  }

  lemma EscapedRulePrints(targets: seq<string>, sources: seq<string>)
    requires Paths(targets) && Paths(sources)
    ensures Prints(targets, sources, EscapeAll(targets), EscapeAll(sources))
    ensures OneLine(EscapedRule(targets, sources))
    ensures Settled(EscapedRule(targets, sources)) <==> !EndsInBackslash(sources)
  {
    EscapedRuleSettles(targets, sources);
    SpacedEnds(targets);
    SpacedEnds(sources);
    forall i | 0 <= i < |targets| ensures !LooseEnd(EscapeAll(targets)[i]) {
      EscapeEnds(targets[i]);
    }
    var line := EscapedRule(targets, sources);
    assert line[..1] == [line[0]];
  }

  /** A fully escaped rule in a file of its own is read back if and only if none of its words holds a line
      end and its last source does not end in a backslash: escaped or not, a line end cuts the rule, or is
      taken together with the backslash before it for a continuation. */
  lemma EscapedRuleRead(targets: seq<string>, sources: seq<string>)
    requires Named(targets) && Named(sources)
    ensures Read(EscapedRule(targets, sources) + "\n") == Ok(DepsOf(targets, sources))
       <==> AllOneLine(targets) && AllOneLine(sources) && !EndsInBackslash(sources)
  {
    if AllOneLine(targets) && AllOneLine(sources) {
      OneLinersRead(targets, sources);
    } else if Read(EscapedRule(targets, sources) + "\n") == Ok(DepsOf(targets, sources)) {
      FileWordsOneLine(EscapedRule(targets, sources) + "\n");
      forall i | 0 <= i < |targets| ensures OneLine(targets[i]) {
        assert targets[i] in DepsOf(targets, sources).targets;
      }
      forall i | 0 <= i < |sources| ensures OneLine(sources[i]) {
        assert sources[i] in DepsOf(targets, sources).sources;
      }
    }
  }

  lemma OneLinersRead(targets: seq<string>, sources: seq<string>)
    requires Paths(targets) && Paths(sources)
    ensures Read(EscapedRule(targets, sources) + "\n") == Ok(DepsOf(targets, sources))
       <==> !EndsInBackslash(sources)
  {
    EscapedRulePrints(targets, sources);
    if EndsInBackslash(sources) {
      LastSourceLost(targets, sources);
    } else {
      RuleAlone(targets, sources, EscapeAll(targets), EscapeAll(sources));
    }
  }

  /******* No word read holds a line end *******/

  lemma {:induction false} WordsOneLine(s: string, word: string, w: string)
    requires OneLine(s) && OneLine(word) && Words(s, word).Ok? && w in Words(s, word).value
    ensures OneLine(w)
  {
    if s != "" {
      assert s[0] in s && !IsLineEnd('$');
      if s[0] == '\\' {
        assert s[1] in s;
        WordsOneLine(s[2..], word + [s[1]], w);
      } else if s[0] == '$' {
        WordsOneLine(s[2..], word + "$", w);
      } else if IsSpace(s[0]) {
        if w != word {
          WordsOneLine(s[1..], "", w);
        }
      } else {
        WordsOneLine(s[1..], word + [s[0]], w);
      }
    }
  }

  predicate DepsOneLine(deps: Deps) {
    (forall w | w in deps.targets :: OneLine(w)) && forall w | w in deps.sources :: OneLine(w)
  }

  lemma LineWordsOneLine(line: string)
    requires OneLine(line) && ReadLine(line).Ok?
    ensures DepsOneLine(ReadLine(line).value)
  {
    if !Skipped(line) {
      var i := Colon(line);
      var lhs := if i < |line| then line[..i] else line;
      var rhs := if i < |line| then line[i + 1..] else "";
      assert OneLine(lhs) && OneLine(rhs);
      forall w | w in Words(lhs, "").value ensures OneLine(w) { WordsOneLine(lhs, "", w); }
      forall w | w in Words(rhs, "").value ensures OneLine(w) { WordsOneLine(rhs, "", w); }
    }
  }

  lemma {:induction false} LinesOneLine(s: string, line: string)
    requires OneLine(line)
    ensures AllOneLine(Lines(s, line))
  {
    if s != "" {
      if IsLineEnd(s[0]) {
        LinesOneLine(s[1..], "");
      } else {
        LinesOneLine(s[1..], line + [s[0]]);
      }
    }
  }

  lemma {:induction false} ReadLinesOneLine(lines: seq<string>)
    requires AllOneLine(lines) && ReadLines(lines).Ok?
    ensures DepsOneLine(ReadLines(lines).value)
  {
    if lines != [] {
      LineWordsOneLine(lines[0]);
      ReadLinesOneLine(lines[1..]);
    }
  }

  /** Whatever the file, no path that is read from it holds a line end. */
  lemma FileWordsOneLine(text: string)
    requires Read(text).Ok?
    ensures DepsOneLine(Read(text).value)
  {
    var kept := Replace(LineFeeds(text), "\\\n", "");
    LinesOneLine(kept, "");
    ReadLinesOneLine(Lines(kept, ""));
  }

  /******* Two such words *******/

  lemma SeparatorIsSpace(c: char)
    requires IsLineEnd(c)
    ensures IsSpace(c) && EscapeChar(c) == ['\\', c]
  {
  }

  /** The printed rule of one target `a` and one source that holds c between `b` and `c`. */
  function Torn(c: char): string {
    "a: b\\" + [c] + "c\n"
  }

  lemma SingleRule(target: string, source: string)
    ensures EscapedRule([target], [source]) == Escape(target) + ":" + (" " + Escape(source))
  {
    assert EscapeAll([target]) == [Escape(target)] && EscapeAll([source]) == [Escape(source)];
  }

  lemma Letters()
    ensures EscapeChar('a') == "a" && EscapeChar('b') == "b" && EscapeChar('c') == "c"
    ensures Escape("a") == "a" && Escape("c") == "c" && Escape("bc") == "bc"
  {
    EscapeHead('a', "");
    EscapeHead('c', "");
    EscapeHead('b', "c");
    assert ['a'] + "" == "a" && ['c'] + "" == "c" && ['b'] + "c" == "bc";
  }

  lemma TornWord(c: char)
    requires IsLineEnd(c)
    ensures Escape("b" + [c] + "c") == "b\\" + [c] + "c"
  {
    SeparatorIsSpace(c);
    Letters();
    EscapeHead('b', [c] + "c");
    EscapeHead(c, "c");
    assert "b" + [c] + "c" == ['b'] + ([c] + "c");
    assert "b" + (['\\', c] + "c") == "b\\" + [c] + "c";
  }

  lemma TornPrinted(c: char)
    requires IsLineEnd(c)
    ensures EscapedRule(["a"], ["b" + [c] + "c"]) + "\n" == Torn(c)
  {
    TornWord(c);
    Letters();
    SingleRule("a", "b" + [c] + "c");
    assert "a" + ":" + (" " + ("b\\" + [c] + "c")) + "\n" == Torn(c);
  }

  lemma {:induction false} NoContinuation(s: string)
    requires forall i | 0 <= i < |s| - 1 :: !(s[i] == '\\' && s[i + 1] == '\n')
    ensures Replace(s, "\\\n", "") == s
  {
    if s != "" {
      NoContinuation(s[1..]);
      if |s| > 1 {
        NoBreak(s[0], s[1..]);
        assert s == [s[0]] + s[1..];
      }
      assert !StartsWith(s, "\\\n");
    }
  }

  /** Any line end but the feed and the return cuts the rule behind the backslash, which is then refused. */
  lemma SeparatorRefused(c: char)
    requires IsLineEnd(c) && c != '\n' && c != '\r'
    ensures Read(EscapedRule(["a"], ["b" + [c] + "c"]) + "\n").Err?
  {
    var text := Torn(c);
    TornPrinted(c);
    LineFeedsIdentity(text);
    NoContinuation(text);
    assert text == "a: b\\" + [c] + "c\n";
    assert OneLine("a: b\\") by { PlainChars(); }
    LineSplit("a: b\\", c, "c\n", "");
    assert "" + "a: b\\" == "a: b\\";
    Dangling();
  }

  lemma PlainChars()
    ensures !IsLineEnd('a') && !IsLineEnd('b') && !IsLineEnd('c') && !IsLineEnd(':') && !IsLineEnd(' ') && !IsLineEnd('\\')
  {
  }

  lemma Dangling()
    ensures ReadLine("a: b\\").Err?
  {
    var rest := "b\\";
    Letters();
    assert rest[1..] == "\\" && Words("\\", "" + ['b']).Err?;
    assert Words(rest, "").Err? by { assert !IsSpace('b'); }
    assert Encodes("a", "a") && "a" != "";
    assert EncodesAll(["a"], ["a"]) && Spaced(["a"]) == "a";
    assert !LooseEnd("a");
    var line := Spaced(["a"]) + ":" + (" " + rest) + "\\";
    assert line[0] == 'a' && line[..1] == ['a'];
    CutRuleFails(["a"], ["a"], rest, line);
    assert Spaced(["a"]) + ":" + (" " + rest) == "a: b\\";
  }

  lemma FeedsPass(c: char, tail: string)
    requires c != '\r'
    ensures LineFeeds([c] + tail) == [c] + LineFeeds(tail)
  {
    assert ([c] + tail)[1..] == tail;
  }

  lemma {:induction false} FeedsAhead(t: string, s: string)
    requires '\r' !in t
    ensures LineFeeds(t + s) == t + LineFeeds(s)
  {
    if t == "" {
      assert t + s == s && t + LineFeeds(s) == LineFeeds(s);
    } else {
      FeedsAhead(t[1..], s);
      FeedsPass(t[0], t[1..] + s);
      assert t + s == [t[0]] + (t[1..] + s);
      assert t + LineFeeds(s) == [t[0]] + (t[1..] + LineFeeds(s));
    }
  }

  lemma FeedMade(c: char, rest: string)
    requires (c == '\n' || c == '\r') && rest != "" && rest[0] != '\n'
    ensures LineFeeds([c] + rest) == "\n" + LineFeeds(rest)
  {
    assert ([c] + rest)[1..] == rest;
  }

  lemma ReturnIsFeed(c: char)
    requires c == '\n' || c == '\r'
    ensures LineFeeds(Torn(c)) == Torn('\n')
  {
    var t := "a: b\\";
    FeedsAhead(t, [c] + "c\n");
    FeedMade(c, "c\n");
    LineFeedsIdentity("c\n");
    assert t + ("\n" + "c\n") == Torn('\n') && t + ([c] + "c\n") == Torn(c);
  }

  lemma Joined()
    ensures Replace(Torn('\n'), "\\\n", "") == "a: bc\n"
  {
    PlainChars();
    ContinuationTaken("a: b", "c\n");
    NoContinuation("c\n");
    assert Torn('\n') == "a: b" + "\\\n" + "c\n";
    assert "a: b" + "c\n" == "a: bc\n";
  }

  lemma JoinedRule()
    ensures EscapedRule(["a"], ["bc"]) + "\n" == "a: bc\n"
  {
    Letters();
    SingleRule("a", "bc");
    assert "a" + ":" + (" " + "bc") + "\n" == "a: bc\n";
  }

  lemma JoinedRead()
    ensures ReadLines(Lines("a: bc\n", "")) == Ok(DepsOf(["a"], ["bc"]))
  {
    LineFeedsIdentity("a: bc\n");
    NoContinuation("a: bc\n");
    JoinedRule();
    PlainChars();
    OneLinersRead(["a"], ["bc"]);
  }

  /** A line feed or a return is taken for a continuation: the word is read without it, and nothing says so. */
  lemma FeedJoins(c: char)
    requires c == '\n' || c == '\r'
    ensures Read(EscapedRule(["a"], ["b" + [c] + "c"]) + "\n") == Ok(DepsOf(["a"], ["bc"]))
  {
    TornPrinted(c);
    ReturnIsFeed(c);
    Joined();
    JoinedRead();
  }

  lemma EscapeHead(c: char, rest: string)
    ensures Escape([c] + rest) == EscapeChar(c) + Escape(rest)
  {
    assert ([c] + rest)[1..] == rest;
  }

  /** A file of one printed rule. */
  lemma RuleAlone(targets: seq<string>, sources: seq<string>, ts: seq<string>, ss: seq<string>)
    requires Printed(Rule(targets, sources, ts, ss)) && Settled(RuleText(ts, ss))
    ensures Read(RuleText(ts, ss) + "\n") == Ok(DepsOf(targets, sources))
  {
    var item := Rule(targets, sources, ts, ss);
    FileRead([item]);
    assert FileText([item]) == RuleText(ts, ss) + "\n";
    assert FileDeps([item]) == DepsOf(targets, sources);
  }

  lemma LastSourceLost(targets: seq<string>, sources: seq<string>)
    requires Paths(targets) && Paths(sources) && EndsInBackslash(sources)
    ensures Read(EscapedRule(targets, sources) + "\n").Err?
  {
    var ts, s := EscapeAll(targets), Spaced(EscapeAll(sources));
    EscapedRulePrints(targets, sources);
    SpacedDangles(sources);
    CutRule(Spaced(ts), s, EscapedRule(targets, sources));
    CutRuleFails(targets, ts, Cut(s), EscapedRule(targets, sources));
    CutFileRead(Spaced(ts) + ":" + (" " + Cut(s)));
  }

  /** The rule without its last character. */
  lemma CutRule(front: string, s: string, line: string)
    requires s != "" && line == front + ":" + (" " + s) && OneLine(line) && !Settled(line)
    ensures line == front + ":" + (" " + Cut(s)) + "\\"
    ensures line + "\n" == front + ":" + (" " + Cut(s)) + "\\\n"
    ensures OneLine(front + ":" + (" " + Cut(s)))
  {
    var cut := front + ":" + (" " + Cut(s));
    assert line[..|line| - 1] == cut && line[|line| - 1] == '\\';
    assert line == cut + "\\";
    assert cut + "\\" + "\n" == cut + "\\\n";
  }

  lemma CutRuleFails(targets: seq<string>, ts: seq<string>, rest: string, line: string)
    requires EncodesAll(targets, ts) && Words(rest, "").Err?
    requires forall i | 0 <= i < |ts| :: !LooseEnd(ts[i])
    requires line == Spaced(ts) + ":" + (" " + rest) + "\\" && !StartsWith(line, "#")
    ensures ReadLine(Spaced(ts) + ":" + (" " + rest)).Err?
  {
    var cut := Spaced(ts) + ":" + (" " + rest);
    assert cut[..1] == line[..1];
    RuleLine(targets, ts, " " + rest);
    BlankSkipped(rest);
  }

  lemma CutFileRead(cut: string)
    requires cut != "" && OneLine(cut)
    ensures Read(cut + "\\\n") == match ReadLine(cut)
      case Err(e) => Err(e)
      case Ok(deps) => Ok(Join(deps, NO_DEPS))
  {
    assert IsLineEnd('\r');
    LineFeedsIdentity(cut + "\\\n");
    ContinuationTaken(cut, "");
    assert cut + "\\\n" + "" == cut + "\\\n" && cut + "" == cut;
    LineAlone(cut, "");
    assert "" + cut == cut;
    assert [cut][1..] == [] && ReadLines([]) == Ok(NO_DEPS);
  }

  lemma {:induction false} ContinuationTaken(t: string, rest: string)
    requires OneLine(t)
    ensures Replace(t + "\\\n" + rest, "\\\n", "") == t + Replace(rest, "\\\n", "")
  {
    if t == "" {
      assert t + "\\\n" + rest == "\\\n" + rest;
      ReplaceTakes(rest, "\\\n", "");
    } else {
      var tail := t[1..] + "\\\n" + rest;
      assert t + "\\\n" + rest == [t[0]] + tail;
      ContinuationTaken(t[1..], rest);
      assert IsLineEnd('\n');
      assert tail[0] == if t[1..] == "" then '\\' else t[1];
      NoBreak(t[0], tail);
      ReplaceSkips(t[0], tail, "\\\n", "");
    }
  }

  lemma {:induction false} LineAlone(t: string, line: string)
    requires OneLine(t) && line + t != ""
    ensures Lines(t, line) == [line + t]
  {
    if t == "" {
      assert line + t == line;
    } else {
      LineAlone(t[1..], line + [t[0]]);
      assert line + [t[0]] + t[1..] == line + t;
    }
  }

  lemma SpacedDangles(ws: seq<string>)
    requires Paths(ws) && EndsInBackslash(ws)
    ensures Spaced(EscapeAll(ws)) != "" && Words(Cut(Spaced(EscapeAll(ws))), "").Err?
  {
    WordDangles(ws[|ws| - 1]);
    Dangles(ws, EscapeAll(ws));
  }

  function Cut(s: string): string {
    if s == "" then "" else s[..|s| - 1]
  }

  lemma {:induction false} Dangles(ws: seq<string>, es: seq<string>)
    requires |es| == |ws| > 0 && es[|es| - 1] != "" && Words(Cut(es[|es| - 1]), "").Err?
    requires forall i | 0 <= i < |ws| - 1 :: ws[i] != "" && Encodes(ws[i], es[i])
    ensures Spaced(es) != "" && Words(Cut(Spaced(es)), "").Err?
  {
    if |ws| > 1 {
      Dangles(ws[1..], es[1..]);
      var rest := Spaced(es[1..]);
      assert Cut(es[0] + " " + rest) == es[0] + " " + Cut(rest);
      GapRead(ws[0], es[0], Cut(rest));
    }
  }

  lemma WordDangles(w: string)
    requires w != "" && OneLine(w) && !Settled(w)
    ensures Escape(w) != "" && Words(Cut(Escape(w)), "").Err?
  {
    EscapeSettles(w);
    var front := Escape(w[..|w| - 1]);
    assert Cut(Escape(w)) == front + "\\";
    WordRead(w[..|w| - 1], front, "\\", "");
  }
}
